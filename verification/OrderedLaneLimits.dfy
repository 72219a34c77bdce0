/** Where the ordered lane's guarantee ends, and exactly where: holes in the numbering, the sequence-number
    range, and the ACK of a window that has seen nothing. */
module OrderedLaneLimits {
  import opened SerialNumbers
  import opened AckMask
  import opened Datagrams
  import opened PacketWindow
  import opened ReliableQueue
  import opened OrderedReceiver
  import opened OrderedLane

  // ---- numbers used up by a full queue ----

  /** What a caller can check before Submit: the message has a proper size but the queue is full. */
  predicate Overflows(x: Side, payload: bytes)
  {
    ReliableSizeOk(LANE_ORDERED, payload) && |x.lane.queue| >= SEND_BUF_SIZE
  }

  ghost predicate Hole(log: Log) { exists k :: 0 <= k < |log| && log[k] == None }

  /** A Submit uses up a number without a message if and only if it meets a full queue. */
  lemma SubmitLeavesHole(x: Side, y: Side, payload: bytes, now: Time)
    ensures Act(x, y, Submit(payload, now)).log == x.log + [None] <==> Overflows(x, payload)
    ensures !Overflows(x, payload) ==>
              Act(x, y, Submit(payload, now)).log == x.log + if ReliableSizeOk(LANE_ORDERED, payload) then [Some(payload)] else []
  {
    assert x.log + [] == x.log;
    assert |x.log + [None]| == |x.log| + 1;
    assert (x.log + [None])[|x.log|] != (x.log + [Some(payload)])[|x.log|];
  }

  function SideOf(s: System, byA: bool): Side { if byA then s.a else s.b }

  /** Some Submit of that side meets a full queue. */
  ghost predicate MetFullQueue(s: System, steps: seq<Step>, byA: bool)
    decreases |steps|
  {
    steps != [] &&
    (MeetsFullQueue(s, steps[0], byA) || MetFullQueue(Next(s, steps[0]), steps[1..], byA))
  }

  predicate MeetsFullQueue(s: System, st: Step, byA: bool)
  {
    st.byA == byA && st.act.Submit? && Overflows(SideOf(s, byA), st.act.payload)
  }

  lemma HoleStep(s: System, st: Step, byA: bool)
    ensures Hole(SideOf(Next(s, st), byA).log) <==> Hole(SideOf(s, byA).log) || MeetsFullQueue(s, st, byA)
  {
    var x, y := SideOf(s, byA), SideOf(s, !byA);
    var x' := SideOf(Next(s, st), byA);
    if st.byA == byA && st.act.Submit? {
      SubmitLeavesHole(x, y, st.act.payload, st.act.now);
      if Hole(x.log) {
        var k :| 0 <= k < |x.log| && x.log[k] == None;
        assert x'.log[k] == None;
      }
      if Overflows(x, st.act.payload) { assert x'.log[|x.log|] == None; }
    } else {
      assert x'.log == x.log;
    }
  }

  /** Over whole runs: a side's numbering has a hole if and only if some Submit of it met a full queue. */
  lemma {:induction false} HolesAreOverflows(s: System, steps: seq<Step>, byA: bool)
    ensures Hole(SideOf(Run(s, steps), byA).log) <==> Hole(SideOf(s, byA).log) || MetFullQueue(s, steps, byA)
    decreases |steps|
  {
    if steps != [] {
      HoleStep(s, steps[0], byA);
      HolesAreOverflows(Next(s, steps[0]), steps[1..], byA);
    }
  }

  /** Without an overflow every number has its message, and each of them is queued, delivered or held; with
      one, delivery stops at the hole for good. */
  lemma OverflowDecides(steps: seq<Step>)
    requires RunAllowed(INIT, steps)
    ensures var s := Run(INIT, steps);
            !MetFullQueue(INIT, steps, true) <==> forall k: nat :: k < |s.a.log| ==> s.a.log[k].Some?
    ensures var s := Run(INIT, steps);
            !MetFullQueue(INIT, steps, true) ==> forall k: nat :: k < |s.a.log| ==> Queued(s.a, k) || Has(s.b, k)
  {
    HolesAreOverflows(INIT, steps, true);
    OrderedLaneIsReliable(steps);
  }

  /** A number used up by a full queue is never delivered past: delivery stops at it for good. */
  lemma OverflowBlocksTheLane(steps: seq<Step>, k: nat)
    requires RunAllowed(INIT, steps)
    requires var s := Run(INIT, steps); k < |s.a.log| && s.a.log[k] == None
    ensures |Run(INIT, steps).b.delivered| <= k
  {
    var s := Run(INIT, steps);
    OrderedLaneIsReliable(steps);
    DeliveredWasQueued(s.b.delivered, s.a.log, k);
  }

  /** A run that leaves a hole: 513 messages submitted before any is delivered. */
  function Submits(n: nat): seq<Step>
  {
    if n == 0 then [] else [Step(true, Submit([], 0))] + Submits(n - 1)
  }

  lemma {:induction false} SubmitsFill(s: System, n: nat)
    requires n > 0 && |s.a.lane.queue| == |s.a.log| && |s.a.log| + n == SEND_BUF_SIZE + 1
    ensures var log := Run(s, Submits(n)).a.log; |log| == SEND_BUF_SIZE + 1 && log[SEND_BUF_SIZE] == None
    decreases n
  {
    var st := Step(true, Submit([], 0));
    assert Submits(n)[0] == st && Submits(n)[1..] == Submits(n - 1);
    SubmitLeavesHole(s.a, s.b, [], 0);
    if n > 1 {
      SubmitsFill(Next(s, st), n - 1);
    }
  }

  lemma {:induction false} SubmitsAreAllowed(s: System, n: nat)
    ensures RunAllowed(s, Submits(n))
    decreases n
  {
    if n > 0 {
      assert Submits(n)[1..] == Submits(n - 1);
      SubmitsAreAllowed(Next(s, Submits(n)[0]), n - 1);
    }
  }

  /** The 513th message takes number 512 and is refused: nothing numbered later will ever be delivered. */
  lemma OverflowHappens()
    ensures RunAllowed(INIT, Submits(SEND_BUF_SIZE + 1))
    ensures var log := Run(INIT, Submits(SEND_BUF_SIZE + 1)).a.log;
            |log| == SEND_BUF_SIZE + 1 && log[SEND_BUF_SIZE] == None
  {
    SubmitsAreAllowed(INIT, SEND_BUF_SIZE + 1);
    SubmitsFill(INIT, SEND_BUF_SIZE + 1);
  }

  // ---- the sequence-number range ----

  /** Runs short of 32768 packets and messages never leave the range. */
  lemma ShortRunsAreInRange(x: Side, y: Side, n: nat)
    requires Direction(x, y) && Direction(y, x) && n < |y.sent|
    requires |x.sent| < HALF_RANGE && |y.sent| < HALF_RANGE && |y.log| < HALF_RANGE
    ensures PacketInRange(x, y.sent[n], n) && AckInRange(x, y.sent[n])
  {
    var f := y.sent[n];
    assert FlightOk(f, n, y.log) && StampOk(f, y.hist);
    assert forall m :: m in x.lane.queue ==> MessageOk(m, x.sent, x.log);
    if x.lane.recv.init { assert x.hist.newest in x.hist.accepted; }
    if f.window.init { assert f.stamp.newest in y.hist.accepted; }
  }

  ghost predicate StampsMeanSomething(s: System, steps: seq<Step>)
    decreases |steps|
  {
    steps == [] || (StampCounts(s, steps[0]) && StampsMeanSomething(Next(s, steps[0]), steps[1..]))
  }

  predicate StampCounts(s: System, st: Step)
  {
    var x, y := SideOf(s, st.byA), SideOf(s, !st.byA);
    st.act.Deliver? && st.act.index < |y.sent| ==> StampMeansSomething(x, y.sent[st.act.index])
  }

  /** Room for n more steps before any number could leave the range. */
  ghost predicate Roomy(s: System, n: nat)
  {
    && |s.a.sent| + n <= HALF_RANGE && |s.a.log| + n <= HALF_RANGE
    && |s.b.sent| + n <= HALF_RANGE && |s.b.log| + n <= HALF_RANGE
  }

  lemma StepTakesRoom(s: System, st: Step, n: nat)
    requires Roomy(s, n) && n > 0
    ensures Roomy(Next(s, st), n - 1)
  {
  }

  lemma ShortStepIsAllowed(s: System, st: Step, n: nat)
    requires Inv(s) && Roomy(s, n) && n > 0 && StampCounts(s, st)
    ensures StepAllowed(s, st)
  {
    var x, y := SideOf(s, st.byA), SideOf(s, !st.byA);
    if st.act.Deliver? && st.act.index < |y.sent| {
      ShortRunsAreInRange(x, y, st.act.index);
    }
  }

  lemma {:induction false} ShortRunsAreAllowed(s: System, steps: seq<Step>)
    requires Inv(s) && Roomy(s, |steps|) && StampsMeanSomething(s, steps)
    ensures RunAllowed(s, steps)
    decreases |steps|
  {
    if steps != [] {
      var st := steps[0];
      ShortStepIsAllowed(s, st, |steps|);
      if st.byA { ActKeeps(s.a, s.b, st.act); } else { ActKeeps(s.b, s.a, st.act); }
      StepTakesRoom(s, st, |steps|);
      ShortRunsAreAllowed(Next(s, st), steps[1..]);
    }
  }

  /** Every run of at most 32768 steps is reliable, with no hypothesis on the range at all. */
  lemma ShortRunsAreReliable(steps: seq<Step>)
    requires |steps| <= HALF_RANGE && StampsMeanSomething(INIT, steps)
    ensures var s := Run(INIT, steps);
            && Continues(s.b.delivered, 0, s.a.log)
            && Continues(s.a.delivered, 0, s.b.log)
            && (forall k: nat :: k < |s.a.log| && s.a.log[k].Some? ==> Queued(s.a, k) || Has(s.b, k))
            && (forall k: nat :: k < |s.b.log| && s.b.log[k].Some? ==> Queued(s.b, k) || Has(s.a, k))
  {
    assert Inv(INIT);
    ShortRunsAreAllowed(INIT, steps);
    OrderedLaneIsReliable(steps);
  }

  // ---- the ACK of a window that has seen nothing ----

  /** An endpoint that has received nothing sends any datagram; its stamp reads as an ACK of packet 0,
      and the peer forgets a message that was never received. */
  lemma FreshStampLosesMessage()
    ensures exists steps: seq<Step> ::
              var s := Run(INIT, steps);
              && s.a.log == [Some([7])]
              && !Queued(s.a, 0)
              && !Has(s.b, 0)
  {
    var st1, st2 := Step(true, Submit([7], 0)), Step(true, SendOrdered(0, true));
    var st3 := Step(false, SendOther(Packet(0, 0, EMPTY, 0, LANE_UNRELIABLE, 0, 0, 0, [])));
    var st4 := Step(true, Deliver(0, 1, false));
    var s2 := Next(Next(INIT, st1), st2);
    var sent := MarkSent(Message(0, 0, [7], 0, 0, 0, 0, false), 0, 0);
    assert s2.a.lane.queue == [sent] && s2.a.log == [Some([7])];
    var s4 := Next(Next(s2, st3), st4);
    OnlyMessageForgotten(sent);
    assert s4.a.lane.queue == [] && s4.b.delivered == [] && s4.a.log == [Some([7])];
    FourSteps(INIT, st1, st2, st3, st4);
  }

  lemma FourSteps(s: System, a: Step, b: Step, c: Step, d: Step)
    ensures Run(s, [a, b, c, d]) == Next(Next(Next(Next(s, a), b), c), d)
  {
    RunCons(s, a, [b, c, d]);
    RunCons(Next(s, a), b, [c, d]);
    RunCons(Next(Next(s, a), b), c, [d]);
    RunCons(Next(Next(Next(s, a), b), c), d, []);
    assert [d] + [] == [d] && [c] + [d] == [c, d] && [b] + [c, d] == [b, c, d] && [a] + [b, c, d] == [a, b, c, d];
  }

  lemma RunCons(s: System, st: Step, rest: seq<Step>)
    ensures Run(s, [st] + rest) == Run(Next(s, st), rest)
  {
    assert ([st] + rest)[1..] == rest;
  }

  lemma OnlyMessageForgotten(m: Message)
    requires m.inFlight && m.lastPacket == 0 && !Expired(m, 1)
    ensures Prune([m], FRESH.latest, FRESH.mask, 1).0 == []
  {
    FreshStampAcknowledgesZero(0);
    PruneWithoutStall([m], 0, EMPTY, 1);
    assert [m][..0] == [];
  }

  /** Exactly when that happens, whatever the peer accepted since it sent the stamp and whether or not a prune
      stalls now or stalled before: a message is lost if and only if every slot that holds it is in flight in a
      packet whose number wraps to 0, the peer does not have it, and no stall leaves such a slot behind. */
  lemma FreshStampLosesExactly(x: Side, y: Side, n: nat, now: Time, elsewhere: bool)
    requires Direction(x, y) && n < |y.sent| && !y.sent[n].window.init
    ensures Conserved(Act(x, y, Deliver(n, now, elsewhere)), y) <==> NothingAtRisk(x, y, y.sent[n].packet, now)
  {
    var q, p := x.lane.queue, y.sent[n].packet;
    var x' := Act(x, y, Deliver(n, now, elsewhere));
    assert x'.lane.queue == Prune(q, p.ackSeq, p.ackMask, now).0 && x'.log == x.log;
    assert StampOk(y.sent[n], y.hist);
    if NothingAtRisk(x, y, p, now) {
      forall j: nat | j < |x'.log| && x'.log[j].Some? ensures Queued(x', j) || Has(y, j) {
        if Queued(x, j) && !Has(y, j) {
          StaysQueued(x, y, n, now, j, x');
        }
      }
    } else {
      var i :| 0 <= i < |q| && AtRisk(x, y, p, now, q[i].number);
      LosesMessage(x, y, n, now, i, x');
    }
  }

  /** Message k would leave the queue on a fresh stamp although the peer does not have it. */
  ghost predicate AtRisk(x: Side, y: Side, p: Packet, now: Time, k: nat)
  {
    var q := x.lane.queue;
    !Has(y, k) && forall i :: 0 <= i < |q| && q[i].number == k ==>
      q[i].inFlight && Wrap(q[i].lastPacket) == 0 && !Lingers(q, p.ackSeq, p.ackMask, now, i)
  }

  ghost predicate NothingAtRisk(x: Side, y: Side, p: Packet, now: Time)
  {
    forall i :: 0 <= i < |x.lane.queue| ==> !AtRisk(x, y, p, now, x.lane.queue[i].number)
  }

  /** On a fresh stamp the slots that leave are those in flight in a packet whose number wraps to 0. */
  lemma AtRiskLeaves(x: Side, y: Side, n: nat, now: Time, k: nat)
    requires n < |y.sent| && StampOk(y.sent[n], y.hist) && !y.sent[n].window.init && !Has(y, k)
    ensures var p := y.sent[n].packet; AtRisk(x, y, p, now, k) <==> AllLeave(x.lane.queue, p.ackSeq, p.ackMask, now, k)
  {
    var q := x.lane.queue;
    forall i | 0 <= i < |q|
      ensures Status(q[i], y.sent[n].packet.ackSeq, y.sent[n].packet.ackMask) == Delivered <==>
              q[i].inFlight && Wrap(q[i].lastPacket) == 0
    {
      FreshStampAcknowledgesZero(Wrap(q[i].lastPacket));
    }
  }

  lemma StaysQueued(x: Side, y: Side, n: nat, now: Time, j: nat, x': Side)
    requires n < |y.sent| && StampOk(y.sent[n], y.hist) && !y.sent[n].window.init
    requires NothingAtRisk(x, y, y.sent[n].packet, now) && Queued(x, j) && !Has(y, j)
    requires x'.lane.queue == Prune(x.lane.queue, y.sent[n].packet.ackSeq, y.sent[n].packet.ackMask, now).0
    ensures Queued(x', j)
  {
    var q, p := x.lane.queue, y.sent[n].packet;
    var i :| 0 <= i < |q| && q[i].number == j;
    assert !AtRisk(x, y, p, now, q[i].number);
    AtRiskLeaves(x, y, n, now, j);
    DeliveredLeaves(q, p.ackSeq, p.ackMask, now, j);
  }

  lemma LosesMessage(x: Side, y: Side, n: nat, now: Time, i: nat, x': Side)
    requires Direction(x, y) && n < |y.sent| && !y.sent[n].window.init
    requires i < |x.lane.queue| && AtRisk(x, y, y.sent[n].packet, now, x.lane.queue[i].number) && x'.log == x.log
    requires x'.lane.queue == Prune(x.lane.queue, y.sent[n].packet.ackSeq, y.sent[n].packet.ackMask, now).0
    ensures !Conserved(x', y)
  {
    var q, p := x.lane.queue, y.sent[n].packet;
    assert StampOk(y.sent[n], y.hist) && MessageOk(q[i], x.sent, x.log);
    AtRiskLeaves(x, y, n, now, q[i].number);
    DeliveredLeaves(q, p.ackSeq, p.ackMask, now, q[i].number);
    assert !Queued(x', q[i].number) && !Has(y, q[i].number);
  }
}
