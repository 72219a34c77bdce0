/** The reliable-ordered lane end to end: two endpoints that each send and receive, and a network
    that may drop, duplicate and reorder everything sent so far. */
module OrderedLane {
  import opened SerialNumbers
  import opened AckMask
  import opened Datagrams
  import opened PacketWindow
  import opened ReliableQueue
  import opened OrderedReceiver

  /** The part of one endpoint's protocol state that the ordered lane reads and writes. */
  datatype Lane = Lane(
    packetsSent: nat,      // behind nextPacketSeq
    idsUsed: nat,          // behind nextMessageID
    numbered: nat,         // behind nextOrderedSeq
    recv: Window,          // recvPackets
    ordered: OrderedState, // orderedRecv
    queue: seq<Message>)   // pendingOrdered

  const IDLE := Lane(0, 0, 0, FRESH, START, [])

  /** enqueueReliable on the ordered lane: the numbers are used up before the overflow test. */
  function Enqueue(l: Lane, payload: bytes, now: Time): (Lane, bool)
  {
    if !ReliableSizeOk(LANE_ORDERED, payload) then (l, false)
    else
      var msg := Message(l.idsUsed, l.numbered, payload, now, now, 0, 0, false);
      var l1 := l.(idsUsed := l.idsUsed + 1, numbered := l.numbered + 1);
      if |l.queue| >= SEND_BUF_SIZE then (l1, false)
      else (l1.(queue := l.queue + [msg]), true)
  }

  /** newPacketInto: every packet takes the next number and the receive window's stamp. */
  function Stamped(l: Lane, p: Packet): Packet
  {
    p.(packetSeq := Wrap(l.packetsSent), ackSeq := l.recv.latest, ackMask := l.recv.mask)
  }

  function OrderedPacket(l: Lane, m: Message): Packet
  {
    Stamped(l, Packet(0, 0, EMPTY, 0, LANE_ORDERED, Wrap(m.id), Wrap(m.number), 0, m.payload))
  }

  /** nextReliablePacketInto on the ordered lane when it sends: the message at index i. */
  function SendAt(l: Lane, i: nat, now: Time): Lane
    requires i < |l.queue|
  {
    l.(queue := l.queue[i := MarkSent(l.queue[i], l.packetsSent, now)], packetsSent := l.packetsSent + 1)
  }

  /** Whether handleIncoming gets past the ACK stage. */
  predicate PassesAcks(l: Lane, p: Packet, now: Time, stalledElsewhere: bool)
  {
    !Prune(l.queue, p.ackSeq, p.ackMask, now).1 && !stalledElsewhere
  }

  /** handleIncoming: ACKs first, then the packet window, then the ordered receiver. A stall in
      another lane's queue ends it after the ACK stage. */
  function Receive(l: Lane, p: Packet, now: Time, stalledElsewhere: bool): (Lane, seq<bytes>)
  {
    var l1 := l.(queue := Prune(l.queue, p.ackSeq, p.ackMask, now).0);
    if !PassesAcks(l, p, now, stalledElsewhere) || p.AckOnly() then (l1, []) else AfterAcks(l1, p, now)
  }

  /** The packet window, then the ordered receiver. */
  function AfterAcks(l: Lane, p: Packet, now: Time): (Lane, seq<bytes>)
  {
    var (w, ok) := Admit(l.recv, p.packetSeq);
    if !ok || p.lane != LANE_ORDERED then (l.(recv := w), [])
    else
      var (o, out) := AcceptOrdered(l.ordered, p.orderedSeq, p.payload, now);
      (l.(recv := w, ordered := o), out)
  }

  // ---- two endpoints and the network ----

  /** A packet as sent, with the unbounded number of the ordered message it carries, if any, and the
      receive window and history that stamped it. */
  datatype Flight = Flight(packet: Packet, number: Option<nat>, window: Window, stamp: History)

  /** One endpoint: its state, everything it numbered and sent, what it accepted and delivered. */
  datatype Side = Side(lane: Lane, log: Log, sent: seq<Flight>, hist: History, delivered: seq<bytes>)

  datatype System = System(a: Side, b: Side)

  const INIT_SIDE := Side(IDLE, [], [], NOTHING, [])
  const INIT := System(INIT_SIDE, INIT_SIDE)

  datatype Action =
    | Submit(payload: bytes, now: Time)
    | SendOrdered(now: Time, allowResend: bool)
    | SendOther(packet: Packet)  // ACK-only, unreliable, unordered or eventual-state
    | Deliver(index: nat, now: Time, stalledElsewhere: bool)

  /** The action `act` of endpoint x, whose peer is y. */
  function Act(x: Side, y: Side, act: Action): Side
  {
    match act
    case Submit(payload, now) =>
      var (l, ok) := Enqueue(x.lane, payload, now);
      if l.numbered == x.lane.numbered then x
      else x.(lane := l, log := x.log + [if ok then Some(payload) else None])
    case SendOrdered(now, allowResend) =>
      var c := NextToSend(x.lane.queue, now, allowResend);
      if !c.Send? then x
      else
        var m := x.lane.queue[c.index];
        x.(lane := SendAt(x.lane, c.index, now),
           sent := x.sent + [Flight(OrderedPacket(x.lane, m), Some(m.number), x.lane.recv, x.hist)])
    case SendOther(p) =>
      if !p.AckOnly() && p.lane == LANE_ORDERED then x
      else
        x.(lane := x.lane.(packetsSent := x.lane.packetsSent + 1),
           sent := x.sent + [Flight(Stamped(x.lane, p), None, x.lane.recv, x.hist)])
    case Deliver(n, now, elsewhere) =>
      if n >= |y.sent| then x
      else
        var p := y.sent[n].packet;
        var (l, out) := Receive(x.lane, p, now, elsewhere);
        var admitted := PassesAcks(x.lane, p, now, elsewhere) && !p.AckOnly();
        x.(lane := l, delivered := x.delivered + out, hist := if admitted then Record(x.hist, n) else x.hist)
  }

  /** The numbers this delivery compares are less than half the range apart: packet and message
      number with the receiver's own ... */
  ghost predicate PacketInRange(x: Side, f: Flight, n: nat)
  {
    && (x.lane.recv.init ==> Comparable(n, x.hist.newest))
    && (f.number.Some? ==> Comparable(f.number.value, |x.delivered|))
  }

  /** ... and the stamp with the packets it may acknowledge. */
  ghost predicate AckInRange(x: Side, f: Flight)
  {
    f.window.init ==>
      forall m :: m in x.lane.queue && m.inFlight ==> Comparable(m.lastPacket, f.stamp.newest)
  }

  /** The stamp was made by a window that had seen something, or no message waits for packet 0. */
  predicate StampMeansSomething(x: Side, f: Flight)
  {
    f.window.init || forall m :: m in x.lane.queue && m.inFlight ==> Wrap(m.lastPacket) != 0
  }

  ghost predicate Allowed(x: Side, y: Side, act: Action)
  {
    act.Deliver? && act.index < |y.sent| ==>
      && PacketInRange(x, y.sent[act.index], act.index)
      && AckInRange(x, y.sent[act.index])
      && StampMeansSomething(x, y.sent[act.index])
  }

  // ---- the invariant, for the direction from x to y ----

  ghost predicate SendsWhatItNumbered(x: Side)
  {
    && x.lane.packetsSent == |x.sent|
    && x.lane.numbered == |x.log|
    && (forall n :: 0 <= n < |x.sent| ==> FlightOk(x.sent[n], n, x.log))
    && (forall m :: m in x.lane.queue ==> MessageOk(m, x.sent, x.log))
  }

  ghost predicate FlightOk(f: Flight, n: nat, log: Log)
  {
    && f.packet.packetSeq == Wrap(n)
    && (f.number.None? <==> f.packet.AckOnly() || f.packet.lane != LANE_ORDERED)
    && (f.number.Some? ==>
          && f.number.value < |log|
          && f.packet.orderedSeq == Wrap(f.number.value)
          && log[f.number.value] == Some(f.packet.payload))
  }

  ghost predicate MessageOk(m: Message, sent: seq<Flight>, log: Log)
  {
    && m.number < |log|
    && log[m.number] == Some(m.payload)
    && (m.inFlight ==> m.lastPacket < |sent| && sent[m.lastPacket].number == Some(m.number))
  }

  /** Every stamp y put on a packet was true of what y had accepted by then. */
  ghost predicate StampsHonestly(y: Side)
  {
    forall n :: 0 <= n < |y.sent| ==> StampOk(y.sent[n], y.hist)
  }

  ghost predicate StampOk(f: Flight, h: History)
  {
    && Tracks(f.window, f.stamp)
    && f.packet.ackSeq == f.window.latest
    && f.packet.ackMask == f.window.mask
    && f.stamp.accepted <= h.accepted
  }

  /** y delivered message k or holds it. */
  predicate Has(y: Side, k: nat)
  {
    k < |y.delivered| || Held(y.lane.ordered, |y.delivered|, k)
  }

  ghost predicate ReceivesFaithfully(x: Side, y: Side)
  {
    && Tracks(y.lane.recv, y.hist)
    && Continues(y.delivered, 0, x.log)
    && Faithful(y.lane.ordered, |y.delivered|, x.log, 1)
    && (y.hist.accepted == {} ==> y.delivered == [] && y.lane.ordered.pending == map[])
    && (forall n :: n in y.hist.accepted ==>
          n < |x.sent| && (x.sent[n].number.Some? ==> Has(y, x.sent[n].number.value)))
  }

  predicate Queued(x: Side, k: nat)
  {
    exists m :: m in x.lane.queue && m.number == k
  }

  /** No accepted message is anywhere but queued at x, delivered by y or held by y. */
  ghost predicate Conserved(x: Side, y: Side)
  {
    forall k: nat :: k < |x.log| && x.log[k].Some? ==> Queued(x, k) || Has(y, k)
  }

  ghost predicate Direction(x: Side, y: Side)
  {
    SendsWhatItNumbered(x) && StampsHonestly(y) && ReceivesFaithfully(x, y) && Conserved(x, y)
  }

  ghost predicate Inv(s: System) { Direction(s.a, s.b) && Direction(s.b, s.a) }

  // ---- every action keeps both directions ----

  /** Growing what x sent and numbered disturbs nothing that y received. */
  lemma GrowingSender(x: Side, y: Side, x': Side)
    requires Direction(x, y)
    requires |x.sent| <= |x'.sent| && x'.sent[..|x.sent|] == x.sent
    requires |x.log| <= |x'.log| && x'.log[..|x.log|] == x.log
    ensures ReceivesFaithfully(x', y)
  {
    assert forall i :: 0 <= i < |x.log| ==> x'.log[i] == x'.log[..|x.log|][i] == x.log[i];
    assert forall i :: 0 <= i < |x.sent| ==> x'.sent[i] == x'.sent[..|x.sent|][i] == x.sent[i];
  }

  lemma SubmitKeeps(x: Side, y: Side, act: Action)
    requires act.Submit? && Direction(x, y)
    ensures Direction(Act(x, y, act), y)
  {
    var x' := Act(x, y, act);
    if x' != x {
      GrowingSender(x, y, x');
      var k := |x.log|;
      forall n | 0 <= n < |x'.sent| ensures FlightOk(x'.sent[n], n, x'.log) { assert FlightOk(x.sent[n], n, x.log); }
      forall m | m in x'.lane.queue ensures MessageOk(m, x'.sent, x'.log) {
        if m in x.lane.queue { assert MessageOk(m, x.sent, x.log); }
      }
      forall j: nat | j < |x'.log| && x'.log[j].Some?
        ensures Queued(x', j) || Has(y, j)
      {
        if j < k {
          if Queued(x, j) {
            var m :| m in x.lane.queue && m.number == j;
            assert m in x'.lane.queue;
          }
        } else {
          assert x'.lane.queue[|x.lane.queue|].number == j;
        }
      }
    }
  }

  /** A packet appended by x: both directions keep what does not concern its queue. */
  lemma SendKeeps(x: Side, y: Side, act: Action)
    requires (act.SendOrdered? || act.SendOther?) && Direction(x, y)
    ensures Direction(Act(x, y, act), y)
  {
    var x' := Act(x, y, act);
    if x' != x {
      GrowingSender(x, y, x');
      forall n | 0 <= n < |x'.sent| ensures FlightOk(x'.sent[n], n, x'.log) {
        if n < |x.sent| {
          assert FlightOk(x.sent[n], n, x.log);
        } else if act.SendOrdered? {
          var c := NextToSend(x.lane.queue, act.now, act.allowResend);
          assert MessageOk(x.lane.queue[c.index], x.sent, x.log);
        }
      }
      forall m | m in x'.lane.queue ensures MessageOk(m, x'.sent, x'.log) {
        if m in x.lane.queue { assert MessageOk(m, x.sent, x.log); }
        else {
          var c := NextToSend(x.lane.queue, act.now, act.allowResend);
          assert MessageOk(x.lane.queue[c.index], x.sent, x.log);
        }
      }
      forall j: nat | j < |x'.log| && x'.log[j].Some?
        ensures Queued(x', j) || Has(y, j)
      {
        if Queued(x, j) {
          var i :| 0 <= i < |x.lane.queue| && x.lane.queue[i].number == j;
          assert x'.lane.queue[i].number == j;
        }
      }
    }
  }

  /** Submitting or sending by y leaves what comes from x alone. */
  lemma PeerSendKeeps(x: Side, y: Side, act: Action)
    requires !act.Deliver? && Direction(x, y)
    ensures Direction(x, Act(y, x, act))
  {
    var y' := Act(y, x, act);
    forall n | 0 <= n < |y'.sent| ensures StampOk(y'.sent[n], y'.hist) {
      if n < |y.sent| { assert StampOk(y.sent[n], y.hist); }
    }
    assert forall k: nat :: Has(y', k) == Has(y, k);
  }

  /** A message leaves the queue only when the peer accepted a packet carrying it. */
  lemma DeliveredMeansAccepted(x: Side, y: Side, n: nat, m: Message)
    requires Direction(x, y) && n < |y.sent| && m in x.lane.queue
    requires AckInRange(x, y.sent[n]) && StampMeansSomething(x, y.sent[n])
    requires Status(m, y.sent[n].packet.ackSeq, y.sent[n].packet.ackMask) == Delivered
    ensures Has(y, m.number)
  {
    var f := y.sent[n];
    assert StampOk(f, y.hist) && MessageOk(m, x.sent, x.log);
    if f.window.init {
      StampIsExact(f.window, f.stamp, m.lastPacket);
    } else {
      FreshStampAcknowledgesZero(Wrap(m.lastPacket));
    }
  }

  lemma PrunedMessagesOk(x: Side, q': seq<Message>, ackSeq: uint16, ackMask: Mask, now: Time)
    requires SendsWhatItNumbered(x) && q' == Prune(x.lane.queue, ackSeq, ackMask, now).0
    ensures forall m :: m in q' ==> MessageOk(m, x.sent, x.log)
  {
    var q := x.lane.queue;
    forall m | m in q' ensures MessageOk(m, x.sent, x.log) {
      var i := PruneOrigin(q, ackSeq, ackMask, now, m);
      assert MessageOk(q[i], x.sent, x.log);
    }
  }

  lemma PrunedStillConserved(x: Side, y: Side, n: nat, now: Time, x': Side)
    requires Direction(x, y) && n < |y.sent| && AckInRange(x, y.sent[n]) && StampMeansSomething(x, y.sent[n])
    requires x'.log == x.log
    requires x'.lane.queue == Prune(x.lane.queue, y.sent[n].packet.ackSeq, y.sent[n].packet.ackMask, now).0
    ensures Conserved(x', y)
  {
    var f, q := y.sent[n], x.lane.queue;
    forall j: nat | j < |x'.log| && x'.log[j].Some?
      ensures Queued(x', j) || Has(y, j)
    {
      if Queued(x, j) {
        var i :| 0 <= i < |q| && q[i].number == j;
        if Status(q[i], f.packet.ackSeq, f.packet.ackMask) == Delivered {
          DeliveredMeansAccepted(x, y, n, q[i]);
        } else {
          var m := PruneKeeps(q, f.packet.ackSeq, f.packet.ackMask, now, i);
          assert m.number == j;
        }
      }
    }
  }

  /** Receiving an ACK stamp keeps the direction whose queue it prunes. */
  lemma AckKeeps(x: Side, y: Side, act: Action)
    requires act.Deliver? && act.index < |y.sent| && Direction(x, y)
    requires AckInRange(x, y.sent[act.index]) && StampMeansSomething(x, y.sent[act.index])
    ensures Direction(Act(x, y, act), y)
  {
    var x' := Act(x, y, act);
    var p := y.sent[act.index].packet;
    PrunedMessagesOk(x, x'.lane.queue, p.ackSeq, p.ackMask, act.now);
    PrunedStillConserved(x, y, act.index, act.now, x');
    GrowingSender(x, y, x');
  }

  /** Receiving a packet keeps the direction it travels in: from y to x. */
  lemma PacketKeeps(x: Side, y: Side, act: Action)
    requires act.Deliver? && act.index < |y.sent| && Direction(y, x) && Allowed(x, y, act)
    ensures Direction(y, Act(x, y, act))
  {
    var x' := Act(x, y, act);
    var n := act.index;
    var f := y.sent[n];
    assert FlightOk(f, n, y.log);
    ReceiveStep(x, y, n, act.now, act.stalledElsewhere);
    forall i | 0 <= i < |x'.sent| ensures StampOk(x'.sent[i], x'.hist) { assert StampOk(x.sent[i], x.hist); }
    forall k: nat | k < |y.log| && y.log[k].Some?
      ensures Queued(y, k) || Has(x', k)
    {
      assert Queued(y, k) || Has(x, k);
    }
  }

  lemma ReceiveStep(x: Side, y: Side, n: nat, now: Time, elsewhere: bool)
    requires ReceivesFaithfully(y, x) && n < |y.sent| && FlightOk(y.sent[n], n, y.log)
    requires PacketInRange(x, y.sent[n], n)
    ensures var x' := Act(x, y, Deliver(n, now, elsewhere));
            && ReceivesFaithfully(y, x')
            && (forall k: nat :: Has(x, k) ==> Has(x', k))
            && x.hist.accepted <= x'.hist.accepted
  {
    var f := y.sent[n];
    var x' := Act(x, y, Deliver(n, now, elsewhere));
    if PassesAcks(x.lane, f.packet, now, elsewhere) && !f.packet.AckOnly() {
      AcceptIsExact(x.lane.recv, x.hist, n);
      if f.number.Some? && Fresh(x.hist, n) {
        AdmittedMessage(x, y, n, now, x');
      } else {
        assert x'.delivered == x.delivered && x'.lane.ordered == x.lane.ordered;
        assert forall k: nat :: Has(x', k) == Has(x, k);
      }
    }
  }

  lemma AdmittedMessage(x: Side, y: Side, n: nat, now: Time, x': Side)
    requires ReceivesFaithfully(y, x) && n < |y.sent| && FlightOk(y.sent[n], n, y.log)
    requires y.sent[n].number.Some? && Comparable(y.sent[n].number.value, |x.delivered|)
    requires var (o, out) := AcceptOrdered(x.lane.ordered, y.sent[n].packet.orderedSeq, y.sent[n].packet.payload, now);
             x'.lane.ordered == o && x'.delivered == x.delivered + out
    requires Tracks(x'.lane.recv, x'.hist) && x'.hist.accepted == x.hist.accepted + {n}
    ensures ReceivesFaithfully(y, x')
    ensures forall k: nat :: Has(x, k) ==> Has(x', k)
  {
    var f := y.sent[n];
    AcceptOrderedIsFaithful(x.lane.ordered, |x.delivered|, y.log, f.number.value, f.packet.payload, now);
    var (o, out) := AcceptOrdered(x.lane.ordered, f.packet.orderedSeq, f.packet.payload, now);
    AppendDelivered(x.delivered, out, y.log);
    HasMore(x, y, f.number.value, out, x');
    AcceptedIsHad(x, y, n, x');
  }

  /** After receiving message k, the receiver has k and all it had. */
  lemma HasMore(x: Side, y: Side, k: nat, out: seq<bytes>, x': Side)
    requires Received(x.lane.ordered, |x.delivered|, y.log, k, x'.lane.ordered, out) && x'.delivered == x.delivered + out
    ensures Has(x', k) && forall j: nat :: Has(x, j) ==> Has(x', j)
  {
    forall j: nat | Has(x, j) ensures Has(x', j) {}
  }

  /** The messages of all accepted packets are had. */
  lemma AcceptedIsHad(x: Side, y: Side, n: nat, x': Side)
    requires n < |y.sent| && y.sent[n].number.Some? && Has(x', y.sent[n].number.value)
    requires x'.hist.accepted == x.hist.accepted + {n} && forall j: nat :: Has(x, j) ==> Has(x', j)
    requires forall i :: i in x.hist.accepted ==> i < |y.sent| && (y.sent[i].number.Some? ==> Has(x, y.sent[i].number.value))
    ensures forall i :: i in x'.hist.accepted ==> i < |y.sent| && (y.sent[i].number.Some? ==> Has(x', y.sent[i].number.value))
  {
  }

  lemma AppendDelivered(done: seq<bytes>, out: seq<bytes>, log: Log)
    requires Continues(done, 0, log) && Continues(out, |done|, log)
    ensures Continues(done + out, 0, log)
  {
    forall i | 0 <= i < |done + out|
      ensures log[0 + i] == Some((done + out)[i])
    {
      if i < |done| { assert log[0 + i] == Some(done[i]); }
      else { assert log[|done| + (i - |done|)] == Some(out[i - |done|]); }
    }
  }

  lemma ActKeeps(x: Side, y: Side, act: Action)
    requires Direction(x, y) && Direction(y, x) && Allowed(x, y, act)
    ensures Direction(Act(x, y, act), y) && Direction(y, Act(x, y, act))
  {
    match act {
      case Submit(_, _) =>
        SubmitKeeps(x, y, act);
        PeerSendKeeps(y, x, act);
      case SendOrdered(_, _) =>
        SendKeeps(x, y, act);
        PeerSendKeeps(y, x, act);
      case SendOther(_) =>
        SendKeeps(x, y, act);
        PeerSendKeeps(y, x, act);
      case Deliver(n, _, _) =>
        if n < |y.sent| {
          AckKeeps(x, y, act);
          PacketKeeps(x, y, act);
        }
    }
  }

  // ---- whole runs ----

  datatype Step = Step(byA: bool, act: Action)

  function Next(s: System, st: Step): System
  {
    if st.byA then s.(a := Act(s.a, s.b, st.act)) else s.(b := Act(s.b, s.a, st.act))
  }

  function Run(s: System, steps: seq<Step>): System
    decreases steps
  {
    if steps == [] then s else Run(Next(s, steps[0]), steps[1..])
  }

  ghost predicate StepAllowed(s: System, st: Step)
  {
    if st.byA then Allowed(s.a, s.b, st.act) else Allowed(s.b, s.a, st.act)
  }

  /** Within the sequence-number range, and no ACK from a window that has seen nothing counts. */
  ghost predicate RunAllowed(s: System, steps: seq<Step>)
    decreases steps
  {
    steps == [] || (StepAllowed(s, steps[0]) && RunAllowed(Next(s, steps[0]), steps[1..]))
  }

  lemma {:induction false} RunKeepsInv(s: System, steps: seq<Step>)
    requires Inv(s) && RunAllowed(s, steps)
    ensures Inv(Run(s, steps))
    decreases steps
  {
    if steps != [] {
      var st := steps[0];
      if st.byA { ActKeeps(s.a, s.b, st.act); } else { ActKeeps(s.b, s.a, st.act); }
      RunKeepsInv(Next(s, st), steps[1..]);
    }
  }

  /** On any lossy, duplicating, reordering network: what either side delivered is exactly the other
      side's messages 0, 1, ..., n-1 in order, and every message that entered the queue is still
      queued, delivered, or held by the receiver. */
  lemma OrderedLaneIsReliable(steps: seq<Step>)
    requires RunAllowed(INIT, steps)
    ensures var s := Run(INIT, steps);
            && Continues(s.b.delivered, 0, s.a.log)
            && Continues(s.a.delivered, 0, s.b.log)
            && (forall k: nat :: k < |s.a.log| && s.a.log[k].Some? ==> Queued(s.a, k) || Has(s.b, k))
            && (forall k: nat :: k < |s.b.log| && s.b.log[k].Some? ==> Queued(s.b, k) || Has(s.a, k))
  {
    assert Inv(INIT);
    RunKeepsInv(INIT, steps);
  }

  lemma DeliveredWasQueued(delivered: seq<bytes>, log: Log, k: nat)
    requires Continues(delivered, 0, log)
    ensures k < |delivered| ==> k < |log| && log[k].Some?
  {
    if k < |delivered| { assert log[0 + k] == Some(delivered[k]); }
  }
}
