/** The reliable-ordered receive state: next expected number, held messages, gap timer
    (golem/net/datagram_receiver.go). */
module OrderedReceiver {
  import opened SerialNumbers
  import opened Datagrams

  datatype OrderedState = OrderedState(nextSeq: uint16, pending: map<uint16, bytes>, gapSince: Option<Time>)

  const START := OrderedState(0, map[], None)

  /** Delivers held messages for as long as the next expected one is held. */
  function Drain(o: OrderedState): (OrderedState, seq<bytes>)
    decreases |o.pending|
  {
    if o.nextSeq !in o.pending then (o, [])
    else
      var o1 := o.(nextSeq := Next16(o.nextSeq), pending := o.pending - {o.nextSeq});
      assert o1.pending.Keys == o.pending.Keys - {o.nextSeq};
      assert |o1.pending.Keys| < |o.pending.Keys|;
      var (o2, out) := Drain(o1);
      (o2, [o.pending[o.nextSeq]] + out)
  }

  /** orderedReceiveState.accept on values: the new state and the payloads handed to the application. */
  function AcceptOrdered(o: OrderedState, num: uint16, payload: bytes, now: Time): (OrderedState, seq<bytes>)
  {
    if num == o.nextSeq then
      var (o', out) := Drain(o.(nextSeq := Next16(o.nextSeq)));
      (if |o'.pending| == 0 then o'.(gapSince := None) else o', [payload] + out)
    else if SeqGreater(num, o.nextSeq) && num !in o.pending then
      (o.(pending := o.pending[num := payload],
          gapSince := if o.gapSince == None then Some(now) else o.gapSince), [])
    else (o, [])
  }

  predicate GapExpired(gapSince: Option<Time>, now: Time)
  {
    gapSince.Some? && now - gapSince.value > GAP_TIMEOUT
  }

  class Receiver {
    var nextSeq: uint16
    var pending: map<uint16, bytes>
    var gapSince: Option<Time>

    function View(): OrderedState
      reads this
    {
      OrderedState(nextSeq, pending, gapSince)
    }

    constructor ()
      ensures View() == START
    {
      nextSeq, pending, gapSince := 0, map[], None;
    }

    method Accept(num: uint16, payload: bytes, now: Time) returns (deliveries: seq<bytes>)
      modifies this
      ensures (View(), deliveries) == AcceptOrdered(old(View()), num, payload, now)
    {
      deliveries := [];
      if num == nextSeq {
        nextSeq := Next16(nextSeq);
        deliveries := DrainPending([payload]);
        if |pending| == 0 {
          gapSince := None;
        }
        return;
      }
      if SeqGreater(num, nextSeq) {
        if num !in pending {
          pending := pending[num := payload];
          if gapSince == None {
            gapSince := Some(now);
          }
        }
      }
    }

    /** The loop that delivers what was held back and is now in order. */
    method DrainPending(first: seq<bytes>) returns (deliveries: seq<bytes>)
      modifies this`nextSeq, this`pending
      ensures View() == Drain(old(View())).0 && deliveries == first + Drain(old(View())).1
    {
      deliveries := first;
      while nextSeq in pending
        invariant Drain(old(View())).0 == Drain(View()).0
        invariant first + Drain(old(View())).1 == deliveries + Drain(View()).1
        decreases |pending|
      {
        ghost var before := View();
        deliveries := deliveries + [pending[nextSeq]];
        pending := pending - {nextSeq};
        nextSeq := Next16(nextSeq);
        assert pending.Keys == before.pending.Keys - {before.nextSeq};
        assert |pending.Keys| < |before.pending.Keys|;
      }
      assert Drain(View()).1 == [];
      assert deliveries + [] == deliveries;
    }

    /** checkTimeout. */
    method CheckTimeout(now: Time) returns (expired: bool)
      ensures expired <==> gapSince.Some? && now - gapSince.value > GAP_TIMEOUT
    {
      expired := gapSince.Some? && now - gapSince.value > GAP_TIMEOUT;
    }
  }

  // ---- what the gap timeout measures ----

  datatype Arrival = Arrival(num: uint16, payload: bytes, now: Time)

  function ReceiveAll(arrivals: seq<Arrival>): OrderedState
  {
    if arrivals == [] then START
    else
      var last := arrivals[|arrivals| - 1];
      AcceptOrdered(ReceiveAll(arrivals[..|arrivals| - 1]), last.num, last.payload, last.now).0
  }

  /** Whether something is held back, before the first arrival and after each. */
  function Holding(arrivals: seq<Arrival>): (h: seq<bool>)
    ensures |h| == |arrivals| + 1 && (h[|arrivals|] <==> ReceiveAll(arrivals).pending != map[])
  {
    if arrivals == [] then [false]
    else Holding(arrivals[..|arrivals| - 1]) + [ReceiveAll(arrivals).pending != map[]]
  }

  /** Something has been held back ever since the arrival with index i. */
  ghost predicate HoldingSince(h: seq<bool>, i: nat) { i + 1 < |h| && forall n :: i < n < |h| ==> h[n] }

  ghost predicate InOrder(arrivals: seq<Arrival>)
  {
    forall i, j :: 0 <= i < j < |arrivals| ==> arrivals[i].now <= arrivals[j].now
  }

  /** The gap clock stands at the time of arrival `start`, from which on something has been held back without
      interruption; it is off if and only if nothing is held. */
  ghost predicate ClockAt(arrivals: seq<Arrival>, gapSince: Option<Time>, h: seq<bool>, start: nat)
    requires |h| == |arrivals| + 1
  {
    && (gapSince.None? <==> !h[|arrivals|])
    && (gapSince.Some? ==> HoldingSince(h, start) && !h[start] && gapSince == Some(arrivals[start].now))
  }

  lemma {:induction false} GapClock(arrivals: seq<Arrival>) returns (start: nat)
    ensures ClockAt(arrivals, ReceiveAll(arrivals).gapSince, Holding(arrivals), start)
    decreases |arrivals|
  {
    start := 0;
    if arrivals != [] {
      var p, last := arrivals[..|arrivals| - 1], arrivals[|arrivals| - 1];
      var before := GapClock(p);
      AcceptGap(ReceiveAll(p), last.num, last.payload, last.now);
      start := ClockStep(arrivals, ReceiveAll(p).gapSince, Holding(p), before, ReceiveAll(arrivals).pending != map[]);
    }
  }

  /** The clock after one more arrival, which leaves something held or not. */
  lemma ClockStep(arrivals: seq<Arrival>, gapSince: Option<Time>, h: seq<bool>, before: nat, holds: bool) returns (start: nat)
    requires arrivals != [] && |h| == |arrivals| && ClockAt(arrivals[..|arrivals| - 1], gapSince, h, before)
    ensures ClockAt(arrivals, if !holds then None else if gapSince.None? then Some(arrivals[|arrivals| - 1].now) else gapSince,
                    h + [holds], start)
  {
    start := if gapSince.None? then |arrivals| - 1 else before;
  }

  /** One arrival: the clock runs on while something is held, starts when something first is, and stops
      when nothing is. */
  lemma AcceptGap(o: OrderedState, num: uint16, payload: bytes, now: Time)
    requires o.gapSince.None? <==> o.pending == map[]
    ensures var o' := AcceptOrdered(o, num, payload, now).0;
            o'.gapSince == if o'.pending == map[] then None else if o.pending == map[] then Some(now) else o.gapSince
  {
    DrainKeepsGap(o.(nextSeq := Next16(o.nextSeq)));
    var o1 := Drain(o.(nextSeq := Next16(o.nextSeq))).0;
    assert o1.pending == map[] <==> |o1.pending| == 0;
    assert o.pending == map[] ==> o1.pending == map[];
    if SeqGreater(num, o.nextSeq) && num != o.nextSeq && num !in o.pending {
      assert num in o.pending[num := payload];
    }
  }

  lemma {:induction false} DrainKeepsGap(o: OrderedState)
    ensures Drain(o).0.gapSince == o.gapSince && (o.pending == map[] ==> Drain(o).0.pending == map[])
    decreases |o.pending|
  {
    if o.nextSeq in o.pending {
      var o1 := o.(nextSeq := Next16(o.nextSeq), pending := o.pending - {o.nextSeq});
      assert o1.pending.Keys == o.pending.Keys - {o.nextSeq};
      assert |o1.pending.Keys| < |o.pending.Keys|;
      DrainKeepsGap(o1);
    }
  }

  /** The gap check fails if and only if something has been held back without interruption for longer than
      the limit: not how long the message waited for now has been missing. */
  lemma TimeoutMeansHeld(arrivals: seq<Arrival>, now: Time)
    requires InOrder(arrivals)
    ensures GapExpired(ReceiveAll(arrivals).gapSince, now) <==>
            exists i: nat :: HoldingSince(Holding(arrivals), i) && now - arrivals[i].now > GAP_TIMEOUT
  {
    var start := GapClock(arrivals);
    ClockTells(arrivals, ReceiveAll(arrivals).gapSince, Holding(arrivals), start, now);
  }

  lemma ClockTells(arrivals: seq<Arrival>, gapSince: Option<Time>, h: seq<bool>, start: nat, now: Time)
    requires InOrder(arrivals) && |h| == |arrivals| + 1 && ClockAt(arrivals, gapSince, h, start)
    ensures GapExpired(gapSince, now) <==> exists i: nat :: HoldingSince(h, i) && now - arrivals[i].now > GAP_TIMEOUT
  {
    if i: nat :| HoldingSince(h, i) && now - arrivals[i].now > GAP_TIMEOUT {
      assert h[|arrivals|];
      assert start <= i;
    }
  }

  // ---- meaning in unbounded message numbers ----

  /** What the sender numbered, by number: the payload, or None where a number was used up
      without a message entering the queue. */
  type Log = seq<Option<bytes>>

  /** The unbounded number a held key stands for when `next` is expected. */
  function Number(next: nat, key: uint16): nat { next + SeqDistance(Wrap(next), key) }

  /** Message number k is held back for later delivery. */
  predicate Held(o: OrderedState, next: nat, k: nat)
  {
    next < k < next + HALF_RANGE && Wrap(k) in o.pending
  }

  /** Every held payload is the sender's message of the number its key stands for, and that number
      is still to come: at least `gap` past `next`. */
  ghost predicate Faithful(o: OrderedState, next: nat, log: Log, gap: nat)
  {
    && o.nextSeq == Wrap(next)
    && next <= |log|
    && forall key :: key in o.pending ==>
         && gap <= SeqDistance(Wrap(next), key) < HALF_RANGE
         && Number(next, key) < |log|
         && log[Number(next, key)] == Some(o.pending[key])
  }

  /** `out` is exactly the messages next, next+1, ... of the log. */
  ghost predicate Continues(out: seq<bytes>, next: nat, log: Log)
  {
    next + |out| <= |log| && forall i :: 0 <= i < |out| ==> log[next + i] == Some(out[i])
  }

  lemma KeyOfNumber(next: nat, k: nat)
    requires next <= k < next + SEQ_MOD
    ensures SeqDistance(Wrap(next), Wrap(k)) == k - next && Number(next, Wrap(k)) == k
  {
    DistanceIsExact(next, k);
  }

  lemma KeyShift(next: nat, key: uint16)
    requires key != Wrap(next)
    ensures SeqDistance(Wrap(next + 1), key) == SeqDistance(Wrap(next), key) - 1
    ensures Number(next + 1, key) == Number(next, key)
  {
  }

  lemma ContinuesCons(first: bytes, rest: seq<bytes>, next: nat, log: Log)
    requires next < |log| && log[next] == Some(first) && Continues(rest, next + 1, log)
    ensures Continues([first] + rest, next, log)
  {
    var out := [first] + rest;
    forall i | 0 <= i < |out|
      ensures log[next + i] == Some(out[i])
    {
      if i > 0 { assert log[next + 1 + (i - 1)] == Some(rest[i - 1]); }
    }
  }

  /** Moving on to the next number: what is held for later numbers stays faithful. */
  lemma MoveOn(o: OrderedState, next: nat, log: Log)
    requires Faithful(o, next, log, 0) && next < |log|
    ensures Faithful(o.(nextSeq := Next16(o.nextSeq), pending := o.pending - {o.nextSeq}), next + 1, log, 0)
  {
    WrapSuccessor(next);
    var o1 := o.(nextSeq := Next16(o.nextSeq), pending := o.pending - {o.nextSeq});
    forall key | key in o1.pending
      ensures 0 <= SeqDistance(Wrap(next + 1), key) < HALF_RANGE && Number(next + 1, key) == Number(next, key)
    {
      KeyShift(next, key);
    }
  }

  /** Held messages, the next expected one included. */
  predicate Waiting(o: OrderedState, next: nat, k: nat)
  {
    next <= k < next + HALF_RANGE && Wrap(k) in o.pending
  }

  lemma WaitingMovesOn(o: OrderedState, next: nat, k: nat)
    requires o.nextSeq == Wrap(next) && Waiting(o, next, k) && k != next
    ensures Waiting(o.(nextSeq := Next16(o.nextSeq), pending := o.pending - {o.nextSeq}), next + 1, k)
  {
    WrapInjective(k, next);
  }

  /** What the drain hands over is a run of consecutive messages; every other held one stays held. */
  ghost predicate Drained(o: OrderedState, next: nat, log: Log, o': OrderedState, out: seq<bytes>)
  {
    && Continues(out, next, log)
    && Faithful(o', next + |out|, log, 1)
    && (forall k: nat :: Waiting(o, next, k) ==> k < next + |out| || Held(o', next + |out|, k))
  }

  lemma {:induction false} DrainIsFaithful(o: OrderedState, next: nat, log: Log)
    requires Faithful(o, next, log, 0)
    ensures var (o', out) := Drain(o); Drained(o, next, log, o', out)
    decreases |o.pending|
  {
    if o.nextSeq in o.pending {
      var o1 := o.(nextSeq := Next16(o.nextSeq), pending := o.pending - {o.nextSeq});
      assert o1.pending.Keys == o.pending.Keys - {o.nextSeq};
      assert |o1.pending.Keys| < |o.pending.Keys|;
      KeyOfNumber(next, next);
      MoveOn(o, next, log);
      DrainIsFaithful(o1, next + 1, log);
      var (o', out1) := Drain(o1);
      DrainedOneMore(o, next, log, o', out1);
    } else {
      NothingToDrain(o, next, log);
    }
  }

  /** The expected message is held: it is delivered before whatever is delivered after it. */
  lemma DrainedOneMore(o: OrderedState, next: nat, log: Log, o': OrderedState, out: seq<bytes>)
    requires o.nextSeq == Wrap(next) && o.nextSeq in o.pending && next < |log| && log[next] == Some(o.pending[o.nextSeq])
    requires Drained(o.(nextSeq := Next16(o.nextSeq), pending := o.pending - {o.nextSeq}), next + 1, log, o', out)
    ensures Drained(o, next, log, o', [o.pending[o.nextSeq]] + out)
  {
    ContinuesCons(o.pending[o.nextSeq], out, next, log);
    assert next + |[o.pending[o.nextSeq]] + out| == next + 1 + |out|;
    forall k: nat | Waiting(o, next, k)
      ensures k < next + 1 + |out| || Held(o', next + 1 + |out|, k)
    {
      if k != next { WaitingMovesOn(o, next, k); }
    }
  }

  /** The expected message is not held: everything held is for later. */
  lemma NothingToDrain(o: OrderedState, next: nat, log: Log)
    requires Faithful(o, next, log, 0) && o.nextSeq !in o.pending
    ensures Drained(o, next, log, o, [])
  {
    KeyOfNumber(next, next);
  }

  /** What receiving message k must achieve: what is delivered continues the log without a gap,
      and k as well as everything held before is afterwards delivered or held. */
  ghost predicate Received(o: OrderedState, next: nat, log: Log, k: nat, o': OrderedState, out: seq<bytes>)
  {
    && Continues(out, next, log)
    && Faithful(o', next + |out|, log, 1)
    && (k < next + |out| || Held(o', next + |out|, k))
    && (forall j: nat :: Held(o, next, j) ==> j < next + |out| || Held(o', next + |out|, j))
  }

  lemma AcceptExpected(o: OrderedState, next: nat, log: Log, payload: bytes, now: Time)
    requires Faithful(o, next, log, 1) && next < |log| && log[next] == Some(payload)
    ensures var (o', out) := AcceptOrdered(o, o.nextSeq, payload, now); Received(o, next, log, next, o', out)
  {
    var (o2, out1) := Drain(o.(nextSeq := Next16(o.nextSeq)));
    DeliverAndDrain(o, next, log, payload, o2, out1);
  }

  /** The expected message is never among those held. */
  lemma MoveOnPast(o: OrderedState, next: nat, log: Log)
    requires Faithful(o, next, log, 1) && next < |log|
    ensures Faithful(o.(nextSeq := Next16(o.nextSeq)), next + 1, log, 0)
  {
    KeyOfNumber(next, next);
    assert o.pending - {o.nextSeq} == o.pending;
    MoveOn(o, next, log);
  }

  lemma DeliverAndDrain(o: OrderedState, next: nat, log: Log, payload: bytes, o2: OrderedState, out1: seq<bytes>)
    requires Faithful(o, next, log, 1) && next < |log| && log[next] == Some(payload)
    requires (o2, out1) == Drain(o.(nextSeq := Next16(o.nextSeq)))
    ensures Received(o, next, log, next, o2, [payload] + out1)
  {
    var o1 := o.(nextSeq := Next16(o.nextSeq));
    MoveOnPast(o, next, log);
    DrainIsFaithful(o1, next + 1, log);
    ContinuesCons(payload, out1, next, log);
    forall j: nat | Held(o, next, j)
      ensures Waiting(o1, next + 1, j)
    {
      WaitingMovesOn(o, next, j);
    }
    assert next + 1 + |out1| == next + |[payload] + out1|;
  }

  lemma AcceptEarly(o: OrderedState, next: nat, log: Log, k: nat, payload: bytes, now: Time)
    requires Faithful(o, next, log, 1)
    requires k < |log| && log[k] == Some(payload) && next < k < next + HALF_RANGE
    ensures var (o', out) := AcceptOrdered(o, Wrap(k), payload, now); Received(o, next, log, k, o', out)
  {
    ComparisonIsExact(k, next);
    KeyOfNumber(next, k);
  }

  /** Receiving message k in any order, any number of times, on any state reached so far. */
  lemma AcceptOrderedIsFaithful(o: OrderedState, next: nat, log: Log, k: nat, payload: bytes, now: Time)
    requires Faithful(o, next, log, 1)
    requires k < |log| && log[k] == Some(payload) && Comparable(k, next)
    ensures var (o', out) := AcceptOrdered(o, Wrap(k), payload, now); Received(o, next, log, k, o', out)
  {
    if k == next {
      AcceptExpected(o, next, log, payload, now);
    } else if k > next {
      AcceptEarly(o, next, log, k, payload, now);
    } else {
      WrapInjective(k, next);
      ComparisonIsExact(k, next);
    }
  }
}
