/** The eventual-state lane of one endpoint: queued tokens, tokens in flight by packet number,
    feedback and the cached earliest deadline (golem/net/datagram_sender.go). */
module EventualLane {
  import opened Identifiers
  import opened SerialNumbers
  import opened AckMask
  import opened Datagrams
  import opened PacketWindow

  datatype Queued = Queued(token: uint64, payload: bytes, queuedAt: Time)
  datatype InFlight = InFlight(token: uint64, sentAt: Time)
  datatype Feedback = Feedback(token: uint64, delivered: bool)

  datatype State = State(
    queued: seq<Queued>,
    inFlight: map<uint16, InFlight>,
    expiry: Option<Time>,
    feedback: seq<Feedback>)

  function Deadline(p: InFlight): Time { p.sentAt + EVENTUAL_TTL }

  /** Some packet in flight has reached its deadline. */
  ghost predicate Overdue(inFlight: map<uint16, InFlight>, now: Time)
  {
    exists k :: k in inFlight && now >= Deadline(inFlight[k])
  }

  /** The cached deadline is never later than the true earliest one. */
  ghost predicate ExpirySound(inFlight: map<uint16, InFlight>, expiry: Option<Time>)
  {
    forall k :: k in inFlight ==> expiry.Some? && expiry.value <= Deadline(inFlight[k])
  }

  ghost predicate IsEarliest(inFlight: map<uint16, InFlight>, expiry: Option<Time>)
  {
    && ExpirySound(inFlight, expiry)
    && (expiry.Some? ==> exists k :: k in inFlight && expiry.value == Deadline(inFlight[k]))
  }

  // ---- one ACK stamp, in whatever order the map is walked ----

  function Report(p: InFlight, key: uint16, ackSeq: uint16, ackMask: Mask): Feedback
  {
    Feedback(p.token, PacketAckState(key, ackSeq, ackMask) == Delivered)
  }

  function Reports(inFlight: map<uint16, InFlight>, order: seq<uint16>, ackSeq: uint16, ackMask: Mask): (r: seq<Feedback>)
    requires forall i :: 0 <= i < |order| ==> order[i] in inFlight
    ensures |r| == |order|
  {
    seq(|order|, i requires 0 <= i < |order| => Report(inFlight[order[i]], order[i], ackSeq, ackMask))
  }

  /** A report tells what the peer's stamp says: delivered if the peer accepted the packet and still remembers it; of a
      settled packet anything else is a loss. */
  lemma ReportTellsTheTruth(p: InFlight, n: nat, w: Window, h: History)
    requires w.init && Tracks(w, h) && Comparable(n, h.newest)
    ensures PacketAckState(Wrap(n), w.latest, w.mask) == Pending <==> n > h.newest
    ensures var r := Report(p, Wrap(n), w.latest, w.mask);
            r.token == p.token && (r.delivered <==> n in h.accepted && n + ACK_WINDOW >= h.newest)
  {
    StampIsExact(w, h, n);
  }

  /** pruneEventualState: the keys in `order`, all of them settled by the stamp, left the map and
      were reported once each. Without a stall these are all the settled keys. */
  ghost predicate Acked(s: State, s': State, ackSeq: uint16, ackMask: Mask, now: Time,
                        order: seq<uint16>, stalled: bool)
  {
    && NoDup(order)
    && (forall i :: 0 <= i < |order| ==>
          order[i] in s.inFlight && PacketAckState(order[i], ackSeq, ackMask) != Pending)
    && s'.queued == s.queued
    && s'.inFlight == (map k | k in s.inFlight && k !in order :: s.inFlight[k])
    && s'.feedback == s.feedback + Reports(s.inFlight, order, ackSeq, ackMask)
    && (ExpirySound(s.inFlight, s.expiry) ==> ExpirySound(s'.inFlight, s'.expiry))
    && (!stalled ==>
          && (forall k :: k in s'.inFlight ==> PacketAckState(k, ackSeq, ackMask) == Pending)
          && (forall k :: k in s.inFlight ==> now - s.inFlight[k].sentAt <= EVENTUAL_TTL))
    && (stalled ==> exists k :: k in s.inFlight && now - s.inFlight[k].sentAt > EVENTUAL_TTL)
  }

  // ---- token conservation ----

  function QueuedTokens(s: State): set<uint64> { set q | q in s.queued :: q.token }
  function FlyingTokens(s: State): set<uint64> { set k | k in s.inFlight :: s.inFlight[k].token }
  function ReportedTokens(reported: seq<Feedback>): set<uint64> { set f | f in reported :: f.token }

  ghost predicate QueueDistinct(queued: seq<Queued>)
  {
    forall i, j :: 0 <= i < j < |queued| ==> queued[i].token != queued[j].token
  }

  ghost predicate FlightDistinct(inFlight: map<uint16, InFlight>)
  {
    forall j, k :: j in inFlight && k in inFlight && inFlight[j].token == inFlight[k].token ==> j == k
  }

  ghost predicate ReportedOnce(reported: seq<Feedback>)
  {
    forall i, j :: 0 <= i < j < |reported| ==> reported[i].token != reported[j].token
  }

  /** Every token enqueued is in exactly one of: the queue, the in-flight map, the reports; and there once. */
  ghost predicate Conserved(enqueued: set<uint64>, s: State, drained: seq<Feedback>)
  {
    var reported := drained + s.feedback;
    && QueueDistinct(s.queued) && FlightDistinct(s.inFlight) && ReportedOnce(reported)
    && QueuedTokens(s) !! FlyingTokens(s)
    && QueuedTokens(s) !! ReportedTokens(reported)
    && FlyingTokens(s) !! ReportedTokens(reported)
    && enqueued == QueuedTokens(s) + FlyingTokens(s) + ReportedTokens(reported)
  }

  /** enqueueEventualState of a new token. */
  lemma EnqueueConserves(enqueued: set<uint64>, s: State, drained: seq<Feedback>, q: Queued)
    requires Conserved(enqueued, s, drained) && q.token !in enqueued
    ensures Conserved(enqueued + {q.token}, s.(queued := s.queued + [q]), drained)
  {
    var s' := s.(queued := s.queued + [q]);
    assert QueuedTokens(s') == QueuedTokens(s) + {q.token} by {
      assert q in s'.queued;
      assert forall p :: p in s.queued ==> p in s'.queued;
    }
    forall i | 0 <= i < |s.queued| ensures s.queued[i].token != q.token {
      assert s.queued[i] in s.queued && s.queued[i].token in QueuedTokens(s);
    }
  }

  function Sent(s: State, key: uint16, now: Time): State
    requires s.queued != []
  {
    s.(queued := s.queued[1..], inFlight := s.inFlight[key := InFlight(s.queued[0].token, now)])
  }

  /** Sending under packet number `key` conserves tokens exactly when that number is not in flight. */
  lemma SendConserves(enqueued: set<uint64>, s: State, drained: seq<Feedback>, key: uint16, now: Time)
    requires Conserved(enqueued, s, drained) && s.queued != []
    ensures Conserved(enqueued, Sent(s, key, now), drained) <==> key !in s.inFlight
  {
    var s' := Sent(s, key, now);
    var t := s.queued[0].token;
    QueueHead(s);
    if key in s.inFlight {
      FlightOverwritten(s, key, now);
      var lost := s.inFlight[key].token;
      assert lost in FlyingTokens(s);
      assert lost !in QueuedTokens(s') && lost !in FlyingTokens(s');
    } else {
      FlightAdded(s, key, now);
    }
  }

  lemma QueueHead(s: State)
    requires s.queued != [] && QueueDistinct(s.queued)
    ensures var t, rest := s.queued[0].token, set q | q in s.queued[1..] :: q.token;
            t !in rest && QueuedTokens(s) == rest + {t} && QueueDistinct(s.queued[1..])
  {
    var t, rest := s.queued[0].token, set q | q in s.queued[1..] :: q.token;
    assert s.queued[0] in s.queued;
    assert s.queued == [s.queued[0]] + s.queued[1..];
    forall q | q in s.queued[1..] ensures q.token != t {
      var i :| 0 <= i < |s.queued[1..]| && s.queued[1..][i] == q;
      assert s.queued[i + 1] == q;
    }
  }

  lemma FlightAdded(s: State, key: uint16, now: Time)
    requires s.queued != [] && FlightDistinct(s.inFlight) && key !in s.inFlight
    requires s.queued[0].token !in FlyingTokens(s)
    ensures FlyingTokens(Sent(s, key, now)) == FlyingTokens(s) + {s.queued[0].token}
    ensures FlightDistinct(Sent(s, key, now).inFlight)
  {
    var s' := Sent(s, key, now);
    assert s'.inFlight[key].token == s.queued[0].token;
    forall k | k in s.inFlight ensures s'.inFlight[k] == s.inFlight[k] && s.inFlight[k].token in FlyingTokens(s) {}
    assert FlyingTokens(s') == FlyingTokens(s) + {s.queued[0].token};
  }

  lemma FlightOverwritten(s: State, key: uint16, now: Time)
    requires s.queued != [] && FlightDistinct(s.inFlight) && key in s.inFlight
    requires s.queued[0].token !in FlyingTokens(s)
    ensures s.inFlight[key].token !in FlyingTokens(Sent(s, key, now))
  {
    assert s.inFlight[key].token in FlyingTokens(s);
    forall k | k in s.inFlight && k != key ensures s.inFlight[k].token != s.inFlight[key].token {}
  }

  /** An ACK stamp moves each settled token from the in-flight map to one report. */
  lemma AckConserves(enqueued: set<uint64>, s: State, drained: seq<Feedback>, s': State,
                     ackSeq: uint16, ackMask: Mask, now: Time, order: seq<uint16>, stalled: bool)
    requires Conserved(enqueued, s, drained) && Acked(s, s', ackSeq, ackMask, now, order, stalled)
    ensures Conserved(enqueued, s', drained)
  {
    var moved := set k | k in order :: s.inFlight[k].token;
    var fresh_ := Reports(s.inFlight, order, ackSeq, ackMask);
    var before, after := drained + s.feedback, drained + s'.feedback;
    assert after == before + fresh_;
    FlyingSplit(s, s', order);
    ReportsOfOrder(s, order, ackSeq, ackMask);
    ReportedAppend(before, fresh_);
  }

  lemma FlyingSplit(s: State, s': State, order: seq<uint16>)
    requires FlightDistinct(s.inFlight) && forall i :: 0 <= i < |order| ==> order[i] in s.inFlight
    requires s'.inFlight == (map k | k in s.inFlight && k !in order :: s.inFlight[k])
    ensures var moved := set k | k in order :: s.inFlight[k].token;
            FlyingTokens(s) == FlyingTokens(s') + moved && FlyingTokens(s') !! moved && FlightDistinct(s'.inFlight)
  {
    var moved := set k | k in order :: s.inFlight[k].token;
    forall t | t in FlyingTokens(s) ensures t in FlyingTokens(s') || t in moved {
      var k :| k in s.inFlight && s.inFlight[k].token == t;
      if k !in order { assert s'.inFlight[k].token == t; }
    }
    forall t | t in FlyingTokens(s') ensures t in FlyingTokens(s) && t !in moved {
      var k :| k in s'.inFlight && s'.inFlight[k].token == t;
      assert s.inFlight[k].token == t;
    }
  }

  lemma ReportsOfOrder(s: State, order: seq<uint16>, ackSeq: uint16, ackMask: Mask)
    requires FlightDistinct(s.inFlight) && NoDup(order) && forall i :: 0 <= i < |order| ==> order[i] in s.inFlight
    ensures var r := Reports(s.inFlight, order, ackSeq, ackMask);
            ReportedOnce(r) && ReportedTokens(r) == set k | k in order :: s.inFlight[k].token
  {
    var r := Reports(s.inFlight, order, ackSeq, ackMask);
    forall k | k in order ensures s.inFlight[k].token in ReportedTokens(r) {
      var i :| 0 <= i < |order| && order[i] == k;
      assert r[i] in r && r[i].token == s.inFlight[k].token;
    }
    forall t | t in ReportedTokens(r) ensures exists k :: k in order && s.inFlight[k].token == t {
      var f :| f in r && f.token == t;
      var i :| 0 <= i < |r| && r[i] == f;
      assert order[i] in order && s.inFlight[order[i]].token == t;
    }
  }

  lemma ReportedAppend(r: seq<Feedback>, t: seq<Feedback>)
    requires ReportedOnce(r) && ReportedOnce(t) && ReportedTokens(r) !! ReportedTokens(t)
    ensures ReportedOnce(r + t) && ReportedTokens(r + t) == ReportedTokens(r) + ReportedTokens(t)
  {
    forall i, j | 0 <= i < j < |r + t| ensures (r + t)[i].token != (r + t)[j].token {
      if i < |r| <= j {
        assert r[i] in r && t[j - |r|] in t;
        assert r[i].token in ReportedTokens(r) && t[j - |r|].token in ReportedTokens(t);
      }
    }
  }

  // ---- whole runs ----

  datatype Act =
    | Enqueue(item: Queued)
    | Send(key: uint16, now: Time)
    | Ack(ackSeq: uint16, ackMask: Mask, now: Time, order: seq<uint16>, stalled: bool)
    | Drain

  /** Everything known about the lane: its state, what was enqueued, what feedback was handed out. */
  datatype Lane = Lane(state: State, enqueued: set<uint64>, drained: seq<Feedback>)

  const EMPTY_LANE := Lane(State([], map[], None, []), {}, [])

  ghost predicate Step(l: Lane, act: Act, l': Lane)
  {
    match act
    case Enqueue(q) =>
      q.token !in l.enqueued &&
      l' == l.(state := l.state.(queued := l.state.queued + [q]), enqueued := l.enqueued + {q.token})
    case Send(key, now) =>
      && l.state.queued != []
      && key !in l.state.inFlight
      && l'.state.(expiry := l.state.expiry) == Sent(l.state, key, now)
      && l'.enqueued == l.enqueued && l'.drained == l.drained
    case Ack(ackSeq, ackMask, now, order, stalled) =>
      && Acked(l.state, l'.state, ackSeq, ackMask, now, order, stalled)
      && l'.enqueued == l.enqueued && l'.drained == l.drained
    case Drain =>
      l' == l.(state := l.state.(feedback := []), drained := l.drained + l.state.feedback)
  }

  ghost predicate IsRun(lanes: seq<Lane>, acts: seq<Act>)
  {
    && |lanes| == |acts| + 1 && lanes[0] == EMPTY_LANE
    && forall i :: 0 <= i < |acts| ==> Step(lanes[i], acts[i], lanes[i + 1])
  }

  /** In every run that never reuses a packet number still in flight, every enqueued token is at every
      moment in exactly one of queued, in flight, or reported, and reported at most once. */
  lemma {:induction false} TokensAreConserved(lanes: seq<Lane>, acts: seq<Act>, n: nat)
    requires IsRun(lanes, acts) && n < |lanes|
    ensures Conserved(lanes[n].enqueued, lanes[n].state, lanes[n].drained)
    decreases n
  {
    if n > 0 {
      TokensAreConserved(lanes, acts, n - 1);
      var l, l' := lanes[n - 1], lanes[n];
      assert Step(l, acts[n - 1], l');
      match acts[n - 1] {
        case Enqueue(q) => EnqueueConserves(l.enqueued, l.state, l.drained, q);
        case Send(key, now) =>
          SendConserves(l.enqueued, l.state, l.drained, key, now);
          var sent := Sent(l.state, key, now);
          assert l'.state.queued == sent.queued && l'.state.inFlight == sent.inFlight;
        case Ack(ackSeq, ackMask, now, order, stalled) =>
          AckConserves(l.enqueued, l.state, l.drained, l'.state, ackSeq, ackMask, now, order, stalled);
        case Drain =>
          assert l.drained + l.state.feedback + [] == l.drained + l.state.feedback;
      }
    }
  }
}
