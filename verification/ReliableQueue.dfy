/** The sender's queue of reliable messages: enqueue, choice of the next packet, and pruning by a
    peer's ACK stamp (golem/net/datagram_sender.go). A message's own numbers are kept unbounded;
    they enter packets and comparisons only through Wrap, which is what the uint16 field holds. */
module ReliableQueue {
  import opened SerialNumbers
  import opened AckMask
  import opened Datagrams
  import opened PacketWindow

  datatype Message = Message(
    id: nat,          // behind messageID
    number: nat,      // behind orderedSeq
    payload: bytes,
    queuedAt: Time,
    nextSendAt: Time,
    lastPacket: nat,  // behind lastPacket
    attempts: nat,
    inFlight: bool)

  predicate Expired(m: Message, now: Time)
  {
    now - m.queuedAt > MESSAGE_TTL || m.attempts >= RETRY_LIMIT
  }

  // ---- retry back-off ----

  /** 75 ms doubled for every earlier attempt, capped at 400 ms. */
  function RetryDelay(attempt: int): Time
    decreases attempt
  {
    if attempt <= 1 then RETRY_BASE_DELAY
    else if 2 * RetryDelay(attempt - 1) >= RETRY_MAX_DELAY then RETRY_MAX_DELAY
    else 2 * RetryDelay(attempt - 1)
  }

  lemma {:induction false} RetryDelayBounds(attempt: int)
    ensures RETRY_BASE_DELAY <= RetryDelay(attempt) <= RETRY_MAX_DELAY
    ensures RetryDelay(attempt) <= RetryDelay(attempt + 1)
    ensures attempt >= 4 ==> RetryDelay(attempt) == RETRY_MAX_DELAY
    decreases attempt
  {
    if attempt > 1 {
      RetryDelayBounds(attempt - 1);
      if attempt == 4 { assert RetryDelay(2) == 150 && RetryDelay(3) == 300; }
    }
  }

  method ReliableRetryDelay(attempt: int) returns (delay: Time)
    ensures delay == RetryDelay(attempt)
  {
    delay := RETRY_BASE_DELAY;
    var i := 1;
    while i < attempt
      invariant 1 <= i && (i <= attempt || i == 1)
      invariant delay == RetryDelay(i) < RETRY_MAX_DELAY
    {
      delay := delay * 2;
      if delay >= RETRY_MAX_DELAY {
        CappedStaysCapped(i + 1, attempt);
        return RETRY_MAX_DELAY;
      }
      i := i + 1;
    }
    if delay > RETRY_MAX_DELAY {
      return RETRY_MAX_DELAY;
    }
  }

  lemma {:induction false} CappedStaysCapped(i: int, attempt: int)
    requires i <= attempt && RetryDelay(i) == RETRY_MAX_DELAY
    ensures RetryDelay(attempt) == RETRY_MAX_DELAY
    decreases attempt - i
  {
    if i < attempt {
      RetryDelayBounds(i);
      RetryDelayBounds(i + 1);
      CappedStaysCapped(i + 1, attempt);
    }
  }

  // ---- choosing the next packet ----

  datatype Choice = Idle | Stalled | Send(index: nat)

  predicate Waiting(m: Message, now: Time) { m.inFlight && now < m.nextSendAt }

  /** The first message that is due decides: stalled if expired, else sent unless it would be a
      resend and those are not allowed. */
  function NextToSend(q: seq<Message>, now: Time, allowResend: bool, from: nat := 0): (c: Choice)
    requires from <= |q|
    ensures c.Send? ==> from <= c.index < |q| && !Expired(q[c.index], now) && !Waiting(q[c.index], now)
    ensures c.Send? && !allowResend ==> !q[c.index].inFlight
    decreases |q| - from
  {
    if from == |q| then Idle
    else if Waiting(q[from], now) then NextToSend(q, now, allowResend, from + 1)
    else if Expired(q[from], now) then Stalled
    else if q[from].inFlight && !allowResend then NextToSend(q, now, allowResend, from + 1)
    else Send(from)
  }

  /** Nothing is to be done about a message that is in flight and waits for its retry time, or is in flight and
      alive while resends are not allowed. */
  predicate LeftAlone(m: Message, now: Time, allowResend: bool)
  {
    m.inFlight && (now < m.nextSendAt || (!allowResend && now - m.queuedAt <= MESSAGE_TTL && m.attempts < RETRY_LIMIT))
  }

  ghost predicate AllLeftAlone(q: seq<Message>, n: nat, now: Time, allowResend: bool)
    requires n <= |q|
  {
    forall i :: 0 <= i < n ==> LeftAlone(q[i], now, allowResend)
  }

  /** Message i is the first that is not left alone, and it has expired or not. */
  ghost predicate Decides(q: seq<Message>, i: nat, now: Time, allowResend: bool, expired: bool)
  {
    && i < |q| && AllLeftAlone(q, i, now, allowResend) && !LeftAlone(q[i], now, allowResend)
    && (expired <==> now - q[i].queuedAt > MESSAGE_TTL || q[i].attempts >= RETRY_LIMIT)
  }

  /** What a choice means: nothing is to be done, or the first message not left alone decides. */
  ghost predicate Chosen(q: seq<Message>, now: Time, allowResend: bool, c: Choice)
  {
    match c
    case Idle => AllLeftAlone(q, |q|, now, allowResend)
    case Send(i) => Decides(q, i, now, allowResend, false)
    case Stalled => exists i :: Decides(q, i, now, allowResend, true)
  }

  /** The choice is the one the queue calls for, and no other one is. */
  lemma {:induction false} ChoiceIsExact(q: seq<Message>, now: Time, allowResend: bool, c: Choice)
    ensures c == NextToSend(q, now, allowResend) <==> Chosen(q, now, allowResend, c)
  {
    ChoiceFrom(q, now, allowResend, 0);
    var d := NextToSend(q, now, allowResend);
    if Chosen(q, now, allowResend, c) { OneChoice(q, now, allowResend, c, d); }
  }

  lemma {:induction false} ChoiceFrom(q: seq<Message>, now: Time, allowResend: bool, from: nat)
    requires from <= |q| && AllLeftAlone(q, from, now, allowResend)
    ensures Chosen(q, now, allowResend, NextToSend(q, now, allowResend, from))
    decreases |q| - from
  {
    if from < |q| {
      if LeftAlone(q[from], now, allowResend) {
        ChoiceFrom(q, now, allowResend, from + 1);
      } else if NextToSend(q, now, allowResend, from).Stalled? {
        assert Decides(q, from, now, allowResend, true);
      }
    }
  }

  lemma OneChoice(q: seq<Message>, now: Time, allowResend: bool, c: Choice, d: Choice)
    requires Chosen(q, now, allowResend, c) && Chosen(q, now, allowResend, d)
    ensures c == d
  {
    if !c.Idle? && !d.Idle? {
      var i := if c.Send? then c.index else var i :| Decides(q, i, now, allowResend, true); i;
      var j := if d.Send? then d.index else var j :| Decides(q, j, now, allowResend, true); j;
      OneDecides(q, i, j, now, allowResend, c.Stalled?, d.Stalled?);
    }
  }

  lemma OneDecides(q: seq<Message>, i: nat, j: nat, now: Time, allowResend: bool, a: bool, b: bool)
    requires Decides(q, i, now, allowResend, a) && Decides(q, j, now, allowResend, b)
    ensures i == j && a == b
  {
    assert i < j || j < i || i == j;
  }

  /** The search loop of nextReliablePacketInto. */
  method ChooseNext(queue: seq<Message>, now: Time, allowResend: bool) returns (c: Choice)
    ensures c == NextToSend(queue, now, allowResend)
    ensures Chosen(queue, now, allowResend, c)
  {
    ChoiceIsExact(queue, now, allowResend, NextToSend(queue, now, allowResend));
    var i := 0;
    while i < |queue|
      invariant 0 <= i <= |queue|
      invariant NextToSend(queue, now, allowResend, i) == NextToSend(queue, now, allowResend)
    {
      var msg := queue[i];
      if !(msg.inFlight && now < msg.nextSendAt) {
        if now - msg.queuedAt > MESSAGE_TTL || msg.attempts >= RETRY_LIMIT {
          return Stalled;
        }
        if !msg.inFlight || allowResend {
          return Send(i);
        }
      }
      i := i + 1;
    }
    return Idle;
  }

  /** The bookkeeping of a send in packet `packet`. */
  function MarkSent(m: Message, packet: nat, now: Time): Message
  {
    m.(inFlight := true, lastPacket := packet, attempts := m.attempts + 1,
       nextSendAt := now + RetryDelay(m.attempts + 1))
  }

  /** A message that was sent is left alone for exactly its retry delay, and then sent again, or has expired. */
  lemma SentMessageWaits(m: Message, packet: nat, now: Time, t: Time)
    ensures var sent := MarkSent(m, packet, now);
            && (LeftAlone(sent, t, true) <==> t < now + RetryDelay(m.attempts + 1))
            && sent.attempts == m.attempts + 1 && sent.lastPacket == packet
            && sent == m.(inFlight := true, lastPacket := packet, attempts := sent.attempts, nextSendAt := sent.nextSendAt)
  {
  }

  /** A message found lost is no longer left alone, whenever the next packet goes out. */
  lemma LostMessageIsFree(m: Message, now: Time, t: Time, allowResend: bool)
    ensures var lost := MarkLost(m, now);
            !LeftAlone(lost, t, allowResend) && lost == m.(inFlight := false, nextSendAt := lost.nextSendAt)
  {
  }

  /** The delays, one after the other. */
  lemma RetryDelays()
    ensures RetryDelay(1) == 75 && RetryDelay(2) == 150 && RetryDelay(3) == 300 && RetryDelay(4) == 400
  {
    assert RetryDelay(2) == 2 * RetryDelay(1) && RetryDelay(3) == 2 * RetryDelay(2);
  }

  // ---- pruning ----

  /** A message marked lost becomes eligible again at once. */
  function MarkLost(m: Message, now: Time): Message
  {
    m.(inFlight := false, nextSendAt := if m.nextSendAt < now then now else m.nextSendAt)
  }

  function Status(m: Message, ackSeq: uint16, ackMask: Mask): AckStatus
  {
    if m.inFlight then PacketAckState(Wrap(m.lastPacket), ackSeq, ackMask) else Pending
  }

  /** What pruning makes of one message: nothing when it was delivered. */
  function Survivors(m: Message, ackSeq: uint16, ackMask: Mask, now: Time): seq<Message>
  {
    match Status(m, ackSeq, ackMask)
    case Delivered => []
    case Lost => [MarkLost(m, now)]
    case Pending => [m]
  }

  function Kept(q: seq<Message>, ackSeq: uint16, ackMask: Mask, now: Time): (r: seq<Message>)
    ensures |r| <= |q|
  {
    if q == [] then []
    else Kept(q[..|q| - 1], ackSeq, ackMask, now) + Survivors(q[|q| - 1], ackSeq, ackMask, now)
  }

  /** Lost messages are updated in place. */
  function Marked(m: Message, ackSeq: uint16, ackMask: Mask, now: Time): Message
  {
    if Status(m, ackSeq, ackMask) == Lost then MarkLost(m, now) else m
  }

  function FirstExpired(q: seq<Message>, now: Time, from: nat := 0): (k: nat)
    requires from <= |q|
    ensures from <= k <= |q|
    ensures forall i :: from <= i < k ==> !Expired(q[i], now)
    ensures k < |q| ==> Expired(q[k], now)
    decreases |q| - from
  {
    if from == |q| || Expired(q[from], now) then from else FirstExpired(q, now, from + 1)
  }

  function MarkedPrefix(q: seq<Message>, k: nat, ackSeq: uint16, ackMask: Mask, now: Time): (r: seq<Message>)
    requires k <= |q|
    ensures |r| == |q|
  {
    seq(|q|, i requires 0 <= i < |q| => if i < k then Marked(q[i], ackSeq, ackMask, now) else q[i])
  }

  /** The queue and whether delivery stalled. The filter works in place, so on a stall at index k
      the slots behind the survivors keep what they held. */
  function Prune(q: seq<Message>, ackSeq: uint16, ackMask: Mask, now: Time): (r: (seq<Message>, bool))
  {
    var k := FirstExpired(q, now);
    var kept := Kept(q[..k], ackSeq, ackMask, now);
    if k == |q| then (kept, false)
    else (kept + MarkedPrefix(q, k, ackSeq, ackMask, now)[|kept|..], true)
  }

  /** The switch on one in-flight message's status. */
  method Judge(m: Message, ackSeq: uint16, ackMask: Mask, now: Time)
    returns (msg: Message, delivered: bool, changed: bool)
    ensures msg == Marked(m, ackSeq, ackMask, now)
    ensures delivered <==> Status(m, ackSeq, ackMask) == Delivered
    ensures changed <==> Status(m, ackSeq, ackMask) != Pending
  {
    msg, delivered, changed := m, false, false;
    if !msg.inFlight {
      return;
    }
    match PacketAckState(Wrap(msg.lastPacket), ackSeq, ackMask) {
      case Delivered =>
        delivered, changed := true, true;
      case Lost =>
        msg := msg.(inFlight := false);
        if msg.nextSendAt < now {
          msg := msg.(nextSendAt := now);
        }
        changed := true;
      case Pending =>
    }
  }

  method PruneReliableQueue(queue: seq<Message>, ackSeq: uint16, ackMask: Mask, now: Time)
    returns (r: seq<Message>, changed: bool, stalled: bool)
    ensures (r, stalled) == Prune(queue, ackSeq, ackMask, now)
    ensures changed <==> stalled || Touches(queue, ackSeq, ackMask)
  {
    r, changed, stalled := queue, false, false;
    var d, i := 0, 0;
    while i < |queue|
      invariant 0 <= d <= i <= |queue| == |r|
      invariant PrunedUpTo(queue, ackSeq, ackMask, now, r, d, i)
      invariant changed <==> Touches(queue[..i], ackSeq, ackMask)
      invariant !stalled
    {
      PrunedNext(queue, ackSeq, ackMask, now, r, d, i);
      if now - r[i].queuedAt > MESSAGE_TTL || r[i].attempts >= RETRY_LIMIT {
        PrunedIsPrune(queue, ackSeq, ackMask, now, r, d, i);
        changed, stalled := true, true;
        return;
      }
      var touched;
      r, d, touched := PruneTurn(queue, ackSeq, ackMask, now, r, d, i);
      TouchesOneMore(queue, ackSeq, ackMask, i);
      changed := changed || touched;
      i := i + 1;
    }
    PrunedIsPrune(queue, ackSeq, ackMask, now, r, d, i);
    assert queue[..i] == queue;
    r := r[..d];
  }

  /** One turn of the filter loop, in place. */
  method PruneTurn(ghost queue: seq<Message>, ackSeq: uint16, ackMask: Mask, now: Time, r: seq<Message>, d: nat, i: nat)
    returns (r': seq<Message>, d': nat, touched: bool)
    requires PrunedUpTo(queue, ackSeq, ackMask, now, r, d, i) && i < |queue| && r[i] == queue[i] && !Expired(queue[i], now)
    ensures PrunedUpTo(queue, ackSeq, ackMask, now, r', d', i + 1)
    ensures touched <==> Status(queue[i], ackSeq, ackMask) != Pending
  {
    var msg, delivered;
    msg, delivered, touched := Judge(r[i], ackSeq, ackMask, now);
    r', d' := r[i := msg], d;
    if !delivered {
      r' := r'[d := msg];
      d' := d + 1;
    }
    PruneStep(queue, ackSeq, ackMask, now, r, d, i, r');
  }

  /** The stamp settles some message of the queue. */
  ghost predicate Touches(q: seq<Message>, ackSeq: uint16, ackMask: Mask)
  {
    exists i :: 0 <= i < |q| && Status(q[i], ackSeq, ackMask) != Pending
  }

  lemma TouchesOneMore(q: seq<Message>, ackSeq: uint16, ackMask: Mask, i: nat)
    requires i < |q|
    ensures Touches(q[..i + 1], ackSeq, ackMask) <==>
            Touches(q[..i], ackSeq, ackMask) || Status(q[i], ackSeq, ackMask) != Pending
  {
    var p := q[..i + 1];
    assert p[i] == q[i];
    if Touches(q[..i], ackSeq, ackMask) {
      var j :| 0 <= j < i && Status(q[..i][j], ackSeq, ackMask) != Pending;
      assert p[j] == q[..i][j];
    }
    if Touches(p, ackSeq, ackMask) {
      var j :| 0 <= j < |p| && Status(p[j], ackSeq, ackMask) != Pending;
      if j < i { assert q[..i][j] == p[j]; }
    }
  }

  lemma PrunedNext(q: seq<Message>, ackSeq: uint16, ackMask: Mask, now: Time,
                   r: seq<Message>, d: nat, i: nat)
    requires PrunedUpTo(q, ackSeq, ackMask, now, r, d, i) && i < |q|
    ensures r[i] == q[i]
  {
    assert r[i] == r[d..][i - d];
  }

  lemma PrunedIsPrune(q: seq<Message>, ackSeq: uint16, ackMask: Mask, now: Time,
                      r: seq<Message>, d: nat, i: nat)
    requires PrunedUpTo(q, ackSeq, ackMask, now, r, d, i)
    requires i < |q| ==> Expired(q[i], now)
    ensures Prune(q, ackSeq, ackMask, now) == if i == |q| then (r[..d], false) else (r, true)
  {
    FirstExpiredIs(q, now, i, 0);
    assert r == r[..d] + r[d..];
  }

  /** The in-place filter after i messages, with d survivors written. */
  ghost predicate PrunedUpTo(q: seq<Message>, ackSeq: uint16, ackMask: Mask, now: Time,
                             r: seq<Message>, d: nat, i: nat)
  {
    && d <= i <= |q| == |r|
    && (forall j :: 0 <= j < i ==> !Expired(q[j], now))
    && r[..d] == Kept(q[..i], ackSeq, ackMask, now)
    && r[d..] == MarkedPrefix(q, i, ackSeq, ackMask, now)[d..]
  }

  lemma PruneStep(q: seq<Message>, ackSeq: uint16, ackMask: Mask, now: Time,
                  r: seq<Message>, d: nat, i: nat, r': seq<Message>)
    requires PrunedUpTo(q, ackSeq, ackMask, now, r, d, i) && i < |q| && !Expired(q[i], now)
    requires var msg := Marked(q[i], ackSeq, ackMask, now);
             r' == if Status(q[i], ackSeq, ackMask) == Delivered then r[i := msg] else r[i := msg][d := msg]
    ensures PrunedUpTo(q, ackSeq, ackMask, now, r',
                       if Status(q[i], ackSeq, ackMask) == Delivered then d else d + 1, i + 1)
  {
    var d' := if Status(q[i], ackSeq, ackMask) == Delivered then d else d + 1;
    assert q[..i + 1][..i] == q[..i];
    assert r'[..d'] == r[..d] + Survivors(q[i], ackSeq, ackMask, now);
    forall j | d' <= j < |q|
      ensures r'[j] == MarkedPrefix(q, i + 1, ackSeq, ackMask, now)[j]
    {
      assert r[j] == r[d..][j - d] == MarkedPrefix(q, i, ackSeq, ackMask, now)[j];
    }
    assert r'[d'..] == MarkedPrefix(q, i + 1, ackSeq, ackMask, now)[d'..];
  }

  lemma {:induction false} FirstExpiredIs(q: seq<Message>, now: Time, k: nat, from: nat)
    requires from <= k <= |q|
    requires forall i :: from <= i < k ==> !Expired(q[i], now)
    requires k < |q| ==> Expired(q[k], now)
    ensures FirstExpired(q, now, from) == k
    decreases k - from
  {
    if from < k { FirstExpiredIs(q, now, k, from + 1); }
  }

  /** Everything in the pruned queue comes from the old one, up to being marked lost. */
  ghost predicate ComesFrom(m: Message, origin: Message, now: Time)
  {
    m == origin || (origin.inFlight && m == MarkLost(origin, now))
  }

  /** A survivor was in the queue and not reported as delivered. */
  lemma {:induction false} KeptOrigin(q: seq<Message>, ackSeq: uint16, ackMask: Mask, now: Time, m: Message)
    returns (i: nat)
    requires m in Kept(q, ackSeq, ackMask, now)
    ensures i < |q| && ComesFrom(m, q[i], now) && Status(q[i], ackSeq, ackMask) != Delivered
  {
    var p := q[..|q| - 1];
    if m in Survivors(q[|q| - 1], ackSeq, ackMask, now) {
      i := |q| - 1;
    } else {
      i := KeptOrigin(p, ackSeq, ackMask, now, m);
    }
  }

  lemma {:induction false} KeptKeeps(q: seq<Message>, ackSeq: uint16, ackMask: Mask, now: Time, i: nat)
    requires i < |q| && Status(q[i], ackSeq, ackMask) != Delivered
    ensures Marked(q[i], ackSeq, ackMask, now) in Kept(q, ackSeq, ackMask, now)
  {
    if i < |q| - 1 {
      KeptKeeps(q[..|q| - 1], ackSeq, ackMask, now, i);
    } else {
      assert Marked(q[i], ackSeq, ackMask, now) in Survivors(q[i], ackSeq, ackMask, now);
    }
  }

  /** What becomes of a message with this verdict, if it stays: found lost, it leaves flight; pending, it is as it was. */
  predicate SurvivesAs(m: Message, status: AckStatus, r: Message)
  {
    match status
    case Delivered => false
    case Lost => !r.inFlight && r == m.(inFlight := false, nextSendAt := r.nextSendAt)
    case Pending => r == m
  }

  function Statuses(q: seq<Message>, ackSeq: uint16, ackMask: Mask): (s: seq<AckStatus>)
    ensures |s| == |q|
  {
    seq(|q|, i requires 0 <= i < |q| => Status(q[i], ackSeq, ackMask))
  }

  /** The survivors: those at these places, in their order, exactly those reported as delivered missing. */
  ghost predicate SurviveAt(q: seq<Message>, statuses: seq<AckStatus>, kept: seq<Message>, places: seq<nat>)
    requires |statuses| == |q|
  {
    && |places| == |kept|
    && (forall k :: 0 <= k < |places| ==> places[k] < |q| && SurvivesAs(q[places[k]], statuses[places[k]], kept[k]))
    && (forall i, j :: 0 <= i < j < |places| ==> places[i] < places[j])
    && (forall i :: 0 <= i < |q| && statuses[i] != Delivered ==> i in places)
  }

  lemma {:induction false} KeptInOrder(q: seq<Message>, ackSeq: uint16, ackMask: Mask, now: Time) returns (places: seq<nat>)
    ensures SurviveAt(q, Statuses(q, ackSeq, ackMask), Kept(q, ackSeq, ackMask, now), places)
  {
    places := [];
    if q != [] {
      var p, m := q[..|q| - 1], q[|q| - 1];
      places := KeptInOrder(p, ackSeq, ackMask, now);
      assert q == p + [m] && Statuses(q, ackSeq, ackMask) == Statuses(p, ackSeq, ackMask) + [Status(m, ackSeq, ackMask)];
      var kept := Kept(p, ackSeq, ackMask, now);
      if Status(m, ackSeq, ackMask) == Delivered {
        assert kept + [] == kept;
        OneMoreGone(p, Statuses(p, ackSeq, ackMask), kept, places, m);
      } else {
        OneMoreSurvives(p, Statuses(p, ackSeq, ackMask), kept, places, m, Status(m, ackSeq, ackMask), Survivors(m, ackSeq, ackMask, now)[0]);
        places := places + [|p|];
      }
    }
  }

  lemma OneMoreGone(p: seq<Message>, statuses: seq<AckStatus>, kept: seq<Message>, places: seq<nat>, m: Message)
    requires |statuses| == |p| && SurviveAt(p, statuses, kept, places)
    ensures SurviveAt(p + [m], statuses + [Delivered], kept, places)
  {
  }

  lemma OneMoreSurvives(p: seq<Message>, statuses: seq<AckStatus>, kept: seq<Message>, places: seq<nat>, m: Message, status: AckStatus, r: Message)
    requires |statuses| == |p| && SurviveAt(p, statuses, kept, places) && SurvivesAs(m, status, r)
    ensures SurviveAt(p + [m], statuses + [status], kept + [r], places + [|p|])
  {
    var all := places + [|p|];
    assert forall i :: i in places ==> i in all;
    assert all[|places|] == |p| && |p| in all;
  }

  /** Without an expired message, pruning keeps exactly what the stamp does not report as delivered. */
  lemma PruneWithoutStall(q: seq<Message>, ackSeq: uint16, ackMask: Mask, now: Time)
    requires forall m :: m in q ==> !Expired(m, now)
    ensures Prune(q, ackSeq, ackMask, now) == (Kept(q, ackSeq, ackMask, now), false)
    ensures exists places :: SurviveAt(q, Statuses(q, ackSeq, ackMask), Prune(q, ackSeq, ackMask, now).0, places)
  {
    FirstExpiredIs(q, now, |q|, 0);
    assert q[..|q|] == q;
    var places := KeptInOrder(q, ackSeq, ackMask, now);
  }

  /** A stall leaves slot i as it was: it lies behind the survivors. */
  predicate Lingers(q: seq<Message>, ackSeq: uint16, ackMask: Mask, now: Time, i: nat)
  {
    var k := FirstExpired(q, now);
    k < |q| && |Kept(q[..k], ackSeq, ackMask, now)| <= i
  }

  /** Every slot with this number is reported as delivered, and no stall leaves it behind. */
  ghost predicate AllLeave(q: seq<Message>, ackSeq: uint16, ackMask: Mask, now: Time, number: nat)
  {
    forall i :: 0 <= i < |q| && q[i].number == number ==>
      Status(q[i], ackSeq, ackMask) == Delivered && !Lingers(q, ackSeq, ackMask, now, i)
  }

  /** Stalled or not, and whatever an earlier stall left behind: no slot with a number remains if and only if
      every slot that has it is reported as delivered, and none is left behind by a stall. */
  lemma DeliveredLeaves(q: seq<Message>, ackSeq: uint16, ackMask: Mask, now: Time, number: nat)
    ensures (forall m :: m in Prune(q, ackSeq, ackMask, now).0 ==> m.number != number) <==>
            AllLeave(q, ackSeq, ackMask, now, number)
  {
    if AllLeave(q, ackSeq, ackMask, now, number) {
      forall m | m in Prune(q, ackSeq, ackMask, now).0 ensures m.number != number {
        var i := StaysBecause(q, ackSeq, ackMask, now, m);
      }
    } else {
      var i :| 0 <= i < |q| && q[i].number == number &&
               !(Status(q[i], ackSeq, ackMask) == Delivered && !Lingers(q, ackSeq, ackMask, now, i));
      if Lingers(q, ackSeq, ackMask, now, i) {
        var m := Lingering(q, ackSeq, ackMask, now, i);
      } else {
        var m := PruneKeeps(q, ackSeq, ackMask, now, i);
      }
    }
  }

  lemma Lingering(q: seq<Message>, ackSeq: uint16, ackMask: Mask, now: Time, i: nat) returns (m: Message)
    requires i < |q| && Lingers(q, ackSeq, ackMask, now, i)
    ensures m in Prune(q, ackSeq, ackMask, now).0 && m.number == q[i].number
  {
    var k := FirstExpired(q, now);
    var kept := Kept(q[..k], ackSeq, ackMask, now);
    var marked := MarkedPrefix(q, k, ackSeq, ackMask, now);
    m := marked[i];
    assert marked[|kept|..][i - |kept|] == m;
  }

  /** What remains was not reported as delivered, or was left behind. */
  lemma StaysBecause(q: seq<Message>, ackSeq: uint16, ackMask: Mask, now: Time, m: Message) returns (i: nat)
    requires m in Prune(q, ackSeq, ackMask, now).0
    ensures i < |q| && q[i].number == m.number
    ensures Status(q[i], ackSeq, ackMask) != Delivered || Lingers(q, ackSeq, ackMask, now, i)
  {
    var k := FirstExpired(q, now);
    var kept := Kept(q[..k], ackSeq, ackMask, now);
    if m in kept {
      i := KeptOrigin(q[..k], ackSeq, ackMask, now, m);
    } else {
      var marked := MarkedPrefix(q, k, ackSeq, ackMask, now);
      assert m in marked[|kept|..];
      i :| |kept| <= i < |q| && m == marked[i];
    }
  }

  /** Pruning, stalled or not, invents no message ... */
  lemma PruneOrigin(q: seq<Message>, ackSeq: uint16, ackMask: Mask, now: Time, m: Message) returns (i: nat)
    requires m in Prune(q, ackSeq, ackMask, now).0
    ensures i < |q| && ComesFrom(m, q[i], now)
  {
    var k := FirstExpired(q, now);
    var kept := Kept(q[..k], ackSeq, ackMask, now);
    if m in kept {
      i := KeptOrigin(q[..k], ackSeq, ackMask, now, m);
    } else {
      var marked := MarkedPrefix(q, k, ackSeq, ackMask, now);
      assert m in marked[|kept|..];
      i :| |kept| <= i < |q| && m == marked[i];
    }
  }

  /** ... and drops none that the stamp does not report as delivered. */
  lemma PruneKeeps(q: seq<Message>, ackSeq: uint16, ackMask: Mask, now: Time, i: nat) returns (m: Message)
    requires i < |q| && Status(q[i], ackSeq, ackMask) != Delivered
    ensures m in Prune(q, ackSeq, ackMask, now).0 && ComesFrom(m, q[i], now)
    ensures Status(q[i], ackSeq, ackMask) == Lost && (forall j :: 0 <= j <= i ==> !Expired(q[j], now)) ==> !m.inFlight
    ensures Status(q[i], ackSeq, ackMask) == Pending ==> m == q[i]
  {
    var k := FirstExpired(q, now);
    var kept := Kept(q[..k], ackSeq, ackMask, now);
    if i < k {
      m := Marked(q[i], ackSeq, ackMask, now);
      KeptKeeps(q[..k], ackSeq, ackMask, now, i);
    } else {
      m := q[i];
      assert MarkedPrefix(q, k, ackSeq, ackMask, now)[|kept|..][i - |kept|] == m;
    }
  }
}
