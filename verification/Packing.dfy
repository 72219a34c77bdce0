/** Packing one session's changes into eventual-state datagrams and a stream batch
    (golem/eventual_state.go, golem/net/payload.go). */
module Packing {
  import opened Datagrams
  import opened Identifiers
  import opened StateTracker
  import opened FrameReader

  const BUDGET := MAX_EVENTUAL_BYTES

  /** What serialising a change gives: the entity is gone, there is nothing to send, a stream frame,
      or a compact frame that fits a datagram. */
  datatype Frame = Dead | Nothing | OnStream(data: bytes) | Compact(data: bytes)

  predicate Fits(f: Frame) { f.Compact? ==> PayloadLen(f.data) <= BUDGET }

  /** CompactStateDatagramFramePayloadLen. */
  function PayloadLen(data: bytes): nat { 4 + |data| }

  datatype Item = Item(change: Change, frame: Frame)

  predicate AllFit(items: seq<Item>) { forall i :: 0 <= i < |items| ==> Fits(items[i].frame) }

  // ---- the plan ----

  datatype Batch = Batch(items: seq<Item>, payload: bytes)

  /** done: datagrams sent; open: the one being filled; stream and cleared: everything else. */
  datatype Plan = Plan(done: seq<Batch>, open: Batch, stream: seq<Item>, cleared: seq<Item>)

  const NO_BATCH := Batch([], [])
  const NO_PLAN := Plan([], NO_BATCH, [], [])

  function Flushed(p: Plan): Plan
  {
    if p.open.items == [] then p else p.(done := p.done + [p.open], open := NO_BATCH)
  }

  function Added(p: Plan, item: Item): Plan
    requires item.frame.Compact? && Fits(item.frame)
  {
    p.(open := Batch(p.open.items + [item], p.open.payload + WriteFrame(item.frame.data)))
  }

  predicate Overflows(p: Plan, item: Item)
    requires item.frame.Compact?
  {
    |p.open.payload| > 0 && |p.open.payload| + PayloadLen(item.frame.data) > BUDGET
  }

  /** One turn of the packing loop. */
  function Place(p: Plan, item: Item): Plan
    requires Fits(item.frame)
  {
    match item.frame
    case Dead => p.(cleared := p.cleared + [item])
    case Nothing => p.(cleared := p.cleared + [item])
    case OnStream(_) => p.(stream := p.stream + [item])
    case Compact(_) => Added(if Overflows(p, item) then Flushed(p) else p, item)
  }

  function Packed(items: seq<Item>): Plan
    requires AllFit(items)
  {
    if items == [] then NO_PLAN else Place(Packed(items[..|items| - 1]), items[|items| - 1])
  }

  // ---- what the plan guarantees ----

  datatype Fate = InDatagram | InStream | Cleared

  function FateOf(f: Frame): Fate
  {
    match f
    case Dead => Cleared
    case Nothing => Cleared
    case OnStream(_) => InStream
    case Compact(_) => InDatagram
  }

  function Where(items: seq<Item>, fate: Fate): seq<Item>
  {
    if items == [] then []
    else
      var r := Where(items[..|items| - 1], fate);
      if FateOf(items[|items| - 1].frame) == fate then r + [items[|items| - 1]] else r
  }

  function Concat(batches: seq<Batch>): seq<Item>
  {
    if batches == [] then [] else Concat(batches[..|batches| - 1]) + batches[|batches| - 1].items
  }

  function Frames(items: seq<Item>): seq<bytes>
    requires forall i :: 0 <= i < |items| ==> items[i].frame.Compact?
  {
    seq(|items|, i requires 0 <= i < |items| => items[i].frame.data)
  }

  /** The payload is exactly the encoded frames of the batch, within the budget. */
  ghost predicate WellFilled(b: Batch)
  {
    && (forall i :: 0 <= i < |b.items| ==> b.items[i].frame.Compact? && Fits(b.items[i].frame))
    && Writable(Frames(b.items))
    && b.payload == WriteAll(Frames(b.items))
    && |b.payload| <= BUDGET
    && (b.items == [] <==> b.payload == [])
  }

  ghost predicate BatchesOk(p: Plan)
  {
    && (forall i :: 0 <= i < |p.done| ==> WellFilled(p.done[i]) && p.done[i].items != [])
    && WellFilled(p.open)
  }

  ghost predicate PlanOk(p: Plan, items: seq<Item>)
  {
    && BatchesOk(p)
    && Concat(p.done) + p.open.items == Where(items, InDatagram)
    && p.stream == Where(items, InStream)
    && p.cleared == Where(items, Cleared)
  }

  lemma AddedIsWellFilled(b: Batch, item: Item)
    requires WellFilled(b) && item.frame.Compact? && Fits(item.frame)
    requires b.payload == [] || |b.payload| + PayloadLen(item.frame.data) <= BUDGET
    ensures WellFilled(Batch(b.items + [item], b.payload + WriteFrame(item.frame.data)))
  {
    WriteOne(item.frame.data);
    WriteAllAppend(Frames(b.items), [item.frame.data]);
    assert Frames(b.items + [item]) == Frames(b.items) + [item.frame.data];
  }

  lemma ConcatAppend(batches: seq<Batch>, b: Batch)
    ensures Concat(batches + [b]) == Concat(batches) + b.items
  {
    assert (batches + [b])[..|batches|] == batches;
  }

  lemma FlushedKeeps(p: Plan)
    requires BatchesOk(p)
    ensures BatchesOk(Flushed(p))
    ensures Concat(Flushed(p).done) + Flushed(p).open.items == Concat(p.done) + p.open.items
  {
    if p.open.items != [] {
      ConcatAppend(p.done, p.open);
      assert Frames([]) == [];
    }
  }

  lemma AddedKeeps(p: Plan, item: Item)
    requires BatchesOk(p) && item.frame.Compact? && Fits(item.frame)
    requires p.open.payload == [] || |p.open.payload| + PayloadLen(item.frame.data) <= BUDGET
    ensures BatchesOk(Added(p, item))
    ensures Concat(Added(p, item).done) + Added(p, item).open.items == Concat(p.done) + p.open.items + [item]
  {
    AddedIsWellFilled(p.open, item);
  }

  lemma WhereAppend(items: seq<Item>, item: Item, fate: Fate)
    ensures Where(items + [item], fate) == Where(items, fate) + (if FateOf(item.frame) == fate then [item] else [])
  {
    assert (items + [item])[..|items|] == items;
  }

  lemma PlaceKeeps(p: Plan, items: seq<Item>, item: Item)
    requires PlanOk(p, items) && Fits(item.frame)
    ensures PlanOk(Place(p, item), items + [item])
  {
    WhereAppend(items, item, InDatagram);
    WhereAppend(items, item, InStream);
    WhereAppend(items, item, Cleared);
    if item.frame.Compact? {
      FlushedKeeps(p);
      AddedKeeps(if Overflows(p, item) then Flushed(p) else p, item);
    }
  }

  /** Every change ends up in exactly one datagram, in the stream batch, or cleared; each in the order
      given; every payload is the concatenation of its frames and within the budget. */
  lemma {:induction false} PackedIsOk(items: seq<Item>)
    requires AllFit(items)
    ensures PlanOk(Packed(items), items)
    decreases |items|
  {
    if items != [] {
      var p := items[..|items| - 1];
      PackedIsOk(p);
      PlaceKeeps(Packed(p), p, items[|items| - 1]);
      assert items == p + [items[|items| - 1]];
    }
  }

  /** No datagram could have taken the first frame of the next one. */
  ghost predicate Tight(p: Plan)
  {
    && (forall i :: 0 <= i < |p.done| - 1 ==> NoRoom(p.done[i], p.done[i + 1]))
    && (p.done != [] && p.open.items != [] ==> NoRoom(p.done[|p.done| - 1], p.open))
    && (p.open.items == [] ==> p.done == [])
  }

  predicate NoRoom(b: Batch, next: Batch)
  {
    next.items != [] && next.items[0].frame.Compact? &&
    |b.payload| + PayloadLen(next.items[0].frame.data) > BUDGET
  }

  lemma {:induction false} PackedIsTight(items: seq<Item>)
    requires AllFit(items)
    ensures Tight(Packed(items))
    decreases |items|
  {
    if items != [] {
      var q := items[..|items| - 1];
      PackedIsTight(q);
      PackedIsOk(q);
      PlaceKeepsTight(Packed(q), items[|items| - 1]);
    }
  }

  lemma PlaceKeepsTight(p: Plan, item: Item)
    requires Tight(p) && BatchesOk(p) && Fits(item.frame)
    ensures Tight(Place(p, item))
  {
    if item.frame.Compact? && !Overflows(p, item) {
      assert p.open.items != [] ==> Place(p, item).open.items[0] == p.open.items[0];
    }
  }

  // ---- the sending loops ----

  function Changes(items: seq<Item>): (r: seq<Change>)
    ensures |r| == |items|
  {
    seq(|items|, i requires 0 <= i < |items| => items[i].change)
  }

  /** The tracker after the datagrams in `done` were sent under tokens first+1, first+2, ... */
  function AfterSends(t: Tracker, done: seq<Batch>, first: Token): Tracker
  {
    if done == [] then t
    else MarkSent(AfterSends(t, done[..|done| - 1], first), first + |done|, Changes(done[|done| - 1].items))
  }

  /** The entities whose changes were sent in datagrams, cleared, or streamed. */
  function Settled(p: Plan, streamed: seq<Item>): set<Id>
  {
    Ids(Changes(Concat(p.done))) + Ids(Changes(p.cleared)) + Ids(Changes(streamed))
  }

  /** The tracker once the plan's datagrams and the items in `streamed` went out: what was sent or
      cleared is no longer dirty, everything else is untouched. */
  ghost predicate Effect(t: Tracker, p: Plan, first: Token, streamed: seq<Item>, t': Tracker)
  {
    && t'.inFlight == AfterSends(t, p.done, first).inFlight
    && t'.queue == t.queue
    && t'.dirty == t.dirty - Settled(p, streamed)
  }

  lemma MinusTwice(m: map<Id, Change>, a: set<Id>, b: set<Id>)
    ensures (m - a) - b == m - (a + b)
  {
  }

  lemma IdsOfAppend(a: seq<Item>, b: seq<Item>)
    ensures Ids(Changes(a + b)) == Ids(Changes(a)) + Ids(Changes(b))
  {
    forall id | id in Ids(Changes(a + b)) ensures id in Ids(Changes(a)) + Ids(Changes(b)) {
      var i :| 0 <= i < |Changes(a + b)| && Changes(a + b)[i].id == id;
      if i < |a| { assert Changes(a)[i].id == id; } else { assert Changes(b)[i - |a|].id == id; }
    }
    forall id | id in Ids(Changes(a)) ensures id in Ids(Changes(a + b)) {
      var i :| 0 <= i < |a| && Changes(a)[i].id == id;
      assert Changes(a + b)[i].id == id;
    }
    forall id | id in Ids(Changes(b)) ensures id in Ids(Changes(a + b)) {
      var i :| 0 <= i < |b| && Changes(b)[i].id == id;
      assert Changes(a + b)[|a| + i].id == id;
    }
  }

  lemma SendOneMore(t: Tracker, p: Plan, first: Token, t1: Tracker)
    requires Effect(t, p, first, [], t1) && p.open.items != []
    ensures Effect(t, Flushed(p), first, [], MarkSent(t1, first + |p.done| + 1, Changes(p.open.items)))
  {
    var done := p.done + [p.open];
    assert done[..|p.done|] == p.done;
    SettledByFlush(p);
    MinusTwice(t.dirty, Settled(p, []), Ids(Changes(p.open.items)));
  }

  lemma SettledByFlush(p: Plan)
    requires p.open.items != []
    ensures Settled(Flushed(p), []) == Settled(p, []) + Ids(Changes(p.open.items))
  {
    ConcatAppend(p.done, p.open);
    IdsOfAppend(Concat(p.done), p.open.items);
  }

  lemma ClearOneMore(t: Tracker, p: Plan, first: Token, t1: Tracker, item: Item)
    requires Effect(t, p, first, [], t1) && FateOf(item.frame) == Cleared
    ensures Effect(t, Place(p, item), first, [], ClearDirty(t1, {item.change.id}))
  {
    IdsOfAppend(p.cleared, [item]);
    assert Changes([item])[0].id == item.change.id;
    assert Ids(Changes([item])) == {item.change.id};
    MinusTwice(t.dirty, Settled(p, []), {item.change.id});
    assert Settled(Place(p, item), []) == Settled(p, []) + {item.change.id};
  }

  /** What has gone out so far, on a connection that refuses send number `failAt`. */
  datatype Progress = Progress(tracker: Tracker, plan: Plan, failed: bool)

  ghost predicate OnTrack(t: Tracker, first: Token, failAt: Option<nat>, s: Progress)
  {
    && Effect(t, s.plan, first, [], s.tracker)
    && (failAt.Some? ==> |s.plan.done| <= failAt.value)
    && (s.failed ==> failAt == Some(|s.plan.done|))
  }

  /** flushPending: sends the open datagram under the next token. */
  method FlushPending(ghost t: Tracker, first: Token, failAt: Option<nat>, s: Progress) returns (s': Progress)
    requires OnTrack(t, first, failAt, s) && !s.failed
    ensures OnTrack(t, first, failAt, s')
    ensures s'.failed ==> s' == s.(failed := true) && s.plan.open.items != []
    ensures !s'.failed ==> s'.plan == Flushed(s.plan)
  {
    if s.plan.open.items == [] {
      return s;
    }
    if failAt == Some(|s.plan.done|) {
      return s.(failed := true);
    }
    FlushOnTrack(t, first, failAt, s);
    var tracker := MarkSent(s.tracker, first + |s.plan.done| + 1, Changes(s.plan.open.items));
    return Progress(tracker, Flushed(s.plan), false);
  }

  lemma FlushOnTrack(t: Tracker, first: Token, failAt: Option<nat>, s: Progress)
    requires OnTrack(t, first, failAt, s) && s.plan.open.items != [] && failAt != Some(|s.plan.done|)
    ensures var tracker := MarkSent(s.tracker, first + |s.plan.done| + 1, Changes(s.plan.open.items));
            OnTrack(t, first, failAt, Progress(tracker, Flushed(s.plan), false))
  {
    SendOneMore(t, s.plan, first, s.tracker);
  }

  /** The loop body shared by both senders of the source. */
  method PlaceItem(ghost t: Tracker, first: Token, failAt: Option<nat>, s: Progress, item: Item) returns (s': Progress)
    requires OnTrack(t, first, failAt, s) && !s.failed && Fits(item.frame)
    ensures OnTrack(t, first, failAt, s')
    ensures !s'.failed ==> s'.plan == Place(s.plan, item)
    ensures s'.failed ==> s'.plan == s.plan && |s.plan.done| < |Place(s.plan, item).done|
  {
    match item.frame {
      case Dead =>
        ClearOneMore(t, s.plan, first, s.tracker, item);
        return Progress(ClearDirty(s.tracker, {item.change.id}), Place(s.plan, item), false);
      case Nothing =>
        ClearOneMore(t, s.plan, first, s.tracker, item);
        return Progress(ClearDirty(s.tracker, {item.change.id}), Place(s.plan, item), false);
      case OnStream(_) =>
        return s.(plan := Place(s.plan, item));
      case Compact(_) =>
        s' := s;
        if Overflows(s.plan, item) {
          s' := FlushPending(t, first, failAt, s);
          if s'.failed {
            return;
          }
        }
        s' := s'.(plan := Added(s'.plan, item));
    }
  }

  /** After the loop: the last datagram, then the stream batch. */
  method Finish(ghost t: Tracker, first: Token, failAt: Option<nat>, s: Progress)
    returns (t': Tracker, sent: seq<Batch>, streamed: seq<Item>, ok: bool)
    requires OnTrack(t, first, failAt, s) && !s.failed
    ensures sent <= Flushed(s.plan).done
    ensures ok <==> Survives(failAt, s.plan)
    ensures ok ==> sent == Flushed(s.plan).done && streamed == s.plan.stream
    ensures ok ==> Effect(t, Flushed(s.plan), first, streamed, t')
    ensures !ok ==> streamed == [] && Stopped(t, s.plan, first, t', sent)
  {
    var f := FlushPending(t, first, failAt, s);
    if f.failed {
      return f.tracker, f.plan.done, [], false;
    }
    if f.plan.stream == [] {
      return f.tracker, f.plan.done, [], true;
    }
    if failAt == Some(|f.plan.done|) {
      return f.tracker, f.plan.done, [], false;
    }
    var tracker := ClearDirty(f.tracker, Ids(Changes(f.plan.stream)));
    MinusTwice(t.dirty, Settled(f.plan, []), Ids(Changes(f.plan.stream)));
    assert Settled(f.plan, f.plan.stream) == Settled(f.plan, []) + Ids(Changes(f.plan.stream));
    assert Effect(t, f.plan, first, f.plan.stream, tracker);
    return tracker, f.plan.done, f.plan.stream, true;
  }

  /** Whether every send of the plan comes before the one that fails; the stream batch is the last. */
  predicate Survives(failAt: Option<nat>, p: Plan)
  {
    failAt.None? || failAt.value > |Flushed(p).done| || (failAt.value == |Flushed(p).done| && p.stream == [])
  }

  /** The last datagram was refused, or the stream batch after it. */
  ghost predicate Stopped(t: Tracker, p: Plan, first: Token, t': Tracker, sent: seq<Batch>)
  {
    || (Effect(t, p, first, [], t') && sent == p.done)
    || (Effect(t, Flushed(p), first, [], t') && sent == Flushed(p).done)
  }

  /** A send failed after n items were placed: the tracker reflects what was sent of those, and no more. */
  ghost predicate StoppedAt(t: Tracker, items: seq<Item>, n: nat, first: Token, t': Tracker, sent: seq<Batch>)
    requires AllFit(items) && n <= |items|
  {
    if n == |items| then Stopped(t, Packed(items), first, t', sent)
    else Effect(t, Packed(items[..n]), first, [], t') && sent == Packed(items[..n]).done
  }

  /** What a sender achieves for `items`. When no send fails, the datagrams and the stream batch are
      exactly the plan's and the tracker reflects them; when one fails, everything sent before it stands. */
  ghost predicate SentAs(t: Tracker, items: seq<Item>, first: Token, failAt: Option<nat>,
                         t': Tracker, sent: seq<Batch>, streamed: seq<Item>, ok: bool, n: nat)
    requires AllFit(items)
  {
    var full := Flushed(Packed(items));
    && sent <= full.done
    && (ok ==> Survives(failAt, Packed(items)))
    && (ok ==> sent == full.done && streamed == full.stream && Effect(t, full, first, streamed, t'))
    && (!ok ==> streamed == [] && n <= |items| && StoppedAt(t, items, n, first, t', sent))
  }

  lemma FailedAt(t: Tracker, items: seq<Item>, first: Token, failAt: Option<nat>, i: nat, s: Progress)
    requires AllFit(items) && i <= |items| && OnTrack(t, first, failAt, s) && s.plan == Packed(items[..i])
    ensures SentAs(t, items, first, failAt, s.tracker, s.plan.done, [], false, i)
  {
    PackedGrows(items, i);
    if i == |items| { assert items[..i] == items; }
  }

  /** A send that fails in the middle is one the whole plan does not survive. */
  lemma DoesNotSurvive(items: seq<Item>, i: nat, failAt: Option<nat>)
    requires AllFit(items) && i < |items| && failAt == Some(|Packed(items[..i]).done|)
    requires |Packed(items[..i]).done| < |Packed(items[..i + 1]).done|
    ensures !Survives(failAt, Packed(items))
  {
    PackedGrows(items, i + 1);
  }

  /** sendPreparedEventualStateFrames. */
  method SendPrepared(t: Tracker, items: seq<Item>, first: Token, failAt: Option<nat>)
    returns (t': Tracker, sent: seq<Batch>, streamed: seq<Item>, ok: bool, ghost n: nat)
    requires AllFit(items)
    ensures SentAs(t, items, first, failAt, t', sent, streamed, ok, n)
    ensures ok <==> Survives(failAt, Packed(items))
  {
    var s := Progress(t, NO_PLAN, false);
    EffectOfNothing(t, first);
    for i := 0 to |items|
      invariant OnTrack(t, first, failAt, s) && !s.failed
      invariant s.plan == Packed(items[..i])
    {
      assert items[..i + 1][..i] == items[..i];
      s := PlaceItem(t, first, failAt, s, items[i]);
      if s.failed {
        FailedAt(t, items, first, failAt, i, s);
        DoesNotSurvive(items, i, failAt);
        return s.tracker, s.plan.done, [], false, i;
      }
    }
    assert items[..|items|] == items;
    n := |items|;
    t', sent, streamed, ok := Finish(t, first, failAt, s);
  }

  lemma EffectOfNothing(t: Tracker, first: Token)
    ensures Effect(t, NO_PLAN, first, [], t)
  {
    assert Settled(NO_PLAN, []) == {};
    assert t.dirty - {} == t.dirty;
  }

  /** Datagrams once sent stay as they are while more items are placed. */
  lemma {:induction false} PackedGrows(items: seq<Item>, n: nat)
    requires AllFit(items) && n <= |items|
    ensures Packed(items[..n]).done <= Flushed(Packed(items)).done
    decreases |items| - n
  {
    if n == |items| {
      assert items[..n] == items;
    } else {
      PackedGrows(items, n + 1);
      assert items[..n + 1][..n] == items[..n];
    }
  }

  // ---- the general loop, with its per-tick frame cache ----

  /** Serialisation within one tick; None is an error. Only frames of live entities are cached. */
  type Serialiser = Change -> Option<Frame>

  ghost predicate CacheOk(cache: map<Change, Frame>, frameOf: Serialiser)
  {
    forall ch :: ch in cache ==> frameOf(ch) == Some(cache[ch])
  }

  /** eventualStateTickCache.frame. */
  method CachedFrame(cache: map<Change, Frame>, frameOf: Serialiser, ch: Change)
    returns (f: Option<Frame>, cache': map<Change, Frame>)
    requires CacheOk(cache, frameOf)
    ensures f == frameOf(ch) && CacheOk(cache', frameOf)
  {
    cache' := cache;
    if ch in cache {
      return Some(cache[ch]), cache;
    }
    f := frameOf(ch);
    if f.Some? && !f.value.Dead? {
      cache' := cache[ch := f.value];
    }
  }

  /** How many changes serialise before the first error. */
  function GoodPrefix(changes: seq<Change>, frameOf: Serialiser, from: nat := 0): (k: nat)
    requires from <= |changes|
    ensures from <= k <= |changes|
    ensures forall i :: from <= i < k ==> frameOf(changes[i]).Some?
    ensures k < |changes| ==> frameOf(changes[k]).None?
    decreases |changes| - from
  {
    if from == |changes| || frameOf(changes[from]).None? then from else GoodPrefix(changes, frameOf, from + 1)
  }

  /** The prepared frames of the changes that serialise. */
  function Prepared(changes: seq<Change>, frameOf: Serialiser): (items: seq<Item>)
    ensures |items| == GoodPrefix(changes, frameOf)
  {
    seq(GoodPrefix(changes, frameOf), i requires 0 <= i < GoodPrefix(changes, frameOf) =>
      Item(changes[i], frameOf(changes[i]).value))
  }

  /** The next frame of the loop; None is the first change that does not serialise. */
  method NextFrame(changes: seq<Change>, frameOf: Serialiser, cache: map<Change, Frame>, i: nat)
    returns (f: Option<Frame>, cache': map<Change, Frame>)
    requires CacheOk(cache, frameOf) && i < |changes| && i <= |Prepared(changes, frameOf)|
    ensures CacheOk(cache', frameOf)
    ensures f.None? ==> i == |Prepared(changes, frameOf)|
    ensures f.Some? ==> i < |Prepared(changes, frameOf)| && Prepared(changes, frameOf)[i] == Item(changes[i], f.value)
  {
    f, cache' := CachedFrame(cache, frameOf, changes[i]);
  }

  /** sendEventualStateChanges: whatever is already cached, it sends what SendPrepared sends for the
      prepared frames of the same changes, stopping at the first that does not serialise. */
  method SendChanges(t: Tracker, changes: seq<Change>, frameOf: Serialiser, cache0: map<Change, Frame>,
                     first: Token, failAt: Option<nat>)
    returns (t': Tracker, sent: seq<Batch>, streamed: seq<Item>, ok: bool, ghost n: nat)
    requires CacheOk(cache0, frameOf) && AllFit(Prepared(changes, frameOf))
    ensures SentAs(t, Prepared(changes, frameOf), first, failAt, t', sent, streamed, ok, n)
    ensures ok <==> |Prepared(changes, frameOf)| == |changes| && Survives(failAt, Packed(Prepared(changes, frameOf)))
  {
    ghost var items := Prepared(changes, frameOf);
    var s, cache := Progress(t, NO_PLAN, false), cache0;
    EffectOfNothing(t, first);
    for i := 0 to |changes|
      invariant OnTrack(t, first, failAt, s) && !s.failed && CacheOk(cache, frameOf)
      invariant i <= |items| && s.plan == Packed(items[..i])
    {
      var f;
      f, cache := NextFrame(changes, frameOf, cache, i);
      if f.None? {
        FailedAt(t, items, first, failAt, i, s);
        return s.tracker, s.plan.done, [], false, i;
      }
      assert items[..i + 1][..i] == items[..i];
      s := PlaceItem(t, first, failAt, s, Item(changes[i], f.value));
      if s.failed {
        FailedAt(t, items, first, failAt, i, s);
        DoesNotSurvive(items, i, failAt);
        return s.tracker, s.plan.done, [], false, i;
      }
    }
    assert items[..|items|] == items;
    n := |items|;
    t', sent, streamed, ok := Finish(t, first, failAt, s);
  }
}
