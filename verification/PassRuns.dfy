/** A filtered pass as part of a session's history: what the pass does for a session is a stretch of it, so what is
    proved of histories holds of passes; and every bit that is due goes out (golem/loop.go). */
module PassRuns {
  import opened Identifiers
  import opened Datagrams
  import opened StateTracker
  import opened NoLostUpdate
  import O = OwnerRedaction
  import R = OwnerReplication
  import F = FilteredPass
  import E = EventualFrames
  import P = Packing
  import S = SendRefinement
  import H = SessionRuns

  // ---- this tick's changes ----

  /** The flushed changes of the entities that stayed. */
  function Deltas(f: O.Flush, stayed: seq<Id>): seq<Change>
  {
    if stayed == [] then []
    else
      var id := stayed[|stayed| - 1];
      Deltas(f, stayed[..|stayed| - 1]) + if id in f.deltas then [f.deltas[id]] else []
  }

  lemma {:induction false} DeltasArePlain(f: O.Flush, stayed: seq<Id>)
    requires R.FlushOk(f)
    ensures forall i :: 0 <= i < |Deltas(f, stayed)| ==> !Deltas(f, stayed)[i].isPublic
  {
    if stayed != [] { DeltasArePlain(f, stayed[..|stayed| - 1]); }
  }

  /** The pass collects what a history adapts. */
  lemma {:induction false} CollectedIsAdapted(s: O.State, f: O.Flush, me: SessionId, h: H.Session, stayed: seq<Id>)
    requires h.kinds == s.kinds && h.owners == s.owners && s.datagrams(me)
    ensures H.Adapted(h, me, Deltas(f, stayed)) == R.Collected(s, f, me, stayed)
  {
    if stayed != [] {
      var p, id := stayed[..|stayed| - 1], stayed[|stayed| - 1];
      CollectedIsAdapted(s, f, me, h, p);
      if id in f.deltas {
        AdaptedOneMore(h, me, Deltas(f, p), f.deltas[id]);
      } else {
        assert Deltas(f, stayed) == Deltas(f, p);
      }
    }
  }

  lemma AdaptedOneMore(h: H.Session, me: SessionId, changes: seq<Change>, ch: Change)
    ensures H.Adapted(h, me, changes + [ch]) == H.Adapted(h, me, changes) + O.ChangeFor(h.kinds, h.owners, me, ch)
  {
    assert (changes + [ch])[..|changes|] == changes;
  }

  // ---- what the stream batch shows and hides ----

  ghost predicate HasFull(frames: seq<R.Frame>, id: Id)
  {
    exists i :: 0 <= i < |frames| && frames[i].Full? && frames[i].id == id
  }

  /** What clearing an entity was for: its full state is streamed, or it is no longer shown. */
  ghost function ClearEvent(frames: seq<R.Frame>, refused: set<Id>, id: Id): H.Event
  {
    if HasFull(frames, id) then H.Entered(id, id in refused) else H.Left(id)
  }

  ghost function ClearEvents(frames: seq<R.Frame>, refused: set<Id>, dropped: seq<Id>): seq<H.Event>
  {
    if dropped == [] then []
    else ClearEvents(frames, refused, dropped[..|dropped| - 1]) + [ClearEvent(frames, refused, dropped[|dropped| - 1])]
  }

  /** The same server, with the dropped entities cleared; of these, what is shown is what may be seen by now. */
  ghost predicate ClearedTo(h: H.Session, h': H.Session, me: SessionId, dropped: seq<Id>)
  {
    && h'.kinds == h.kinds && h'.owners == h.owners && h'.counter == h.counter && h'.over == h.over
    && h'.tracker == R.ClearAll(h.tracker, dropped)
    && forall c :: c in h'.shown ==> if c.0 in dropped then c.1 in H.Visible(h, me, c.0) else c in h.shown
  }

  lemma {:induction false} ClearingIsHistory(me: SessionId, h: H.Session, frames: seq<R.Frame>, refused: set<Id>, dropped: seq<Id>)
    requires !h.over && forall id :: id in dropped && HasFull(frames, id) ==> id in h.kinds
    ensures var events := ClearEvents(frames, refused, dropped);
            H.Lawful(h, me, events) && ClearedTo(h, H.AfterAll(h, me, events), me, dropped)
    decreases |dropped|
  {
    if dropped != [] {
      var p, id := dropped[..|dropped| - 1], dropped[|dropped| - 1];
      ClearingIsHistory(me, h, frames, refused, p);
      var events, e := ClearEvents(frames, refused, p), ClearEvent(frames, refused, id);
      assert dropped == p + [id];
      OneMoreCleared(me, h, events, p, e, id);
    }
  }

  lemma OneMoreCleared(me: SessionId, h: H.Session, events: seq<H.Event>, p: seq<Id>, e: H.Event, id: Id)
    requires H.Lawful(h, me, events) && ClearedTo(h, H.AfterAll(h, me, events), me, p) && !h.over
    requires e == H.Left(id) || (e.Entered? && e.id == id && id in h.kinds)
    ensures H.Lawful(h, me, events + [e]) && ClearedTo(h, H.AfterAll(h, me, events + [e]), me, p + [id])
  {
    H.OneMore(h, me, events, e);
    ClearedOneMore(h, H.AfterAll(h, me, events), me, p, e, id);
  }

  lemma ClearedOneMore(h: H.Session, h1: H.Session, me: SessionId, p: seq<Id>, e: H.Event, id: Id)
    requires ClearedTo(h, h1, me, p) && (e == H.Left(id) || (e.Entered? && e.id == id))
    ensures ClearedTo(h, H.After(h1, me, e), me, p + [id])
  {
    var h' := H.After(h1, me, e);
    assert (p + [id])[..|p|] == p;
    forall c | c in h'.shown ensures if c.0 in p + [id] then c.1 in H.Visible(h, me, c.0) else c in h.shown {
      CellOfEntity(id, c);
    }
  }

  // ---- a session's turn ----

  lemma {:induction false} Listed(frames: seq<R.Frame>, i: nat)
    requires i < |frames|
    ensures frames[i] in R.FramesOf(frames, frames[i].id)
  {
    if i < |frames| - 1 { Listed(frames[..|frames| - 1], i); }
  }

  /** Full state is sent of live entities alone. */
  lemma FullIsLive(s: O.State, f: O.Flush, me: SessionId, frames: seq<R.Frame>, id: Id)
    requires HasFull(frames, id) && R.FramesOf(frames, id) == F.Expected(s, f, me, id)
    ensures id in s.kinds
  {
    var i :| 0 <= i < |frames| && frames[i].Full? && frames[i].id == id;
    Listed(frames, i);
  }

  /** The session before its turn: the server's state, and a view in which only what this turn clears may
      disagree with ownership. */
  ghost predicate Before(h: H.Session, s: O.State, f: O.Flush, me: SessionId, l: F.Link)
  {
    && !h.over && h.kinds == s.kinds && h.owners == s.owners && h.tracker == O.TrackerOf(s.trackers, me) && h.counter <= l.first
    && forall c :: c in h.shown ==>
         c.0 in O.SetOf(s.known, me) && (!O.Purged(s, f, me, c.0) ==> c.1 in H.Visible(h, me, c.0))
  }

  /** A turn of the pass, whatever way its sends go, is a stretch of a history of the session: other sessions' tokens,
      what the stream batch shows and hides, and the send. It ends with the tracker the pass ends with. */
  lemma VisitIsHistory(me: SessionId, events: seq<H.Event>, s: O.State, f: O.Flush, l: F.Link, m: E.Marshalling, v: F.Visit,
                       refused: set<Id>) returns (more: seq<H.Event>)
    requires H.IsHistory(me, events) && Before(H.History(me, events), s, f, me, l)
    requires R.FlushOk(f) && s.datagrams(me) && H.Speaks(m) && !v.lost && F.Visited(s, f, me, l, E.Serialised(s.kinds, m), v)
    ensures H.IsHistory(me, events + more) && H.History(me, events + more).tracker == v.service.tracker
    ensures H.History(me, events + more).over == !v.o.ok
    ensures more != [] && IsTurn(more[|more| - 1], f, l, m, v, refused)
  {
    var h := H.History(me, events);
    var clears := BatchIsHistory(me, h, s, f, l, m, v, refused);
    var serve := SendIsHistory(me, h, clears, s, f, l, m, v, refused);
    more := clears + [serve];
    H.JoinHistories(H.Fresh(), me, events, more);
  }

  lemma SendIsHistory(me: SessionId, h: H.Session, clears: seq<H.Event>, s: O.State, f: O.Flush, l: F.Link, m: E.Marshalling, v: F.Visit,
                      refused: set<Id>) returns (serve: H.Event)
    requires R.FlushOk(f) && s.datagrams(me) && H.Speaks(m) && !v.lost && F.Visited(s, f, me, l, E.Serialised(s.kinds, m), v)
    requires H.Lawful(h, me, clears)
    requires var h1 := H.AfterAll(h, me, clears);
             && h1.kinds == s.kinds && h1.owners == s.owners && h1.counter == l.first && !h1.over
             && h1.tracker == v.service.purged && H.UpToDateView(h1, me)
    ensures H.Lawful(h, me, clears + [serve]) && IsTurn(serve, f, l, m, v, refused)
    ensures var h2 := H.AfterAll(h, me, clears + [serve]); h2.tracker == v.service.tracker && h2.over == !v.o.ok
  {
    var n := TurnIsPossible(H.AfterAll(h, me, clears), s, f, me, l, m, v, refused);
    serve := H.Serve(Deltas(f, v.stayed), v.direct, m, l.failAt, v.o, n, refused);
    H.OneMore(h, me, clears, serve);
  }

  /** The event is the send of this turn: of the flushed changes of the entities that stayed. */
  ghost predicate IsTurn(e: H.Event, f: O.Flush, l: F.Link, m: E.Marshalling, v: F.Visit, refused: set<Id>)
  {
    e.Serve? && e == H.Serve(Deltas(f, v.stayed), v.direct, m, l.failAt, v.o, e.n, refused)
  }

  /** Other sessions' tokens, and what the stream batch shows and hides. */
  lemma BatchIsHistory(me: SessionId, h: H.Session, s: O.State, f: O.Flush, l: F.Link, m: E.Marshalling, v: F.Visit,
                       refused: set<Id>) returns (events: seq<H.Event>)
    requires Before(h, s, f, me, l) && s.datagrams(me) && F.Visited(s, f, me, l, E.Serialised(s.kinds, m), v)
    ensures H.Lawful(h, me, events)
    ensures var h' := H.AfterAll(h, me, events);
            && h'.kinds == s.kinds && h'.owners == s.owners && h'.counter == l.first && !h'.over
            && h'.tracker == v.service.purged && H.UpToDateView(h', me)
  {
    var first := H.Others(l.first);
    var h1 := H.After(h, me, first);
    assert [] + [first] == [first];
    H.OneMore(h, me, [], first);
    var dropped: seq<Id> :| (forall id :: id in dropped <==> O.Purged(s, f, me, id)) &&
                            v.service.purged == R.ClearAll(O.TrackerOf(s.trackers, me), dropped);
    forall id | id in dropped && HasFull(v.frames, id) ensures id in s.kinds { FullIsLive(s, f, me, v.frames, id); }
    var clears := ClearEvents(v.frames, refused, dropped);
    ClearingIsHistory(me, h1, v.frames, refused, dropped);
    ViewIsUpToDate(h, H.AfterAll(h1, me, clears), s, f, me, l, dropped);
    H.JoinHistories(h, me, [first], clears);
    events := [first] + clears;
  }

  lemma ViewIsUpToDate(h0: H.Session, h: H.Session, s: O.State, f: O.Flush, me: SessionId, l: F.Link, dropped: seq<Id>)
    requires Before(h0, s, f, me, l) && s.datagrams(me) && forall id :: id in dropped <==> O.Purged(s, f, me, id)
    requires ClearedTo(h0.(counter := l.first), h, me, dropped)
    ensures H.UpToDateView(h, me)
  {
    forall c | c in h.shown ensures c.1 in H.Visible(h, me, c.0) {
      assert H.Visible(h, me, c.0) == H.Visible(h0, me, c.0);
    }
  }

  lemma TurnIsPossible(h: H.Session, s: O.State, f: O.Flush, me: SessionId, l: F.Link, m: E.Marshalling, v: F.Visit, refused: set<Id>)
    returns (n: nat)
    requires R.FlushOk(f) && s.datagrams(me) && H.Speaks(m) && !v.lost && F.Visited(s, f, me, l, E.Serialised(s.kinds, m), v)
    requires h.kinds == s.kinds && h.owners == s.owners && h.counter == l.first && h.tracker == v.service.purged
    requires !h.over && H.UpToDateView(h, me)
    ensures H.Possible(h, me, H.Serve(Deltas(f, v.stayed), v.direct, m, l.failAt, v.o, n, refused))
  {
    CollectedIsAdapted(s, f, me, h, v.stayed);
    DeltasArePlain(f, v.stayed);
    var turn := R.EventualPlan(v.service.purged, v.dirty, v.direct, E.Serialised(s.kinds, m));
    n :| R.Performed(turn, l.first, l.failAt, v.o, n);
  }

  // ---- every bit that is due goes out ----

  /** An item of a finished send: in a datagram, on the stream, or with nothing to send. */
  ghost predicate WentOut(o: R.Sending, item: P.Item)
  {
    item in P.Concat(o.sent) || item in o.streamed || item.frame == P.Dead || item.frame == P.Nothing
  }

  lemma AllGoOut(t: Tracker, items: seq<P.Item>, first: Token, failAt: Option<nat>, o: R.Sending, n: nat, item: P.Item)
    requires R.Delivers(t, items, first, failAt, o, n) && o.ok && item in items
    ensures WentOut(o, item)
  {
    S.FlushedIsFinished(items);
    S.WhereHas(items, P.FateOf(item.frame), item);
  }

  /** Merging keeps every bit of the changes. */
  lemma {:induction false} MergedCovers(t: Tracker, dirty: seq<Change>, ch: Change, b: Bit)
    requires ch in dirty && ch.id != 0 && b in Cover(ch)
    ensures DirtyBit(R.MarkedAll(t, dirty), ch.id, b)
  {
    var p, last := dirty[..|dirty| - 1], dirty[|dirty| - 1];
    MarkIsExact(R.MarkedAll(t, p), last);
    if ch != last {
      assert dirty == p + [last];
      MergedCovers(t, p, ch, b);
    }
  }

  lemma PendingItem(t: Tracker, frameOf: P.Serialiser, id: Id, b: Bit) returns (item: P.Item)
    requires R.Keyed(t) && DirtyBit(t, id, b) && |R.PendingItems(t, frameOf)| == |DirtyChanges(t.queue, t.dirty)|
    ensures item in R.PendingItems(t, frameOf) && item.change.id == id && b in Cover(item.change)
    ensures frameOf(item.change) == Some(item.frame)
  {
    var changes, items := DirtyChanges(t.queue, t.dirty), R.PendingItems(t, frameOf);
    DirtyChangesExact(t.queue, t.dirty);
    assert t.dirty[id] in changes;
    var i :| 0 <= i < |changes| && changes[i] == t.dirty[id];
    item := items[i];
  }

  lemma {:induction false} MarkedKeyed(t: Tracker, dirty: seq<Change>)
    requires R.Keyed(t)
    ensures R.Keyed(R.MarkedAll(t, dirty))
    decreases |dirty|
  {
    if dirty != [] {
      MarkedKeyed(t, dirty[..|dirty| - 1]);
      MarkDirtyKeepsQueue(R.MarkedAll(t, dirty[..|dirty| - 1]), dirty[|dirty| - 1]);
    }
  }

  /** After a send in which nothing fails, every change of this tick went out, merged with what was pending: each bit
      of it is in a datagram or on the stream, or the serialiser had nothing to send. */
  lemma EveryChangeGoesOut(t: Tracker, dirty: seq<Change>, direct: seq<P.Item>, frameOf: P.Serialiser, first: Token,
                           failAt: Option<nat>, o: R.Sending, n: nat, ch: Change, b: Bit) returns (item: P.Item)
    requires R.Keyed(t) && ch in dirty && ch.id != 0 && b in Cover(ch) && o.ok
    requires direct == [] || (direct == P.Prepared(dirty, frameOf) && |direct| == |dirty|)
    requires var turn := R.EventualPlan(t, dirty, direct, frameOf); R.Performed(turn, first, failAt, o, n) && R.Complete(turn, dirty)
    ensures item.change.id == ch.id && b in Cover(item.change) && frameOf(item.change) == Some(item.frame) && WentOut(o, item)
  {
    var turn := R.EventualPlan(t, dirty, direct, frameOf);
    if turn.pending {
      MergedCovers(t, dirty, ch, b);
      MarkedKeyed(t, dirty);
      item := PendingItem(turn.start, frameOf, ch.id, b);
      AllGoOut(turn.start, turn.items, first, failAt, R.Untidied(turn.start, o), n, item);
    } else {
      var i :| 0 <= i < |dirty| && dirty[i] == ch;
      item := turn.items[i];
      assert turn.items == P.Prepared(dirty, frameOf);
      AllGoOut(turn.start, turn.items, first, failAt, o, n, item);
    }
  }

  /** In a turn of the pass whose sends all succeed, every changed bit of a stayed entity that the session may see
      goes out: in a datagram or over the stream, unless the serialiser has nothing to send of it. */
  lemma DueGoesOut(s: O.State, f: O.Flush, me: SessionId, l: F.Link, frameOf: P.Serialiser, v: F.Visit, id: Id, b: Bit)
    returns (item: P.Item)
    requires F.Visited(s, f, me, l, frameOf, v) && s.datagrams(me) && !v.lost && v.o.ok
    requires R.FlushOk(f) && R.Keyed(O.TrackerOf(s.trackers, me))
    requires id != 0 && O.Stayed(s, f, me, id) && R.Due(s, f, me, id, b)
    ensures item.change.id == id && b in Cover(item.change) && frameOf(item.change) == Some(item.frame) && WentOut(v.o, item)
  {
    var ch :| ch in v.dirty && ch.id == id && b in O.SentBits(s.kinds, ch);
    var dropped: seq<Id> :| (forall x :: x in dropped <==> O.Purged(s, f, me, x)) &&
                            v.service.purged == R.ClearAll(O.TrackerOf(s.trackers, me), dropped);
    R.ClearAllFlavour(O.TrackerOf(s.trackers, me), dropped);
    var turn := R.EventualPlan(v.service.purged, v.dirty, v.direct, frameOf);
    var n :| R.Performed(turn, l.first, l.failAt, v.o, n);
    item := EveryChangeGoesOut(v.service.purged, v.dirty, v.direct, frameOf, l.first, l.failAt, v.o, n, ch, b);
  }
}
