/** The filtered broadcast pass: every session is sent what it may see, and its known set and tracker follow
    (golem/loop.go, golem/owner_replication.go). */
module FilteredPass {
  import opened Datagrams
  import opened Identifiers
  import opened StateTracker
  import opened OwnerRedaction
  import opened OwnerReplication
  import P = Packing
  import I = InterestManager
  import B = BroadcastKnown

  // ---- what the datagrams tell a client ----

  function WireFrame(kinds: map<Id, Kind>, ch: Change): Frame
  {
    if ch.full || (ch.id in kinds && !kinds[ch.id].deltas) then Full(ch.id, !ch.isPublic) else Delta(ch.id, !ch.isPublic)
  }

  function HearWire(kinds: map<Id, Kind>, held: set<Id>, wire: seq<Change>): set<Id>
  {
    if wire == [] then held
    else Hear(HearWire(kinds, held, wire[..|wire| - 1]), WireFrame(kinds, wire[|wire| - 1]))
  }

  /** Only a non-public change can add to what the client holds, and only a public one can take away. */
  lemma {:induction false} HeardOnWire(kinds: map<Id, Kind>, held: set<Id>, wire: seq<Change>, id: Id)
    ensures id in HearWire(kinds, held, wire) && id !in held ==> Listed(wire, id, false)
    ensures id in held && id !in HearWire(kinds, held, wire) ==> Listed(wire, id, true)
  {
    if wire != [] {
      var p, last := wire[..|wire| - 1], wire[|wire| - 1];
      HeardOnWire(kinds, held, p, id);
      ListedAppend(p, [last], id, false);
      ListedAppend(p, [last], id, true);
      assert wire == p + [last];
    }
  }

  // ---- one session ----

  /** The tracker after the pass has forgotten the removed entities, in some order. */
  ghost predicate SweptOf(s: State, t: Tracker, t0: Tracker)
  {
    exists order: seq<Id> :: (forall id :: id in order <==> id in s.removed) && t0 == ClearAll(t, order)
  }

  ghost predicate DiffFor(s: State, f: Flush, session: SessionId, d: I.Diff)
  {
    I.DiffOf(SetOf(s.known, session), Desired(s, f, session), d, SetOf(s.known, session))
  }

  lemma DiffLists(s: State, f: Flush, session: SessionId, d: I.Diff, id: Id)
    requires DiffFor(s, f, session, d)
    ensures id in d.entered <==> Entered(s, f, session, id)
    ensures id in d.stayed <==> Stayed(s, f, session, id)
    ensures id in d.exited <==> Exited(s, f, session, id)
  {
    assert id in d.entered <==> id in ToSet(d.entered);
    assert id in d.stayed <==> id in ToSet(d.stayed);
    assert id in d.exited <==> id in ToSet(d.exited);
  }

  /** The frames a session is sent of one entity. */
  ghost function Expected(s: State, f: Flush, session: SessionId, id: Id): seq<Frame>
  {
    if Entered(s, f, session, id) then [Full(id, Sees(s.kinds, s.owners, session, id))]
    else if Exited(s, f, session, id) then [Removal(id)]
    else if !Stayed(s, f, session, id) then []
    else StayedFrames(s, f, session)(id) + if Concerned(s, session, id) then RefreshFrames(s, session)(id) else []
  }

  /** These frames tell a client who owns it and who does not. */
  lemma ExpectedTells(s: State, f: Flush, session: SessionId, id: Id)
    requires session != NOBODY
    ensures HearEach(id in SetOf(s.held, session), Expected(s, f, session, id)) <==> Told(s, f, session, id)
  {
    var h := id in SetOf(s.held, session);
    if Stayed(s, f, session, id) {
      StayedTells(s, f, session, id, h);
      if Concerned(s, session, id) { RefreshTells(s, f, session, id, StayedFrames(s, f, session)(id), h); }
    }
  }

  lemma StayedTells(s: State, f: Flush, session: SessionId, id: Id, h: bool)
    requires id in s.kinds
    ensures HearEach(h, StayedFrames(s, f, session)(id)) <==>
            if id in s.spawned then Sees(s.kinds, s.owners, session, id)
            else if id in f.deltas && !s.datagrams(session) then Sees(s.kinds, s.owners, session, id) || (s.kinds[id].deltas && h)
            else h
  {
    DeltaTells(s, f, session, id, h);
    var a, b := DeltaFrames(s, f, session, id), StayedFrames(s, f, session)(id);
    assert id !in s.spawned ==> b == a;
  }

  lemma DeltaTells(s: State, f: Flush, session: SessionId, id: Id, h: bool)
    requires id in s.kinds
    ensures HearEach(h, DeltaFrames(s, f, session, id)) <==>
            if id in f.deltas && !s.datagrams(session) then Sees(s.kinds, s.owners, session, id) || (s.kinds[id].deltas && h) else h
  {
    assert HearEach(h, []) == h;
    var a := DeltaFrames(s, f, session, id);
    if a != [] { assert a[..|a| - 1] == []; }
  }

  lemma RefreshTells(s: State, f: Flush, session: SessionId, id: Id, b: seq<Frame>, h: bool)
    requires Concerned(s, session, id) && session != NOBODY
    ensures HearEach(h, b + RefreshFrames(s, session)(id)) <==> s.refresh[id].newOwner == session
  {
    var r := RefreshFrames(s, session)(id);
    assert r != [] && (b + r)[|b + r| - 1] == r[|r| - 1];
  }

  /** What the four stages of the stream batch add up to: what was sent, collected and cleared. */
  ghost predicate Batched(s: State, f: Flush, session: SessionId, stayed: seq<Id>, w: Work, dropped: seq<Id>)
  {
    && (forall id :: FramesOf(w.frames, id) == Expected(s, f, session, id))
    && w.tracker == ClearAll(TrackerOf(s.trackers, session), dropped)
    && (forall id :: id in dropped <==> Purged(s, f, session, id))
    && NoDup(stayed) && (forall id :: id in stayed <==> Stayed(s, f, session, id))
    && (if s.datagrams(session) then Collects(s, f, session, stayed, w.dirty) else w.dirty == [])
  }

  /** The stream frames of one session: entered, stayed, exited, then the ownership refresh. */
  method StreamBatch(s: State, f: Flush, session: SessionId, d: I.Diff, ghost frameOf: P.Serialiser, prepared: map<Id, P.Item>,
                     ownerScopedDeltas: bool, t0: Tracker, c0: Caches) returns (w: Work, ghost dropped: seq<Id>)
    requires session != NOBODY && DiffFor(s, f, session, d) && DeltasOk(s, f, frameOf, prepared, ownerScopedDeltas)
    requires PreparedForAll(s, f, session, prepared, ownerScopedDeltas)
    requires CachesOk(c0, s, f) && SweptOf(s, TrackerOf(s.trackers, session), t0)
    ensures CachesOk(w.caches, s, f) && Batched(s, f, session, d.stayed, w, dropped)
    ensures w.dirty == Collected(s, f, session, d.stayed) && DirectOk(frameOf, ownerScopedDeltas, w.dirty, w.direct)
  {
    var w0 := Work([], t0, [], [], c0);
    forall id ensures id in d.entered || id in d.stayed ==> id in s.kinds { DiffLists(s, f, session, d, id); }
    var w1 := SendEntered(s, f, session, d.entered, w0);
    var w2 := SendStayed(s, f, session, frameOf, prepared, ownerScopedDeltas, d.stayed, w1);
    var w3 := SendExited(s, session, d.exited, w2);
    ghost var refreshed;
    w, refreshed := AppendRefresh(s, f, session, d.stayed, w3);
    StagesSend(s, f, session, d, w0, w1, w2, w3, w, refreshed);
    dropped := StagesDrop(s, f, session, d, t0, w0, w1, w2, w3, w, refreshed);
    forall id ensures id in d.stayed <==> Stayed(s, f, session, id) { DiffLists(s, f, session, d, id); }
    if !s.datagrams(session) { NothingCollected(s, f, session, d.stayed); }
  }

  lemma {:induction false} NothingCollected(s: State, f: Flush, session: SessionId, stayed: seq<Id>)
    requires !s.datagrams(session)
    ensures Collected(s, f, session, stayed) == []
  {
    if stayed != [] { NothingCollected(s, f, session, stayed[..|stayed| - 1]); }
  }

  /** The four stages in a row. */
  ghost predicate Staged(s: State, f: Flush, session: SessionId, d: I.Diff, w0: Work, w1: Work, w2: Work, w3: Work, w4: Work,
                         refreshed: seq<Id>)
  {
    var dg := s.datagrams(session);
    && Stage(w0, w1, ToSet(d.entered), EnteredFrames(s, session), if dg then d.entered else [])
    && Stage(w1, w2, ToSet(d.stayed), StayedFrames(s, f, session), [])
    && Stage(w2, w3, ToSet(d.exited), ExitedFrames(), if dg then d.exited else [])
    && Stage(w3, w4, Refreshed(s, session, d.stayed, {}), RefreshFrames(s, session), refreshed)
  }

  lemma StagesSend(s: State, f: Flush, session: SessionId, d: I.Diff, w0: Work, w1: Work, w2: Work, w3: Work, w4: Work, refreshed: seq<Id>)
    requires DiffFor(s, f, session, d) && w0.frames == [] && Staged(s, f, session, d, w0, w1, w2, w3, w4, refreshed)
    ensures forall id :: FramesOf(w4.frames, id) == Expected(s, f, session, id)
  {
    forall id ensures FramesOf(w4.frames, id) == Expected(s, f, session, id) {
      assert FramesOf(w0.frames, id) == [];
      DiffLists(s, f, session, d, id);
      assert id in Refreshed(s, session, d.stayed, {}) <==> id in d.stayed && Concerned(s, session, id);
      ExpectedInStages(s, f, session, d, id, FramesOf(w1.frames, id), FramesOf(w2.frames, id), FramesOf(w3.frames, id), FramesOf(w4.frames, id));
    }
  }

  lemma ExpectedInStages(s: State, f: Flush, session: SessionId, d: I.Diff, id: Id, f1: seq<Frame>, f2: seq<Frame>, f3: seq<Frame>, f4: seq<Frame>)
    requires DiffFor(s, f, session, d)
    requires f1 == [] + if id in ToSet(d.entered) then EnteredFrames(s, session)(id) else []
    requires f2 == f1 + if id in ToSet(d.stayed) then StayedFrames(s, f, session)(id) else []
    requires f3 == f2 + if id in ToSet(d.exited) then ExitedFrames()(id) else []
    requires f4 == f3 + if id in d.stayed && Concerned(s, session, id) then RefreshFrames(s, session)(id) else []
    ensures f4 == Expected(s, f, session, id)
  {
    DiffLists(s, f, session, d, id);
    assert id in ToSet(d.entered) <==> id in d.entered;
    assert id in ToSet(d.stayed) <==> id in d.stayed;
    assert id in ToSet(d.exited) <==> id in d.exited;
  }

  lemma StagesDrop(s: State, f: Flush, session: SessionId, d: I.Diff, t0: Tracker, w0: Work, w1: Work, w2: Work, w3: Work, w4: Work,
                   refreshed: seq<Id>) returns (dropped: seq<Id>)
    requires DiffFor(s, f, session, d) && Staged(s, f, session, d, w0, w1, w2, w3, w4, refreshed) && w0.tracker == t0
    requires SweptOf(s, TrackerOf(s.trackers, session), t0)
    requires forall id :: id in refreshed <==> id in Refreshed(s, session, d.stayed, {})
    ensures w4.tracker == ClearAll(TrackerOf(s.trackers, session), dropped)
    ensures forall id :: id in dropped <==> Purged(s, f, session, id)
  {
    var t := TrackerOf(s.trackers, session);
    var order: seq<Id> :| (forall id :: id in order <==> id in s.removed) && t0 == ClearAll(t, order);
    var a, c := if s.datagrams(session) then d.entered else [], if s.datagrams(session) then d.exited else [];
    ClearAllAppend(t, order, a);
    assert w2.tracker == w1.tracker;
    ClearAllAppend(t, order + a, c);
    ClearAllAppend(t, order + a + c, refreshed);
    dropped := order + a + c + refreshed;
    forall id ensures id in dropped <==> Purged(s, f, session, id) {
      DiffLists(s, f, session, d, id);
      assert id in Refreshed(s, session, d.stayed, {}) <==> id in d.stayed && Concerned(s, session, id);
    }
  }

  /** How a session's turn goes: whether it is still connected, whether its stream batch goes out, which
      of its datagrams fails, and the tokens it uses. */
  datatype Link = Link(connected: bool, sent: bool, failAt: Option<nat>, first: Token)

  /** A session's turn: what it comes to, the frames of its stream batch, the entities that stayed, this tick's
      changes and prepared frames, how the send went, and whether the session was lost over the stream batch. */
  datatype Visit = Visit(service: Service, frames: seq<Frame>, stayed: seq<Id>, dirty: seq<Change>, direct: seq<P.Item>,
                         o: Sending, lost: bool)

  /** What a turn must achieve. A session lost over its stream batch is not sent any datagrams. */
  ghost predicate Visited(s: State, f: Flush, session: SessionId, l: Link, frameOf: P.Serialiser, v: Visit)
  {
    && (forall id :: FramesOf(v.frames, id) == Expected(s, f, session, id))
    && v.lost == (v.frames != [] && !l.sent)
    && NoDup(v.stayed) && (forall id :: id in v.stayed <==> Stayed(s, f, session, id))
    && (if s.datagrams(session) then Collects(s, f, session, v.stayed, v.dirty) else v.dirty == [])
    && v.dirty == Collected(s, f, session, v.stayed)
    && (v.direct == [] || (v.direct == P.Prepared(v.dirty, frameOf) && |v.direct| == |v.dirty|))
    && (exists dropped: seq<Id> ::
          && (forall id :: id in dropped <==> Purged(s, f, session, id))
          && v.service.purged == ClearAll(TrackerOf(s.trackers, session), dropped))
    && (if s.datagrams(session) && !v.lost then Dispatched(l, frameOf, v) else v.service.tracker == v.service.purged)
  }

  /** The datagrams and what goes with them over the stream are those of this tick's changes and what was pending. */
  ghost predicate Dispatched(l: Link, frameOf: P.Serialiser, v: Visit)
  {
    var turn := EventualPlan(v.service.purged, v.dirty, v.direct, frameOf);
    && v.service.tracker == v.o.tracker && (v.o.ok ==> Complete(turn, v.dirty))
    && exists n :: Performed(turn, l.first, l.failAt, v.o, n)
  }

  /** A connected session's turn in runBroadcastTickFiltered. */
  method ServeSession(s: State, f: Flush, session: SessionId, prepared: map<Id, P.Item>, ownerScopedDeltas: bool,
                      t0: Tracker, c0: Caches, frameOf: P.Serialiser, l: Link)
    returns (c: Caches, v: Visit)
    requires session != NOBODY && DeltasOk(s, f, frameOf, prepared, ownerScopedDeltas)
    requires PreparedForAll(s, f, session, prepared, ownerScopedDeltas) && Keyed(TrackerOf(s.trackers, session))
    requires CachesOk(c0, s, f) && SweptOf(s, TrackerOf(s.trackers, session), t0)
    ensures CachesOk(c, s, f) && Keyed(v.service.tracker) && Served(s, f, session, v.service)
    ensures Visited(s, f, session, l, frameOf, v)
  {
    var d := B.DiffSets(SetOf(s.known, session), Desired(s, f, session));
    var w;
    ghost var dropped;
    w, dropped := StreamBatch(s, f, session, d, frameOf, prepared, ownerScopedDeltas, t0, c0);
    c := w.caches;
    BatchServes(s, f, session, d.stayed, w, dropped);
    DirectIsPrepared(frameOf, ownerScopedDeltas, w.dirty, w.direct);
    var heard := HearAll(SetOf(s.held, session), w.frames);
    var nothing := Sending(w.tracker, [], [], true);
    v := Visit(Service(heard, w.tracker, heard, w.tracker), w.frames, d.stayed, w.dirty, w.direct, nothing, w.frames != [] && !l.sent);
    if s.datagrams(session) && !v.lost {
      v := SendDatagrams(s, f, session, v, ownerScopedDeltas, frameOf, l);
    }
  }

  /** After the stream batch: the datagrams. */
  method SendDatagrams(s: State, ghost f: Flush, session: SessionId, v0: Visit, ghost ownerScopedDeltas: bool,
                       frameOf: P.Serialiser, l: Link) returns (v: Visit)
    requires FitsBudget(frameOf) && Keyed(v0.service.purged) && v0.service.held == v0.service.heard && v0.service.tracker == v0.service.purged
    requires Served(s, f, session, v0.service) && s.datagrams(session) && DirectOk(frameOf, ownerScopedDeltas, v0.dirty, v0.direct)
    requires forall id, pub :: Listed(v0.dirty, id, pub) ==> Offered(s, f, session, id, pub)
    ensures v == v0.(service := v.service, o := v.o) && v.service == v0.service.(held := v.service.held, tracker := v.o.tracker)
    ensures Keyed(v.service.tracker) && Served(s, f, session, v.service) && Dispatched(l, frameOf, v)
  {
    ghost var n;
    var o;
    DirectIsAllOrNone(frameOf, ownerScopedDeltas, v0.dirty, v0.direct);
    o, n := SendSessionEventual(v0.service.purged, v0.dirty, v0.direct, frameOf, l.first, l.failAt);
    var wire := Wire(o.sent, o.streamed);
    var heard := v0.service.heard;
    v := v0.(service := v0.service.(held := HearWire(s.kinds, heard, wire), tracker := o.tracker), o := o);
    forall id
      ensures id in v.service.held && id !in heard ==> Listed(wire, id, false)
      ensures id in heard && id !in v.service.held ==> Listed(wire, id, true)
    {
      HeardOnWire(s.kinds, heard, wire, id);
    }
  }

  lemma DirectIsPrepared(frameOf: P.Serialiser, ownerScopedDeltas: bool, dirty: seq<Change>, direct: seq<P.Item>)
    requires DirectOk(frameOf, ownerScopedDeltas, dirty, direct)
    ensures direct == [] || (direct == P.Prepared(dirty, frameOf) && |direct| == |dirty|)
  {
    if !ownerScopedDeltas {
      assert |P.Prepared(dirty, frameOf)| == |dirty|;
      assert direct == P.Prepared(dirty, frameOf);
    }
  }

  /** The stream batch alone already meets the redaction step. */
  lemma BatchServes(s: State, f: Flush, session: SessionId, stayed: seq<Id>, w: Work, dropped: seq<Id>)
    requires session != NOBODY && FlushOk(f) && Keyed(TrackerOf(s.trackers, session)) && Batched(s, f, session, stayed, w, dropped)
    requires w.dirty == Collected(s, f, session, stayed)
    ensures Keyed(w.tracker)
    ensures var heard := HearAll(SetOf(s.held, session), w.frames); Served(s, f, session, Service(heard, w.tracker, heard, w.tracker))
    ensures forall id, pub :: Listed(w.dirty, id, pub) ==> Offered(s, f, session, id, pub)
  {
    ClearAllFlavour(TrackerOf(s.trackers, session), dropped);
    forall id ensures id in HearAll(SetOf(s.held, session), w.frames) <==> Told(s, f, session, id) {
      HeardFrames(SetOf(s.held, session), w.frames, id);
      ExpectedTells(s, f, session, id);
    }
    forall id, pub | Listed(w.dirty, id, pub) ensures Offered(s, f, session, id, pub) {
      StayedLive(s, f, session, stayed);
      CollectedIsOffered(s, f, session, stayed, id, pub);
    }
  }

  lemma StayedLive(s: State, f: Flush, session: SessionId, stayed: seq<Id>)
    requires forall id :: id in stayed <==> Stayed(s, f, session, id)
    ensures ToSet(stayed) <= s.kinds.Keys
  {
  }

  // ---- the frames prepared for everybody ----

  /** Some listed session takes datagrams. */
  ghost predicate SomeDatagrams(s: State, sessionIDs: seq<SessionId>) { exists x :: x in sessionIDs && s.datagrams(x) }

  /** A change that is to be prepared for everybody does not serialise. */
  ghost predicate Unpreparable(s: State, f: Flush, sessionIDs: seq<SessionId>, frameOf: P.Serialiser)
  {
    && SomeDatagrams(s, sessionIDs) && (forall x :: x in f.deltas ==> !Scoped(s, x))
    && exists x :: x in f.deltas && frameOf(f.deltas[x]).None?
  }

  /** The loops before the sessions' turns: is anything owner-scoped among the flushed changes, and if not, the
      frames of all of them. Fails if one does not serialise. */
  method PrepareFrames(s: State, f: Flush, sessionIDs: seq<SessionId>, frameOf: P.Serialiser)
    returns (prepared: map<Id, P.Item>, ownerScopedDeltas: bool, ok: bool)
    requires FlushOk(f) && FitsBudget(frameOf)
    ensures ok ==> DeltasOk(s, f, frameOf, prepared, ownerScopedDeltas)
    ensures ok ==> forall x :: x in sessionIDs ==> PreparedForAll(s, f, x, prepared, ownerScopedDeltas)
    ensures !ok <==> Unpreparable(s, f, sessionIDs, frameOf)
  {
    ownerScopedDeltas := AnyScoped(s, f);
    var wanted := AnyDatagrams(s, sessionIDs);
    prepared, ok := map[], true;
    if wanted && !ownerScopedDeltas {
      prepared, ok := PrepareAll(f, frameOf);
    }
  }

  method AnyScoped(s: State, f: Flush) returns (any: bool)
    ensures any <==> exists x :: x in f.deltas && Scoped(s, x)
  {
    any := false;
    var rest := f.deltas.Keys;
    while rest != {}
      invariant rest <= f.deltas.Keys && (any <==> exists x :: x in f.deltas && x !in rest && Scoped(s, x))
      decreases rest
    {
      var x :| x in rest;
      rest := rest - {x};
      if x in s.kinds && s.kinds[x].scoped {
        any := true;
      }
    }
  }

  method AnyDatagrams(s: State, sessionIDs: seq<SessionId>) returns (any: bool)
    ensures any <==> SomeDatagrams(s, sessionIDs)
  {
    any := false;
    for i := 0 to |sessionIDs|
      invariant any <==> exists x :: x in sessionIDs[..i] && s.datagrams(x)
    {
      assert sessionIDs[..i + 1] == sessionIDs[..i] + [sessionIDs[i]];
      if s.datagrams(sessionIDs[i]) {
        any := true;
      }
    }
    assert sessionIDs[..|sessionIDs|] == sessionIDs;
  }

  method PrepareAll(f: Flush, frameOf: P.Serialiser) returns (prepared: map<Id, P.Item>, ok: bool)
    ensures ok <==> forall x :: x in f.deltas ==> frameOf(f.deltas[x]).Some?
    ensures ok ==> PreparedOk(f, frameOf, prepared) && prepared.Keys == f.deltas.Keys
  {
    prepared := map[];
    var rest := f.deltas.Keys;
    while rest != {}
      invariant rest <= f.deltas.Keys && PreparedOk(f, frameOf, prepared) && prepared.Keys == f.deltas.Keys - rest
      decreases rest
    {
      var x :| x in rest;
      rest := rest - {x};
      var frame := frameOf(f.deltas[x]);
      if frame.None? {
        return prepared, false;
      }
      prepared := prepared[x := P.Item(f.deltas[x], frame.value)];
    }
    ok := true;
  }

  // ---- the server ----

  ghost predicate AllKeyed(trackers: map<SessionId, Tracker>) { forall x :: x in trackers ==> Keyed(trackers[x]) }

  lemma NothingIsKeyed()
    ensures Keyed(NOTHING_TRACKED)
  {
  }

  /** Every way the pass may serve a session. */
  ghost function Rightly(s: State, f: Flush, link: SessionId -> Link, frameOf: P.Serialiser): iset<(SessionId, Visit)>
  {
    iset x: SessionId, v: Visit | Served(s, f, x, v.service) && Visited(s, f, x, link(x), frameOf, v) :: (x, v)
  }

  /** Turns taken, trackers, what clients hold, and known sets in the middle of a pass. */
  datatype Books = Books(visits: map<SessionId, Visit>, trackers: map<SessionId, Tracker>,
                         held: map<SessionId, set<Id>>, known: map<SessionId, set<Id>>)

  /** What a pass has to do: how sessions may rightly be served, which are connected, what they should know, the
      trackers and known sets it began with, and the sessions on its list. */
  datatype Task = Task(right: iset<(SessionId, Visit)>, link: SessionId -> Link, desired: SessionId -> set<Id>,
                       trackers: map<SessionId, Tracker>, known: map<SessionId, set<Id>>, listed: seq<SessionId>)

  /** The listed sessions before `rest` had their turn; the others are as they were. */
  ghost predicate Kept(b: Books, k: Task, rest: seq<SessionId>) { KeptVisits(b, k, rest) && KeptKnown(b, k, rest) }

  ghost predicate KeptVisits(b: Books, k: Task, rest: seq<SessionId>)
  {
    && (forall x :: x in b.visits <==> x in k.listed && x !in rest && k.link(x).connected)
    && (forall x :: x in b.visits ==>
          && (x, b.visits[x]) in k.right && TrackerOf(b.trackers, x) == b.visits[x].service.tracker
          && SetOf(b.held, x) == b.visits[x].service.held)
    && (forall x :: x !in b.visits ==> TrackerOf(b.trackers, x) == TrackerOf(k.trackers, x))
  }

  ghost predicate KeptKnown(b: Books, k: Task, rest: seq<SessionId>)
  {
    forall x ::
      if x !in k.listed || x in rest then (x in b.known <==> x in k.known) && (x in b.known ==> b.known[x] == k.known[x])
      else if x in b.visits && !b.visits[x].lost then x in b.known && b.known[x] == k.desired(x)
      else x !in b.known
  }

  function Entry(b: Books, x: SessionId, v: Visit, desired: set<Id>): Books
  {
    Books(b.visits[x := v], b.trackers[x := v.service.tracker], b.held[x := v.service.held],
          if v.lost then b.known - {x} else b.known[x := desired])
  }

  lemma KeepServed(b: Books, k: Task, rest: seq<SessionId>, v: Visit)
    requires rest != [] && Kept(b, k, rest) && rest[0] !in rest[1..] && rest[0] in k.listed && (rest[0], v) in k.right
    requires k.link(rest[0]).connected
    ensures Kept(Entry(b, rest[0], v, k.desired(rest[0])), k, rest[1..])
  {
    KeepVisits(b, k, rest, v);
    KeepKnown(b, k, rest, v);
  }

  lemma KeepVisits(b: Books, k: Task, rest: seq<SessionId>, v: Visit)
    requires rest != [] && KeptVisits(b, k, rest) && rest[0] !in rest[1..] && rest[0] in k.listed && (rest[0], v) in k.right
    requires k.link(rest[0]).connected
    ensures KeptVisits(Entry(b, rest[0], v, k.desired(rest[0])), k, rest[1..])
  {
    assert rest == [rest[0]] + rest[1..];
  }

  lemma KeepKnown(b: Books, k: Task, rest: seq<SessionId>, v: Visit)
    requires rest != [] && KeptKnown(b, k, rest) && rest[0] in k.listed && rest[0] !in rest[1..]
    ensures KeptKnown(Entry(b, rest[0], v, k.desired(rest[0])), k, rest[1..])
  {
    assert rest == [rest[0]] + rest[1..];
  }

  lemma KeepSkipped(b: Books, k: Task, rest: seq<SessionId>)
    requires rest != [] && Kept(b, k, rest) && rest[0] !in rest[1..] && rest[0] in k.listed && !k.link(rest[0]).connected
    ensures Kept(b.(known := b.known - {rest[0]}), k, rest[1..])
  {
    assert rest == [rest[0]] + rest[1..];
  }

  ghost function TaskOf(s: State, f: Flush, link: SessionId -> Link, frameOf: P.Serialiser, trackers: map<SessionId, Tracker>,
                        listed: seq<SessionId>): Task
  {
    Task(Rightly(s, f, link, frameOf), link, Wanted(s, f), trackers, s.known, listed)
  }

  function Wanted(s: State, f: Flush): SessionId -> set<Id> { x => Desired(s, f, x) }

  ghost predicate AllSwept(s: State, trackers: map<SessionId, Tracker>)
  {
    forall x :: SweptOf(s, TrackerOf(s.trackers, x), TrackerOf(trackers, x))
  }

  ghost predicate StreamsQuiet(s: State)
  {
    forall x :: !s.datagrams(x) ==> Quiet(TrackerOf(s.trackers, x))
  }

  function ServicesOf(visits: map<SessionId, Visit>): map<SessionId, Service>
  {
    map x | x in visits :: visits[x].service
  }

  /** The pass over the listed sessions: each one that is connected had its turn, was sent exactly what it should
      be, and knows what the policy allows it, unless it was lost over the stream batch; a lost or disconnected
      one is forgotten, one that is not listed is left as it was. */
  ghost predicate Attended(s: State, f: Flush, sessionIDs: seq<SessionId>, link: SessionId -> Link, frameOf: P.Serialiser,
                           visits: map<SessionId, Visit>, known: map<SessionId, set<Id>>)
  {
    && (forall x :: x in visits <==> x in sessionIDs && link(x).connected)
    && (forall x :: x in visits ==> Visited(s, f, x, link(x), frameOf, visits[x]))
    && (forall x ::
          if x !in sessionIDs then (x in known <==> x in s.known) && (x in known ==> known[x] == s.known[x])
          else if x in visits && !visits[x].lost then x in known && known[x] == Desired(s, f, x)
          else x !in known)
  }

  lemma PassAttends(s: State, f: Flush, link: SessionId -> Link, frameOf: P.Serialiser, b: Books, trackers0: map<SessionId, Tracker>,
                    listed: seq<SessionId>)
    requires Kept(b, TaskOf(s, f, link, frameOf, trackers0, listed), [])
    ensures Attended(s, f, listed, link, frameOf, b.visits, b.known)
  {
    AllServed(s, f, link, frameOf, b.visits);
  }

  /** The state when the sessions' turns begin. */
  ghost function Begun(s: State, listed: seq<SessionId>, trackers0: map<SessionId, Tracker>): State
  {
    s.(refresh := map[], spawned := {}, removed := {}, last := OwnersNow(s), trackers := trackers0,
       gone := s.gone + (s.known.Keys - ToSet(listed)))
  }

  lemma PassIsDone(s: State, f: Flush, link: SessionId -> Link, frameOf: P.Serialiser, b: Books, trackers0: map<SessionId, Tracker>,
                   listed: seq<SessionId>)
    requires Kept(b, TaskOf(s, f, link, frameOf, trackers0, listed), [])
    requires AllSwept(s, trackers0) && StreamsQuiet(s)
    ensures var s' := Begun(s, listed, trackers0).(known := b.known, trackers := b.trackers, held := b.held);
            PassedTo(s, f, ToSet(listed), ServicesOf(b.visits), s')
    ensures Attended(s, f, listed, link, frameOf, b.visits, b.known)
  {
    PassAttends(s, f, link, frameOf, b, trackers0, listed);
    PassServes(s, f, link, frameOf, b, trackers0, listed);
    StillQuiet(s, f, ServicesOf(b.visits), b.trackers, trackers0);
    PassKnows(s, f, link, frameOf, b, trackers0, listed);
  }

  lemma PassServes(s: State, f: Flush, link: SessionId -> Link, frameOf: P.Serialiser, b: Books, trackers0: map<SessionId, Tracker>,
                   listed: seq<SessionId>)
    requires KeptVisits(b, TaskOf(s, f, link, frameOf, trackers0, listed), [])
    ensures var services := ServicesOf(b.visits);
            && (forall x :: x in services ==> Served(s, f, x, services[x]) && TrackerOf(b.trackers, x) == services[x].tracker)
            && (forall x :: x in services ==> SetOf(b.held, x) == services[x].held)
            && (forall x :: x !in services ==> TrackerOf(b.trackers, x) == TrackerOf(trackers0, x))
  {
    AllServed(s, f, link, frameOf, b.visits);
  }

  lemma PassKnows(s: State, f: Flush, link: SessionId -> Link, frameOf: P.Serialiser, b: Books, trackers0: map<SessionId, Tracker>,
                  listed: seq<SessionId>)
    requires Kept(b, TaskOf(s, f, link, frameOf, trackers0, listed), [])
    ensures forall x :: x in b.known && x !in ToSet(listed) ==> x in s.known && b.known[x] == s.known[x]
    ensures forall x :: x in b.known && x in ToSet(listed) ==> x in ServicesOf(b.visits) && b.known[x] == Desired(s, f, x)
  {
  }

  lemma AllServed(s: State, f: Flush, link: SessionId -> Link, frameOf: P.Serialiser, visits: map<SessionId, Visit>)
    requires forall x :: x in visits ==> (x, visits[x]) in Rightly(s, f, link, frameOf)
    ensures forall x :: x in visits ==> Served(s, f, x, visits[x].service) && Visited(s, f, x, link(x), frameOf, visits[x])
  {
  }

  /** Sessions without datagrams never have anything pending. */
  lemma StillQuiet(s: State, f: Flush, services: map<SessionId, Service>, trackers: map<SessionId, Tracker>,
                   trackers0: map<SessionId, Tracker>)
    requires StreamsQuiet(s) && AllSwept(s, trackers0)
    requires forall x :: x in services ==> Served(s, f, x, services[x]) && TrackerOf(trackers, x) == services[x].tracker
    requires forall x :: x !in services ==> TrackerOf(trackers, x) == TrackerOf(trackers0, x)
    ensures forall x :: !s.datagrams(x) ==> Quiet(TrackerOf(trackers, x))
  {
    forall x | !s.datagrams(x) ensures Quiet(TrackerOf(trackers, x)) {
      if x in services {
        assert Served(s, f, x, services[x]);
      } else {
        SweptFlavour(s, TrackerOf(s.trackers, x), TrackerOf(trackers0, x));
      }
    }
  }

  lemma SweptFlavour(s: State, t: Tracker, t0: Tracker)
    requires SweptOf(s, t, t0)
    ensures forall id, pub :: HasFlavour(t0, id, pub) <==> HasFlavour(t, id, pub) && id !in s.removed
    ensures Keyed(t) ==> Keyed(t0)
  {
    var order: seq<Id> :| (forall id :: id in order <==> id in s.removed) && t0 == ClearAll(t, order);
    ClearAllFlavour(t, order);
  }

  class Replicator {
    var kinds: map<Id, Kind>
    var owners: map<Id, SessionId>
    var ownershipRefresh: map<Id, Refresh>
    var spawned: set<Id>
    var removed: set<Id>
    var broadcastKnown: map<SessionId, set<Id>>
    var eventualTrackers: map<SessionId, Tracker>
    var held: map<SessionId, set<Id>>  // history: what each client holds
    var last: map<Id, SessionId>       // history: owners at the last pass
    var gone: set<SessionId>           // history: sessions that were missing from a pass's list
    const datagrams: SessionId -> bool

    ghost predicate Valid()
      reads this
    {
      AllKeyed(eventualTrackers)
    }

    function View(): State
      reads this
    {
      State(kinds, owners, ownershipRefresh, last, spawned, removed, broadcastKnown, eventualTrackers, held, gone, datagrams)
    }

    constructor (datagrams: SessionId -> bool)
      ensures Valid() && View() == Start(datagrams)
    {
      kinds, owners, ownershipRefresh, spawned, removed := map[], map[], map[], {}, {};
      broadcastKnown, eventualTrackers, held, last, gone := map[], map[], map[], map[], {};
      this.datagrams := datagrams;
    }

    /** CreateEntity, with an owner or with none. */
    method CreateEntity(id: Id, kind: Kind, owner: SessionId) returns (ok: bool)
      modifies this`kinds, this`owners, this`last, this`spawned
      ensures ok == (id !in old(kinds)) && View() == Created(old(View()), id, kind, owner)
      ensures ok ==> kinds == old(kinds)[id := kind] && spawned == old(spawned) + {id} && OwnerOf(owners, id) == owner
      ensures forall x :: x != id || !ok ==> OwnerOf(owners, x) == OwnerOf(old(owners), x)
    {
      if id in kinds {
        return false;
      }
      kinds := kinds[id := kind];
      owners := if owner == NOBODY then owners - {id} else owners[id := owner];
      last := last[id := owner];
      spawned := spawned + {id};
      return true;
    }

    method DeleteEntity(id: Id)
      modifies this`kinds, this`owners, this`last, this`removed
      ensures View() == Deleted(old(View()), id)
      ensures kinds == old(kinds) - {id} && (id in old(kinds) ==> removed == old(removed) + {id} && id !in owners)
    {
      if id in kinds {
        kinds, owners, last := kinds - {id}, owners - {id}, last - {id};
        removed := removed + {id};
      }
    }

    method SetOwner(id: Id, session: SessionId) returns (ok: bool)
      modifies this`owners, this`ownershipRefresh
      ensures ok == (id in kinds) && View() == OwnerSet(old(View()), id, session)
    {
      if id !in kinds {
        return false;
      }
      var oldOwner := if id in owners then owners[id] else NOBODY;
      if oldOwner == session {
        return true;
      }
      owners := if session == NOBODY then owners - {id} else owners[id := session];
      if kinds[id].scoped {
        QueueOwnershipRefresh(id, oldOwner, session);
      }
      return true;
    }

    method QueueOwnershipRefresh(id: Id, oldOwner: SessionId, newOwner: SessionId)
      modifies this`ownershipRefresh
      ensures ownershipRefresh == Queue(old(ownershipRefresh), id, oldOwner, newOwner)
    {
      if oldOwner == newOwner {
        return;
      }
      var clearOwner := if id in ownershipRefresh then ownershipRefresh[id].clearOwner else oldOwner;
      if clearOwner == newOwner {
        ownershipRefresh := ownershipRefresh - {id};
        return;
      }
      ownershipRefresh := ownershipRefresh[id := Refresh(clearOwner, newOwner)];
    }

    method SnapshotOwnershipRefresh() returns (out: map<Id, Refresh>)
      modifies this`ownershipRefresh
      ensures out == old(ownershipRefresh) && ownershipRefresh == map[]
    {
      out := ownershipRefresh;
      ownershipRefresh := map[];
    }

    /** clearEventualEntities: every tracker forgets the removed entities. */
    method ClearRemoved()
      requires Valid()
      modifies this`eventualTrackers
      ensures Valid()
      ensures AllSwept(old(View()), eventualTrackers)
    {
      var rest := eventualTrackers.Keys;
      ghost var was, s := eventualTrackers, View();
      forall x | x !in was ensures SweptOf(s, TrackerOf(was, x), TrackerOf(eventualTrackers, x)) { SweptNothing(s); }
      while rest != {}
        invariant Valid() && eventualTrackers.Keys == was.Keys && rest <= was.Keys
        invariant forall x :: x in rest ==> eventualTrackers[x] == was[x]
        invariant forall x :: x !in rest ==> SweptOf(s, TrackerOf(was, x), TrackerOf(eventualTrackers, x))
        decreases rest
      {
        var x :| x in rest;
        rest := rest - {x};
        var t := Swept(s, eventualTrackers[x], removed);
        eventualTrackers := eventualTrackers[x := t];
      }
    }

    ghost function Ledger(visits: map<SessionId, Visit>): Books
      reads this
    {
      Books(visits, eventualTrackers, held, broadcastKnown)
    }

    /** One turn of the loop over the sessions. */
    method Turn(s: State, f: Flush, prepared: map<Id, P.Item>, ownerScopedDeltas: bool, sid: SessionId, link: SessionId -> Link,
                frameOf: P.Serialiser, visits0: map<SessionId, Visit>, c0: Caches,
                ghost trackers0: map<SessionId, Tracker>, ghost listed: seq<SessionId>, ghost rest: seq<SessionId>)
      returns (visits: map<SessionId, Visit>, c: Caches)
      requires Valid() && DeltasOk(s, f, frameOf, prepared, ownerScopedDeltas) && CachesOk(c0, s, f)
      requires sid != NOBODY && sid in listed && rest != [] && rest[0] == sid && sid !in rest[1..]
      requires PreparedForAll(s, f, sid, prepared, ownerScopedDeltas) && Keyed(TrackerOf(s.trackers, sid))
      requires SweptOf(s, TrackerOf(s.trackers, sid), TrackerOf(trackers0, sid))
      requires Kept(Ledger(visits0), TaskOf(s, f, link, frameOf, trackers0, listed), rest)
      modifies this`broadcastKnown, this`eventualTrackers, this`held
      ensures Valid() && CachesOk(c, s, f)
      ensures Kept(Ledger(visits), TaskOf(s, f, link, frameOf, trackers0, listed), rest[1..])
    {
      visits, c := visits0, c0;
      if !link(sid).connected {
        KeepSkipped(Ledger(visits), TaskOf(s, f, link, frameOf, trackers0, listed), rest);
        broadcastKnown := broadcastKnown - {sid};
        return;
      }
      var caches, v := ServeSession(s, f, sid, prepared, ownerScopedDeltas,
        TrackerOf(eventualTrackers, sid), c, frameOf, link(sid));
      assert (sid, v) in Rightly(s, f, link, frameOf);
      KeepServed(Ledger(visits), TaskOf(s, f, link, frameOf, trackers0, listed), rest, v);
      c := caches;
      Record(sid, v, Desired(s, f, sid), visits);
      visits := visits[sid := v];
    }

    /** What is kept of a turn. */
    method Record(sid: SessionId, v: Visit, desired: set<Id>, ghost visits: map<SessionId, Visit>)
      requires Valid() && Keyed(v.service.tracker)
      modifies this`broadcastKnown, this`eventualTrackers, this`held
      ensures Valid() && Ledger(visits[sid := v]) == Entry(old(Ledger(visits)), sid, v, desired)
    {
      eventualTrackers := eventualTrackers[sid := v.service.tracker];
      held := held[sid := v.service.held];
      broadcastKnown := if v.lost then broadcastKnown - {sid} else broadcastKnown[sid := desired];
    }

    /** The loop over the sessions. */
    method AllTurns(s: State, f: Flush, prepared: map<Id, P.Item>, ownerScopedDeltas: bool,
                    sessionIDs: seq<SessionId>, link: SessionId -> Link, frameOf: P.Serialiser)
      returns (visits: map<SessionId, Visit>)
      requires Valid() && DeltasOk(s, f, frameOf, prepared, ownerScopedDeltas) && AllKeyed(s.trackers)
      requires NOBODY !in sessionIDs && NoDup(sessionIDs) && AllSwept(s, eventualTrackers)
      requires forall x :: x in sessionIDs ==> PreparedForAll(s, f, x, prepared, ownerScopedDeltas)
      requires broadcastKnown == s.known
      modifies this`broadcastKnown, this`eventualTrackers, this`held
      ensures Valid() && Kept(Ledger(visits), TaskOf(s, f, link, frameOf, old(eventualTrackers), sessionIDs), [])
    {
      visits := map[];
      var c := Caches(map[], map[], map[], map[]);
      for i := 0 to |sessionIDs|
        invariant Valid() && CachesOk(c, s, f)
        invariant Kept(Ledger(visits), TaskOf(s, f, link, frameOf, old(eventualTrackers), sessionIDs), sessionIDs[i..])
      {
        assert sessionIDs[i..][0] == sessionIDs[i] && sessionIDs[i..][1..] == sessionIDs[i + 1..];
        NothingIsKeyed();
        visits, c := Turn(s, f, prepared, ownerScopedDeltas, sessionIDs[i], link, frameOf, visits, c,
                          old(eventualTrackers), sessionIDs, sessionIDs[i..]);
      }
    }

    /** runBroadcastTickFiltered, on what is sent to whom. It fails before anything is sent if a change that is to
        be prepared for everybody does not serialise. */
    method RunFilteredPass(f: Flush, sessionIDs: seq<SessionId>, link: SessionId -> Link, frameOf: P.Serialiser)
      returns (visits: map<SessionId, Visit>, ok: bool)
      requires Valid() && FlushOk(f) && FitsBudget(frameOf) && StreamsQuiet(View())
      requires NOBODY !in sessionIDs && NoDup(sessionIDs)
      modifies this`ownershipRefresh, this`spawned, this`removed, this`broadcastKnown, this`eventualTrackers,
               this`held, this`last, this`gone
      ensures Valid()
      ensures ok ==> PassedTo(old(View()), f, ToSet(sessionIDs), ServicesOf(visits), View())
      ensures ok ==> Attended(old(View()), f, sessionIDs, link, frameOf, visits, broadcastKnown)
      ensures !ok <==> Unpreparable(old(View()), f, sessionIDs, frameOf)
      ensures !ok ==> visits == map[] && broadcastKnown == old(broadcastKnown) && held == old(held) &&
                      ownershipRefresh == old(ownershipRefresh)
    {
      var s := View();
      ClearRemoved();
      spawned, removed := {}, {};
      var prepared, ownerScopedDeltas;
      prepared, ownerScopedDeltas, ok := PrepareFrames(s, f, sessionIDs, frameOf);
      if !ok {
        return map[], false;
      }
      visits := ServeAll(s, f, prepared, ownerScopedDeltas, sessionIDs, link, frameOf);
    }

    method BeginTurns(s: State, sessionIDs: seq<SessionId>)
      requires View() == s.(spawned := {}, removed := {}, trackers := eventualTrackers)
      modifies this`ownershipRefresh, this`last, this`gone
      ensures View() == Begun(s, sessionIDs, eventualTrackers)
    {
      var _ := SnapshotOwnershipRefresh();
      last, gone := OwnersNow(s), gone + (s.known.Keys - ToSet(sessionIDs));
    }

    /** The part after the preparations. */
    method ServeAll(s: State, f: Flush, prepared: map<Id, P.Item>, ownerScopedDeltas: bool,
                    sessionIDs: seq<SessionId>, link: SessionId -> Link, frameOf: P.Serialiser)
      returns (visits: map<SessionId, Visit>)
      requires Valid() && DeltasOk(s, f, frameOf, prepared, ownerScopedDeltas) && StreamsQuiet(s) && AllKeyed(s.trackers)
      requires NOBODY !in sessionIDs && NoDup(sessionIDs) && AllSwept(s, eventualTrackers)
      requires forall x :: x in sessionIDs ==> PreparedForAll(s, f, x, prepared, ownerScopedDeltas)
      requires View() == s.(spawned := {}, removed := {}, trackers := eventualTrackers)
      modifies this`ownershipRefresh, this`broadcastKnown, this`eventualTrackers, this`held, this`last, this`gone
      ensures Valid() && PassedTo(s, f, ToSet(sessionIDs), ServicesOf(visits), View())
      ensures Attended(s, f, sessionIDs, link, frameOf, visits, broadcastKnown)
    {
      ghost var trackers0 := eventualTrackers;
      BeginTurns(s, sessionIDs);
      visits := AllTurns(s, f, prepared, ownerScopedDeltas, sessionIDs, link, frameOf);
      PassIsDone(s, f, link, frameOf, Ledger(visits), trackers0, sessionIDs);
    }
  }

  lemma SweptNothing(s: State)
    ensures SweptOf(s, NOTHING_TRACKED, NOTHING_TRACKED)
  {
    var order := Listing(s.removed);
    ClearNothing(order);
  }

  lemma {:induction false} ClearNothing(ids: seq<Id>)
    ensures ClearAll(NOTHING_TRACKED, ids) == NOTHING_TRACKED
  {
    if ids != [] {
      ClearNothing(ids[..|ids| - 1]);
      assert ClearEntity(NOTHING_TRACKED, ids[|ids| - 1]) == NOTHING_TRACKED;
    }
  }

  ghost function Listing(ids: set<Id>): (r: seq<Id>)
    ensures forall id :: id in r <==> id in ids
  {
    if ids == {} then [] else var id :| id in ids; Listing(ids - {id}) + [id]
  }

  /** One tracker forgets the given entities. */
  method Swept(ghost s: State, t0: Tracker, ids: set<Id>) returns (t: Tracker)
    requires Keyed(t0) && ids == s.removed
    ensures Keyed(t) && SweptOf(s, t0, t)
  {
    t := t0;
    var rest := ids;
    ghost var order: seq<Id> := [];
    while rest != {}
      invariant rest <= ids && t == ClearAll(t0, order)
      invariant forall id :: id in order <==> id in ids && id !in rest
      decreases rest
    {
      var id :| id in rest;
      rest := rest - {id};
      ClearOne(t, id);
      ClearAllAppend(t0, order, [id]);
      t := ClearEntity(t, id);
      order := order + [id];
    }
    ClearAllFlavour(t0, order);
  }
}
