/** The code that sends each session what it may see (golem/owner_replication.go, golem/loop.go). */
module OwnerReplication {
  import opened Datagrams
  import opened Identifiers
  import opened StateTracker
  import opened OwnerRedaction
  import P = Packing
  import I = InterestManager
  import B = BroadcastKnown

  // ---- frames and what a client keeps of them ----

  /** A serialised update; `auth` ones include the owner-only fields. */
  datatype Frame = Full(id: Id, auth: bool) | Delta(id: Id, auth: bool) | Removal(id: Id)

  function Hear(held: set<Id>, f: Frame): set<Id>
  {
    match f
    case Full(id, auth) => if auth then held + {id} else held - {id}
    case Delta(id, auth) => if auth then held + {id} else held
    case Removal(id) => held - {id}
  }

  function HearAll(held: set<Id>, frames: seq<Frame>): set<Id>
  {
    if frames == [] then held else Hear(HearAll(held, frames[..|frames| - 1]), frames[|frames| - 1])
  }

  /** The frames about one entity, in the order sent. */
  ghost function FramesOf(frames: seq<Frame>, id: Id): seq<Frame>
  {
    if frames == [] then []
    else
      var r, last := FramesOf(frames[..|frames| - 1], id), frames[|frames| - 1];
      if last.id == id then r + [last] else r
  }

  lemma FramesOneMore(frames: seq<Frame>, f: Frame, id: Id)
    ensures FramesOf(frames + [f], id) == FramesOf(frames, id) + if f.id == id then [f] else []
  {
    assert (frames + [f])[..|frames|] == frames;
  }

  /** Whether the client holds an entity's owner-only fields after the frames about it. */
  ghost function HearEach(holds: bool, frames: seq<Frame>): bool
  {
    if frames == [] then holds
    else
      match frames[|frames| - 1]
      case Full(_, auth) => auth
      case Delta(_, auth) => auth || HearEach(holds, frames[..|frames| - 1])
      case Removal(_) => false
  }

  lemma {:induction false} HeardFrames(held: set<Id>, frames: seq<Frame>, id: Id)
    ensures id in HearAll(held, frames) <==> HearEach(id in held, FramesOf(frames, id))
  {
    if frames != [] {
      var p, last := frames[..|frames| - 1], frames[|frames| - 1];
      HeardFrames(held, p, id);
      if last.id == id { assert (FramesOf(p, id) + [last])[..|FramesOf(p, id)|] == FramesOf(p, id); }
    }
  }

  // ---- the per-tick caches ----

  /** Authoritative and public frames are cached separately, so neither can stand in for the other. */
  datatype Caches = Caches(full: map<Id, Frame>, publicFull: map<Id, Frame>,
                           delta: map<Id, Frame>, publicDelta: map<Id, Option<Frame>>)

  ghost predicate CachesOk(c: Caches, s: State, f: Flush)
  {
    && (forall id :: id in c.full ==> c.full[id] == Full(id, true))
    && (forall id :: id in c.publicFull ==> c.publicFull[id] == Full(id, false))
    && (forall id :: id in c.delta ==> c.delta[id] == Delta(id, true))
    && (forall id :: id in c.publicDelta && id in s.kinds && id in f.deltas ==>
          c.publicDelta[id] == PublicDelta(s.kinds[id], f.deltas[id], f.marshals))
  }

  /** The public part of a delta: everything when the entity cannot be sent in parts, nothing when no
      public bit changed or the entity has nothing to say about those. */
  function PublicDelta(kind: Kind, ch: Change, marshals: (Id, Bits) -> bool): Option<Frame>
  {
    if !kind.deltas then Some(Full(ch.id, false))
    else if ch.mask * kind.publicMask == {} || !marshals(ch.id, ch.mask * kind.publicMask) then None
    else Some(Delta(ch.id, false))
  }

  /** wrappedFullForSession: the owner's variant for the owner, the public one for everybody else. */
  method WrappedFull(s: State, ghost f: Flush, session: SessionId, id: Id, c0: Caches)
    returns (frame: Option<Frame>, c: Caches)
    requires CachesOk(c0, s, f)
    ensures CachesOk(c, s, f)
    ensures frame == if id in s.kinds then Some(Full(id, Sees(s.kinds, s.owners, session, id))) else None
  {
    c := c0;
    if id !in s.kinds {
      return None, c;
    }
    if s.kinds[id].scoped && !Owns(s.owners, session, id) {
      if id in c.publicFull {
        return Some(c.publicFull[id]), c;
      }
      c := c.(publicFull := c.publicFull[id := Full(id, false)]);
      return Some(Full(id, false)), c;
    }
    if id in c.full {
      return Some(c.full[id]), c;
    }
    c := c.(full := c.full[id := Full(id, true)]);
    return Some(Full(id, true)), c;
  }

  /** streamDeltaForSession. */
  method StreamDelta(s: State, f: Flush, session: SessionId, id: Id, c0: Caches)
    returns (frame: Option<Frame>, c: Caches)
    requires CachesOk(c0, s, f) && id in f.deltas && f.deltas[id].id == id
    ensures CachesOk(c, s, f)
    ensures frame == if id !in s.kinds then None
                     else if Sees(s.kinds, s.owners, session, id) then Some(Delta(id, true))
                     else PublicDelta(s.kinds[id], f.deltas[id], f.marshals)
  {
    c := c0;
    if id !in s.kinds {
      return None, c;
    }
    var kind := s.kinds[id];
    if !kind.scoped || Owns(s.owners, session, id) {
      if id in c.delta {
        return Some(c.delta[id]), c;
      }
      c := c.(delta := c.delta[id := Delta(id, true)]);
      return Some(Delta(id, true)), c;
    }
    if id in c.publicDelta {
      return c.publicDelta[id], c;
    }
    if !kind.deltas {
      frame := Some(Full(id, false));
    } else {
      var mask := f.deltas[id].mask * kind.publicMask;
      frame := if mask == {} || !f.marshals(id, mask) then None else Some(Delta(id, false));
    }
    CachePublicDelta(s, f, id, c);
    c := c.(publicDelta := c.publicDelta[id := frame]);
  }

  lemma CachePublicDelta(s: State, f: Flush, id: Id, c: Caches)
    requires CachesOk(c, s, f) && id in s.kinds && id in f.deltas
    ensures CachesOk(c.(publicDelta := c.publicDelta[id := PublicDelta(s.kinds[id], f.deltas[id], f.marshals)]), s, f)
  {
  }

  // ---- one session's stream batch ----

  /** Pending changes are filed under their entity, and the queue lists each once. */
  ghost predicate Keyed(t: Tracker) { QueueOk(t) && forall x :: x in t.dirty ==> t.dirty[x].id == x }

  /** clearEventualEntity, for one entity after the other. */
  ghost function ClearAll(t: Tracker, ids: seq<Id>): Tracker
  {
    if ids == [] then t else ClearEntity(ClearAll(t, ids[..|ids| - 1]), ids[|ids| - 1])
  }

  lemma {:induction false} ClearAllFlavour(t: Tracker, ids: seq<Id>)
    ensures forall id, pub :: HasFlavour(ClearAll(t, ids), id, pub) <==> HasFlavour(t, id, pub) && id !in ids
    ensures Keyed(t) ==> Keyed(ClearAll(t, ids))
  {
    if ids != [] {
      var p, last := ids[..|ids| - 1], ids[|ids| - 1];
      ClearAllFlavour(t, p);
      ClearFlavour(ClearAll(t, p), last);
      assert ids == p + [last];
    }
  }

  lemma {:induction false} ClearAllAppend(t: Tracker, a: seq<Id>, b: seq<Id>)
    ensures ClearAll(t, a + b) == ClearAll(ClearAll(t, a), b)
    decreases |b|
  {
    if b == [] {
      assert a + b == a;
    } else {
      var p, last := b[..|b| - 1], b[|b| - 1];
      ClearAllAppend(t, a, p);
      assert (a + b)[..|a + b| - 1] == a + p;
    }
  }

  /** What is being put together for a session. */
  datatype Work = Work(frames: seq<Frame>, tracker: Tracker, dirty: seq<Change>, direct: seq<P.Item>, caches: Caches)

  /** From one stage of the batch to the next: of each entity in `ids` the client is sent exactly `sent`, of
      others nothing; and what was pending for the entities in `dropped` is cleared. */
  ghost predicate Stage(w: Work, w': Work, ids: set<Id>, sent: Id -> seq<Frame>, dropped: seq<Id>)
  {
    && (forall id :: FramesOf(w'.frames, id) == FramesOf(w.frames, id) + if id in ids then sent(id) else [])
    && w'.tracker == ClearAll(w.tracker, dropped)
  }

  predicate SameChanges(w: Work, w0: Work) { w.dirty == w0.dirty && w.direct == w0.direct }

  function Add(w: Work, f: Frame): Work { w.(frames := w.frames + [f]) }

  /** The frames of one more entity. */
  ghost predicate Sends(w1: Work, w2: Work, id: Id, frames: seq<Frame>)
  {
    forall x :: FramesOf(w2.frames, x) == FramesOf(w1.frames, x) + if x == id then frames else []
  }

  lemma SendsOne(w: Work, f: Frame)
    ensures Sends(w, Add(w, f), f.id, [f])
  {
    forall x ensures FramesOf(Add(w, f).frames, x) == FramesOf(w.frames, x) + if x == f.id then [f] else [] {
      FramesOneMore(w.frames, f, x);
    }
  }

  lemma SendsBoth(w1: Work, w2: Work, w3: Work, id: Id, a: seq<Frame>, b: seq<Frame>)
    requires Sends(w1, w2, id, a) && Sends(w2, w3, id, b)
    ensures Sends(w1, w3, id, a + b)
  {
  }

  lemma StageStep(w: Work, w1: Work, w2: Work, ids: set<Id>, sent: Id -> seq<Frame>, dropped: seq<Id>, id: Id, more: seq<Id>)
    requires Stage(w, w1, ids, sent, dropped) && id !in ids
    requires Sends(w1, w2, id, sent(id)) && w2.tracker == ClearAll(w1.tracker, more)
    ensures Stage(w, w2, ids + {id}, sent, dropped + more)
  {
    ClearAllAppend(w.tracker, dropped, more);
  }

  lemma ClearOne(t: Tracker, id: Id)
    ensures ClearAll(t, [id]) == ClearEntity(t, id)
  {
    assert [id][..0] == [];
  }

  ghost function EnteredFrames(s: State, session: SessionId): Id -> seq<Frame>
  {
    id => [Full(id, Sees(s.kinds, s.owners, session, id))]
  }

  /** The loop over entered entities. */
  method SendEntered(s: State, ghost f: Flush, session: SessionId, entered: seq<Id>, w0: Work) returns (w: Work)
    requires CachesOk(w0.caches, s, f) && NoDup(entered) && ToSet(entered) <= s.kinds.Keys
    ensures CachesOk(w.caches, s, f) && SameChanges(w, w0)
    ensures Stage(w0, w, ToSet(entered), EnteredFrames(s, session), if s.datagrams(session) then entered else [])
  {
    w := w0;
    for i := 0 to |entered|
      invariant CachesOk(w.caches, s, f) && SameChanges(w, w0)
      invariant Stage(w0, w, ToSet(entered[..i]), EnteredFrames(s, session), if s.datagrams(session) then entered[..i] else [])
    {
      var id := entered[i];
      Prefix(entered, i);
      ghost var w1 := w;
      var frame, caches := WrappedFull(s, f, session, id, w.caches);
      assert id in ToSet(entered);
      if s.datagrams(session) {
        ClearOne(w.tracker, id);
        w := w.(tracker := ClearEntity(w.tracker, id));
      }
      SendsOne(w, frame.value);
      w := Add(w.(caches := caches), frame.value);
      StageStep(w0, w1, w, ToSet(entered[..i]), EnteredFrames(s, session), if s.datagrams(session) then entered[..i] else [],
                id, if s.datagrams(session) then [id] else []);
    }
    assert entered[..|entered|] == entered;
  }

  lemma Prefix(ids: seq<Id>, i: nat)
    requires NoDup(ids) && i < |ids|
    ensures ToSet(ids[..i + 1]) == ToSet(ids[..i]) + {ids[i]} && ids[i] !in ToSet(ids[..i]) && ids[..i + 1] == ids[..i] + [ids[i]]
  {
    assert ids[..i + 1] == ids[..i] + [ids[i]];
  }

  ghost function ExitedFrames(): Id -> seq<Frame> { id => [Removal(id)] }

  /** The loop over exited entities. */
  method SendExited(s: State, session: SessionId, exited: seq<Id>, w0: Work) returns (w: Work)
    requires NoDup(exited)
    ensures w.caches == w0.caches && SameChanges(w, w0)
    ensures Stage(w0, w, ToSet(exited), ExitedFrames(), if s.datagrams(session) then exited else [])
  {
    w := w0;
    for i := 0 to |exited|
      invariant w.caches == w0.caches && SameChanges(w, w0)
      invariant Stage(w0, w, ToSet(exited[..i]), ExitedFrames(), if s.datagrams(session) then exited[..i] else [])
    {
      var id := exited[i];
      Prefix(exited, i);
      ghost var w1 := w;
      if s.datagrams(session) {
        ClearOne(w.tracker, id);
        w := w.(tracker := ClearEntity(w.tracker, id));
      }
      SendsOne(w, Removal(id));
      w := Add(w, Removal(id));
      StageStep(w0, w1, w, ToSet(exited[..i]), ExitedFrames(), if s.datagrams(session) then exited[..i] else [],
                id, if s.datagrams(session) then [id] else []);
    }
    assert exited[..|exited|] == exited;
  }

  // ---- entities that stayed ----

  /** The flushed changes are complete ones, filed under their entity. */
  ghost predicate FlushOk(f: Flush) { forall id :: id in f.deltas ==> f.deltas[id].id == id && !f.deltas[id].isPublic }

  /** The changes prepared once for everybody, when no flushed entity is owner-scoped. */
  ghost predicate PreparedOk(f: Flush, frameOf: P.Serialiser, prepared: map<Id, P.Item>)
  {
    forall id :: id in prepared ==>
      id in f.deltas && frameOf(f.deltas[id]).Some? && prepared[id] == P.Item(f.deltas[id], frameOf(f.deltas[id]).value)
  }

  ghost predicate DeltasOk(s: State, f: Flush, frameOf: P.Serialiser, prepared: map<Id, P.Item>, ownerScopedDeltas: bool)
  {
    && FlushOk(f) && PreparedOk(f, frameOf, prepared) && FitsBudget(frameOf)
    && (ownerScopedDeltas <==> exists x :: x in f.deltas && Scoped(s, x))
  }

  /** With a datagram session on the list and nothing owner-scoped among them, all changes are prepared. */
  ghost predicate PreparedForAll(s: State, f: Flush, session: SessionId, prepared: map<Id, P.Item>, ownerScopedDeltas: bool)
  {
    s.datagrams(session) && !ownerScopedDeltas ==> prepared.Keys == f.deltas.Keys
  }

  /** This tick's changes as the session is to be told them, in the order of the stayed entities. */
  ghost function Collected(s: State, f: Flush, session: SessionId, stayed: seq<Id>): seq<Change>
  {
    if stayed == [] then []
    else
      var id := stayed[|stayed| - 1];
      Collected(s, f, session, stayed[..|stayed| - 1]) +
        if s.datagrams(session) && id in f.deltas then ChangeFor(s.kinds, s.owners, session, f.deltas[id]) else []
  }

  /** A changed bit that the session may see. */
  predicate Due(s: State, f: Flush, session: SessionId, id: Id, b: Bit)
  {
    && id in f.deltas && id in s.kinds && b in Cover(f.deltas[id])
    && (!s.kinds[id].scoped || Owns(s.owners, session, id) || b in s.kinds[id].publicMask)
  }

  /** The collected changes: every bit that is due of a stayed entity is in one of them, and nothing else is;
      each is public exactly for a session that does not own the owner-scoped entity; at most one for each
      entity, in the order of the stayed entities. */
  ghost predicate Collects(s: State, f: Flush, session: SessionId, stayed: seq<Id>, dirty: seq<Change>)
  {
    && (forall id, b :: id in stayed && Due(s, f, session, id, b) ==>
          exists ch :: ch in dirty && ch.id == id && b in SentBits(s.kinds, ch))
    && (forall ch :: ch in dirty ==>
          && ch.id in stayed && ch.id in f.deltas && ch.full == f.deltas[ch.id].full
          && (ch.isPublic <==> !Sees(s.kinds, s.owners, session, ch.id))
          && forall b :: b in SentBits(s.kinds, ch) ==> Due(s, f, session, ch.id, b))
    && (forall i, j :: 0 <= i < j < |dirty| ==> Precedes(stayed, dirty[i].id, dirty[j].id))
  }

  lemma {:induction false} CollectedExactly(s: State, f: Flush, session: SessionId, stayed: seq<Id>)
    requires FlushOk(f) && NoDup(stayed) && ToSet(stayed) <= s.kinds.Keys && s.datagrams(session)
    ensures Collects(s, f, session, stayed, Collected(s, f, session, stayed))
  {
    if stayed != [] {
      var p, id := stayed[..|stayed| - 1], stayed[|stayed| - 1];
      assert stayed == p + [id] && ToSet(p) <= ToSet(stayed) && id in ToSet(stayed);
      CollectedExactly(s, f, session, p);
      CollectsOneMore(s, f, session, p, id, Collected(s, f, session, p),
                      if id in f.deltas then ChangeFor(s.kinds, s.owners, session, f.deltas[id]) else []);
    }
  }

  lemma CollectsOneMore(s: State, f: Flush, session: SessionId, p: seq<Id>, id: Id, dirty: seq<Change>, more: seq<Change>)
    requires FlushOk(f) && id in s.kinds && Collects(s, f, session, p, dirty) && id !in p
    requires more == if id in f.deltas then ChangeFor(s.kinds, s.owners, session, f.deltas[id]) else []
    ensures Collects(s, f, session, p + [id], dirty + more)
  {
    var all := dirty + more;
    if id in f.deltas {
      forall b ensures (exists c :: c in more && b in SentBits(s.kinds, c)) <==> Due(s, f, session, id, b) {
        AdaptedExactly(s.kinds, s.owners, session, f.deltas[id], b);
      }
      AdaptedExactly(s.kinds, s.owners, session, f.deltas[id], 0);
    }
    forall x, b | x in p + [id] && Due(s, f, session, x, b)
      ensures exists ch :: ch in all && ch.id == x && b in SentBits(s.kinds, ch)
    {
      if x == id {
        var ch :| ch in more && b in SentBits(s.kinds, ch);
        assert ch in all && ch.id == x;
      } else {
        var ch :| ch in dirty && ch.id == x && b in SentBits(s.kinds, ch);
        assert ch in all;
      }
    }
    forall i, j | 0 <= i < j < |all| ensures Precedes(p + [id], all[i].id, all[j].id) {
      PrecedesLast(p, id, all[i].id, all[j].id);
      assert all[i] in dirty;
      if j >= |dirty| { assert all[j] in more; }
    }
  }

  /** Prepared frames are there for all the collected changes or for none. */
  ghost predicate AllOrNone(dirty: seq<Change>, direct: seq<P.Item>)
  {
    (direct == [] || P.Changes(direct) == dirty) && P.AllFit(direct)
  }

  /** What is sent without serialising again: everything, as the serialiser has it, unless something owner-scoped
      was flushed. */
  ghost predicate DirectOk(frameOf: P.Serialiser, ownerScopedDeltas: bool, dirty: seq<Change>, direct: seq<P.Item>)
  {
    if ownerScopedDeltas then direct == []
    else
      && |direct| == |dirty|
      && forall i :: 0 <= i < |dirty| ==>
           frameOf(dirty[i]).Some? && direct[i] == P.Item(dirty[i], frameOf(dirty[i]).value) && P.Fits(direct[i].frame)
  }

  lemma DirectIsAllOrNone(frameOf: P.Serialiser, ownerScopedDeltas: bool, dirty: seq<Change>, direct: seq<P.Item>)
    requires DirectOk(frameOf, ownerScopedDeltas, dirty, direct)
    ensures AllOrNone(dirty, direct)
  {
    if !ownerScopedDeltas { assert P.Changes(direct) == dirty; }
  }

  lemma ListedAppend(a: seq<Change>, b: seq<Change>, id: Id, pub: bool)
    ensures Listed(a + b, id, pub) <==> Listed(a, id, pub) || Listed(b, id, pub)
  {
    var c := a + b;
    if Listed(a, id, pub) {
      var i :| 0 <= i < |a| && a[i].id == id && a[i].isPublic == pub;
      assert c[i] == a[i];
    }
    if Listed(b, id, pub) {
      var i :| 0 <= i < |b| && b[i].id == id && b[i].isPublic == pub;
      assert c[|a| + i] == b[i];
    }
  }

  /** What is collected was offered to the session. */
  lemma {:induction false} CollectedIsOffered(s: State, f: Flush, session: SessionId, stayed: seq<Id>, id: Id, pub: bool)
    requires FlushOk(f) && ToSet(stayed) <= s.kinds.Keys && Listed(Collected(s, f, session, stayed), id, pub)
    ensures id in stayed && id in f.deltas && s.datagrams(session)
    ensures Listed(ChangeFor(s.kinds, s.owners, session, f.deltas[id]), id, pub)
  {
    var p, x := stayed[..|stayed| - 1], stayed[|stayed| - 1];
    var more := if s.datagrams(session) && x in f.deltas then ChangeFor(s.kinds, s.owners, session, f.deltas[x]) else [];
    ListedAppend(Collected(s, f, session, p), more, id, pub);
    assert stayed == p + [x] && x in ToSet(stayed) && ToSet(p) <= ToSet(stayed);
    if Listed(Collected(s, f, session, p), id, pub) {
      CollectedIsOffered(s, f, session, p, id, pub);
    } else {
      AdaptedExactly(s.kinds, s.owners, session, f.deltas[x], 0);
      var i :| 0 <= i < |more| && more[i].id == id && more[i].isPublic == pub;
      assert more[i] in more;
    }
  }

  /** One turn of the loop over stayed entities: the datagram changes. */
  method CollectChange(s: State, f: Flush, session: SessionId, ghost frameOf: P.Serialiser, prepared: map<Id, P.Item>,
                       ownerScopedDeltas: bool, id: Id, w0: Work) returns (w: Work)
    requires s.datagrams(session) && id in f.deltas && id in s.kinds && DeltasOk(s, f, frameOf, prepared, ownerScopedDeltas)
    requires PreparedForAll(s, f, session, prepared, ownerScopedDeltas)
    requires DirectOk(frameOf, ownerScopedDeltas, w0.dirty, w0.direct)
    ensures w.dirty == w0.dirty + ChangeFor(s.kinds, s.owners, session, f.deltas[id])
    ensures DirectOk(frameOf, ownerScopedDeltas, w.dirty, w.direct)
    ensures w == w0.(dirty := w.dirty, direct := w.direct)
  {
    w := w0;
    var changes := ChangeFor(s.kinds, s.owners, session, f.deltas[id]);
    if changes != [] {
      var change := changes[0];
      w := w.(dirty := w.dirty + changes);
      if !change.isPublic && !ownerScopedDeltas && id in prepared {
        assert !Scoped(s, id) && changes == [f.deltas[id]];
        w := w.(direct := w.direct + [prepared[id]]);
      } else {
        assert !ownerScopedDeltas ==> !Scoped(s, id);
      }
    }
  }

  /** What the stream brings of an entity that stayed: its delta, unless that goes in datagrams, and its full
      state if it was created anew. */
  ghost function StayedFrames(s: State, f: Flush, session: SessionId): Id -> seq<Frame>
  {
    id => DeltaFrames(s, f, session, id) + if id in s.spawned then [Full(id, Sees(s.kinds, s.owners, session, id))] else []
  }

  /** The whole delta for who may see it; else the public part, which is a full update for an entity that
      cannot be sent in parts, and nothing if no public bit changed or the entity has nothing to say of those. */
  ghost function DeltaFrames(s: State, f: Flush, session: SessionId, id: Id): seq<Frame>
  {
    if id !in f.deltas || s.datagrams(session) || id !in s.kinds then []
    else if Sees(s.kinds, s.owners, session, id) then [Delta(id, true)]
    else if !s.kinds[id].deltas then [Full(id, false)]
    else if f.marshals(id, f.deltas[id].mask * s.kinds[id].publicMask) && exists b :: b in f.deltas[id].mask && b in s.kinds[id].publicMask
    then [Delta(id, false)]
    else []
  }

  /** The loop over stayed entities. */
  method SendStayed(s: State, f: Flush, session: SessionId, ghost frameOf: P.Serialiser, prepared: map<Id, P.Item>,
                    ownerScopedDeltas: bool, stayed: seq<Id>, w0: Work) returns (w: Work)
    requires CachesOk(w0.caches, s, f) && NoDup(stayed) && ToSet(stayed) <= s.kinds.Keys
    requires DeltasOk(s, f, frameOf, prepared, ownerScopedDeltas) && PreparedForAll(s, f, session, prepared, ownerScopedDeltas)
    requires w0.dirty == [] && w0.direct == []
    ensures CachesOk(w.caches, s, f) && w.dirty == Collected(s, f, session, stayed)
    ensures s.datagrams(session) ==> Collects(s, f, session, stayed, w.dirty)
    ensures DirectOk(frameOf, ownerScopedDeltas, w.dirty, w.direct)
    ensures Stage(w0, w, ToSet(stayed), StayedFrames(s, f, session), [])
  {
    w := w0;
    for i := 0 to |stayed|
      invariant CachesOk(w.caches, s, f) && w.dirty == Collected(s, f, session, stayed[..i])
      invariant DirectOk(frameOf, ownerScopedDeltas, w.dirty, w.direct)
      invariant Stage(w0, w, ToSet(stayed[..i]), StayedFrames(s, f, session), [])
    {
      var id := stayed[i];
      Prefix(stayed, i);
      assert id in ToSet(stayed);
      ghost var w1 := w;
      if id in f.deltas && s.datagrams(session) {
        w := CollectChange(s, f, session, frameOf, prepared, ownerScopedDeltas, id, w);
      }
      w := SendStayedFrames(s, f, session, id, w);
      assert stayed[..i + 1][..i] == stayed[..i];
      StageStep(w0, w1, w, ToSet(stayed[..i]), StayedFrames(s, f, session), [], id, []);
    }
    assert stayed[..|stayed|] == stayed;
    if s.datagrams(session) { CollectedExactly(s, f, session, stayed); }
  }

  /** One turn of that loop: the stream frames. */
  method SendStayedFrames(s: State, f: Flush, session: SessionId, id: Id, w0: Work) returns (w: Work)
    requires CachesOk(w0.caches, s, f) && id in s.kinds && (id in f.deltas ==> f.deltas[id].id == id)
    ensures CachesOk(w.caches, s, f) && SameChanges(w, w0) && w.tracker == w0.tracker
    ensures Sends(w0, w, id, StayedFrames(s, f, session)(id))
  {
    w := SendDelta(s, f, session, id, w0);
    if id in s.spawned {
      var frame, caches := WrappedFull(s, f, session, id, w.caches);
      SendsOne(w, frame.value);
      SendsBoth(w0, w, Add(w, frame.value), id, DeltaFrames(s, f, session, id), [frame.value]);
      w := Add(w.(caches := caches), frame.value);
    }
  }

  method SendDelta(s: State, f: Flush, session: SessionId, id: Id, w0: Work) returns (w: Work)
    requires CachesOk(w0.caches, s, f) && id in s.kinds && (id in f.deltas ==> f.deltas[id].id == id)
    ensures CachesOk(w.caches, s, f) && SameChanges(w, w0) && w.tracker == w0.tracker
    ensures Sends(w0, w, id, DeltaFrames(s, f, session, id))
  {
    w := w0;
    if id in f.deltas && !s.datagrams(session) {
      var frame, caches := StreamDelta(s, f, session, id, w.caches);
      w := w.(caches := caches);
      PublicBits(s, f, id);
      if frame.Some? {
        SendsOne(w, frame.value);
        w := Add(w, frame.value);
      }
    }
  }

  lemma PublicBits(s: State, f: Flush, id: Id)
    requires id in s.kinds && id in f.deltas
    ensures f.deltas[id].mask * s.kinds[id].publicMask != {} <==> exists b :: b in f.deltas[id].mask && b in s.kinds[id].publicMask
  {
    if f.deltas[id].mask * s.kinds[id].publicMask != {} {
      var b :| b in f.deltas[id].mask * s.kinds[id].publicMask;
      assert b in f.deltas[id].mask && b in s.kinds[id].publicMask;
    }
    if b :| b in f.deltas[id].mask && b in s.kinds[id].publicMask { assert b in f.deltas[id].mask * s.kinds[id].publicMask; }
  }

  // ---- the ownership refresh ----

  /** Who is to clear is sent the public state, who is granted the whole. */
  ghost function RefreshFrames(s: State, session: SessionId): Id -> seq<Frame>
  {
    id =>
      if id !in s.refresh then []
      else
        (if s.refresh[id].clearOwner == session then [Full(id, false)] else []) +
        (if s.refresh[id].newOwner == session && session != NOBODY then [Full(id, true)] else [])
  }

  function Refreshed(s: State, session: SessionId, stayed: seq<Id>, rest: set<Id>): set<Id>
  {
    set id | id in stayed && Concerned(s, session, id) && id !in rest
  }

  /** appendOwnershipRefreshFrames, in whatever order the pending refreshes are walked. */
  method AppendRefresh(s: State, ghost f: Flush, session: SessionId, stayed: seq<Id>, w0: Work)
    returns (w: Work, ghost dropped: seq<Id>)
    requires CachesOk(w0.caches, s, f) && session != NOBODY
    ensures CachesOk(w.caches, s, f) && SameChanges(w, w0)
    ensures Stage(w0, w, Refreshed(s, session, stayed, {}), RefreshFrames(s, session), dropped)
    ensures forall id :: id in dropped <==> id in Refreshed(s, session, stayed, {})
  {
    w, dropped := w0, [];
    var rest := s.refresh.Keys;
    assert Refreshed(s, session, stayed, rest) == {};
    while rest != {}
      invariant rest <= s.refresh.Keys && CachesOk(w.caches, s, f) && SameChanges(w, w0)
      invariant Stage(w0, w, Refreshed(s, session, stayed, rest), RefreshFrames(s, session), dropped)
      invariant forall id :: id in dropped <==> id in Refreshed(s, session, stayed, rest)
      decreases rest
    {
      var id :| id in rest;
      ghost var w1, done := w, Refreshed(s, session, stayed, rest);
      rest := rest - {id};
      ghost var more := [];
      if id in stayed && id in s.kinds && s.kinds[id].scoped {
        w, more := RefreshOne(s, f, session, id, w);
      }
      if id in stayed && Concerned(s, session, id) {
        assert Refreshed(s, session, stayed, rest) == done + {id};
        StageStep(w0, w1, w, done, RefreshFrames(s, session), dropped, id, more);
        dropped := dropped + more;
      } else {
        assert Refreshed(s, session, stayed, rest) == done;
      }
    }
  }

  /** One pending refresh of a known owner-scoped entity: clear first, then grant. */
  method RefreshOne(s: State, ghost f: Flush, session: SessionId, id: Id, w0: Work) returns (w: Work, ghost dropped: seq<Id>)
    requires CachesOk(w0.caches, s, f) && session != NOBODY && id in s.refresh && Scoped(s, id)
    ensures CachesOk(w.caches, s, f) && SameChanges(w, w0)
    ensures !Concerned(s, session, id) ==> w == w0
    ensures Sends(w0, w, id, RefreshFrames(s, session)(id)) && w.tracker == ClearAll(w0.tracker, dropped)
    ensures forall x :: x in dropped <==> x == id && Concerned(s, session, id)
  {
    w, dropped := w0, [];
    var ref := s.refresh[id];
    if ref.clearOwner == session {
      w := SendAfterClear(s, f, session, id, false, w);
      dropped := [id];
    }
    if ref.newOwner == session && ref.newOwner != NOBODY {
      ghost var w1 := w;
      w := SendAfterClear(s, f, session, id, true, w);
      SendsBoth(w0, w1, w, id, if ref.clearOwner == session then [Full(id, false)] else [], [Full(id, true)]);
      ClearAllAppend(w0.tracker, dropped, [id]);
      dropped := dropped + [id];
    }
  }

  /** A full frame that supersedes whatever is pending. */
  method SendAfterClear(s: State, ghost f: Flush, session: SessionId, id: Id, auth: bool, w0: Work) returns (w: Work)
    requires CachesOk(w0.caches, s, f)
    ensures CachesOk(w.caches, s, f) && SameChanges(w, w0)
    ensures Sends(w0, w, id, [Full(id, auth)]) && w.tracker == ClearAll(w0.tracker, [id])
  {
    ClearOne(w0.tracker, id);
    w := w0.(tracker := ClearEntity(w0.tracker, id));
    var cache := if auth then w.caches.full else w.caches.publicFull;
    var frame: Frame;
    if id in cache {
      frame := cache[id];
    } else {
      frame := Full(id, auth);
      w := w.(caches := if auth then w.caches.(full := cache[id := frame]) else w.caches.(publicFull := cache[id := frame]));
    }
    SendsOne(w, frame);
    w := Add(w, frame);
  }

  // ---- the eventual-state send ----

  lemma {:induction false} WhereIsSubset(items: seq<P.Item>, fate: P.Fate, item: P.Item)
    requires item in P.Where(items, fate)
    ensures item in items
  {
    var p, last := items[..|items| - 1], items[|items| - 1];
    if item in P.Where(p, fate) { WhereIsSubset(p, fate, item); }
  }

  /** Everything a plan sends or streams is one of the items planned. */
  lemma PlannedFlavour(items: seq<P.Item>, p: P.Plan, id: Id, pub: bool)
    requires P.PlanOk(p, items)
    requires Listed(P.Changes(P.Concat(p.done)), id, pub) || Listed(P.Changes(p.stream), id, pub)
    ensures Listed(P.Changes(items), id, pub)
  {
    var item: P.Item;
    if Listed(P.Changes(P.Concat(p.done)), id, pub) {
      var c := P.Concat(p.done);
      var i :| 0 <= i < |c| && P.Changes(c)[i].id == id && P.Changes(c)[i].isPublic == pub;
      item := c[i];
      assert (c + p.open.items)[i] == item;
      WhereIsSubset(items, P.InDatagram, item);
    } else {
      var i :| 0 <= i < |p.stream| && P.Changes(p.stream)[i].id == id && P.Changes(p.stream)[i].isPublic == pub;
      item := p.stream[i];
      WhereIsSubset(items, P.InStream, item);
    }
    var k :| 0 <= k < |items| && items[k] == item;
    assert P.Changes(items)[k] == item.change;
  }

  lemma {:induction false} AfterSendsFlavour(t: Tracker, done: seq<P.Batch>, first: Token, token: Token, id: Id, pub: bool)
    requires token in P.AfterSends(t, done, first).inFlight && Listed(P.AfterSends(t, done, first).inFlight[token], id, pub)
    ensures (token in t.inFlight && Listed(t.inFlight[token], id, pub)) || Listed(P.Changes(P.Concat(done)), id, pub)
  {
    if done != [] {
      var p, last := done[..|done| - 1], done[|done| - 1];
      var before := P.AfterSends(t, p, first);
      ChangesAppend(P.Concat(p), last.items);
      ListedAppend(P.Changes(P.Concat(p)), P.Changes(last.items), id, pub);
      if token in before.inFlight && Listed(before.inFlight[token], id, pub) {
        AfterSendsFlavour(t, p, first, token, id, pub);
      }
    }
  }

  lemma ChangesAppend(a: seq<P.Item>, b: seq<P.Item>)
    ensures P.Changes(a + b) == P.Changes(a) + P.Changes(b)
  {
  }

  /** What may be pending after a send, or be on the wire: what was pending before, or was sent. */
  ghost predicate FromEither(t: Tracker, changes: seq<Change>, id: Id, pub: bool)
  {
    HasFlavour(t, id, pub) || Listed(changes, id, pub)
  }

  lemma EffectFlavour(t: Tracker, items: seq<P.Item>, p: P.Plan, first: Token, streamed: seq<P.Item>, t': Tracker, id: Id, pub: bool)
    requires P.PlanOk(p, items) && P.Effect(t, p, first, streamed, t') && HasFlavour(t', id, pub)
    ensures FromEither(t, P.Changes(items), id, pub)
  {
    if !(id in t'.dirty && t'.dirty[id].isPublic == pub) {
      var token :| token in t'.inFlight && Listed(t'.inFlight[token], id, pub);
      AfterSendsFlavour(t, p.done, first, token, id, pub);
      if Listed(P.Changes(P.Concat(p.done)), id, pub) {
        PlannedFlavour(items, p, id, pub);
      }
    }
  }

  lemma PrefixListed(items: seq<P.Item>, n: nat, id: Id, pub: bool)
    requires n <= |items| && Listed(P.Changes(items[..n]), id, pub)
    ensures Listed(P.Changes(items), id, pub)
  {
    var i :| 0 <= i < n && P.Changes(items[..n])[i].id == id && P.Changes(items[..n])[i].isPublic == pub;
    assert P.Changes(items)[i] == P.Changes(items[..n])[i];
  }

  lemma SentFlavour(t: Tracker, items: seq<P.Item>, first: Token, failAt: Option<nat>, t': Tracker,
                    sent: seq<P.Batch>, streamed: seq<P.Item>, ok: bool, n: nat, id: Id, pub: bool)
    requires P.AllFit(items) && P.SentAs(t, items, first, failAt, t', sent, streamed, ok, n) && HasFlavour(t', id, pub)
    ensures FromEither(t, P.Changes(items), id, pub)
  {
    if ok || n == |items| {
      assert items[..|items|] == items;
      WholeFlavour(t, items, first, t', streamed, id, pub);
    } else {
      PartFlavour(t, items, n, first, t', id, pub);
    }
  }

  lemma WholeFlavour(t: Tracker, items: seq<P.Item>, first: Token, t': Tracker, streamed: seq<P.Item>, id: Id, pub: bool)
    requires P.AllFit(items) && HasFlavour(t', id, pub)
    requires P.Effect(t, P.Flushed(P.Packed(items)), first, streamed, t') || P.Effect(t, P.Packed(items), first, [], t')
    ensures FromEither(t, P.Changes(items), id, pub)
  {
    P.PackedIsOk(items);
    P.FlushedKeeps(P.Packed(items));
    if P.Effect(t, P.Flushed(P.Packed(items)), first, streamed, t') {
      EffectFlavour(t, items, P.Flushed(P.Packed(items)), first, streamed, t', id, pub);
    } else {
      EffectFlavour(t, items, P.Packed(items), first, [], t', id, pub);
    }
  }

  lemma PartFlavour(t: Tracker, items: seq<P.Item>, n: nat, first: Token, t': Tracker, id: Id, pub: bool)
    requires P.AllFit(items) && n <= |items| && HasFlavour(t', id, pub) && P.Effect(t, P.Packed(items[..n]), first, [], t')
    ensures FromEither(t, P.Changes(items), id, pub)
  {
    P.PackedIsOk(items[..n]);
    EffectFlavour(t, items[..n], P.Packed(items[..n]), first, [], t', id, pub);
    if Listed(P.Changes(items[..n]), id, pub) {
      PrefixListed(items, n, id, pub);
    }
  }

  /** The changes on the wire. */
  function Wire(sent: seq<P.Batch>, streamed: seq<P.Item>): seq<Change> { P.Changes(P.Concat(sent)) + P.Changes(streamed) }

  lemma WireFlavour(t: Tracker, items: seq<P.Item>, first: Token, failAt: Option<nat>, t': Tracker,
                    sent: seq<P.Batch>, streamed: seq<P.Item>, ok: bool, n: nat, id: Id, pub: bool)
    requires P.AllFit(items) && P.SentAs(t, items, first, failAt, t', sent, streamed, ok, n) && Listed(Wire(sent, streamed), id, pub)
    ensures Listed(P.Changes(items), id, pub)
  {
    var full := P.Flushed(P.Packed(items));
    P.PackedIsOk(items);
    P.FlushedKeeps(P.Packed(items));
    ListedAppend(P.Changes(P.Concat(sent)), P.Changes(streamed), id, pub);
    if Listed(P.Changes(P.Concat(sent)), id, pub) {
      assert full.done[..|sent|] == sent;
      ConcatPrefix(full.done, |sent|, id, pub);
    }
    PlannedFlavour(items, full, id, pub);
  }

  lemma {:induction false} ConcatPrefix(batches: seq<P.Batch>, n: nat, id: Id, pub: bool)
    requires n <= |batches| && Listed(P.Changes(P.Concat(batches[..n])), id, pub)
    ensures Listed(P.Changes(P.Concat(batches)), id, pub)
    decreases |batches|
  {
    if n == |batches| {
      assert batches[..n] == batches;
    } else {
      var p, last := batches[..|batches| - 1], batches[|batches| - 1];
      assert p[..n] == batches[..n];
      ConcatPrefix(p, n, id, pub);
      ChangesAppend(P.Concat(p), last.items);
      ListedAppend(P.Changes(P.Concat(p)), P.Changes(last.items), id, pub);
    }
  }

  lemma {:induction false} DirtyFlavour(queue: seq<Id>, dirty: map<Id, Change>, id: Id, pub: bool)
    requires forall x :: x in dirty ==> dirty[x].id == x
    requires Listed(DirtyChanges(queue, dirty), id, pub)
    ensures id in dirty && dirty[id].isPublic == pub
  {
    var p := DirtyChanges(queue[..|queue| - 1], dirty);
    if Listed(p, id, pub) { DirtyFlavour(queue[..|queue| - 1], dirty, id, pub); }
  }

  /** What a session's eventual-state send may leave pending or put on the wire. */
  ghost predicate Sent(t: Tracker, dirty: seq<Change>, t': Tracker, wire: seq<Change>)
  {
    && Keyed(t')
    && (forall id, pub :: HasFlavour(t', id, pub) ==> FromEither(t, dirty, id, pub))
    && (forall id, pub :: Listed(wire, id, pub) ==> FromEither(t, dirty, id, pub))
  }

  /** How a send went. */
  datatype Sending = Sending(tracker: Tracker, sent: seq<P.Batch>, streamed: seq<P.Item>, ok: bool)

  /** The items went out, as far as they did, in the way Packing describes. */
  ghost predicate Delivers(t: Tracker, items: seq<P.Item>, first: Token, failAt: Option<nat>, o: Sending, n: nat)
  {
    && P.AllFit(items) && P.SentAs(t, items, first, failAt, o.tracker, o.sent, o.streamed, o.ok, n)
  }

  lemma DeliversFlavours(t: Tracker, items: seq<P.Item>, first: Token, failAt: Option<nat>, o: Sending, n: nat, dirty: seq<Change>)
    requires Keyed(t) && Delivers(t, items, first, failAt, o, n)
    requires forall id, pub :: Listed(P.Changes(items), id, pub) ==> FromEither(t, dirty, id, pub)
    ensures Sent(t, dirty, o.tracker, Wire(o.sent, o.streamed))
  {
    forall id, pub | HasFlavour(o.tracker, id, pub) ensures FromEither(t, dirty, id, pub) {
      SentFlavour(t, items, first, failAt, o.tracker, o.sent, o.streamed, o.ok, n, id, pub);
    }
    forall id, pub | Listed(Wire(o.sent, o.streamed), id, pub) ensures FromEither(t, dirty, id, pub) {
      WireFlavour(t, items, first, failAt, o.tracker, o.sent, o.streamed, o.ok, n, id, pub);
    }
  }

  lemma PreparedFlavour(changes: seq<Change>, frameOf: P.Serialiser, id: Id, pub: bool)
    requires Listed(P.Changes(P.Prepared(changes, frameOf)), id, pub)
    ensures Listed(changes, id, pub)
  {
    var items := P.Prepared(changes, frameOf);
    var i :| 0 <= i < |items| && P.Changes(items)[i].id == id && P.Changes(items)[i].isPublic == pub;
    assert changes[i] == items[i].change;
  }

  /** Serialising a list of changes and sending them. */
  method SendAll(t: Tracker, changes: seq<Change>, frameOf: P.Serialiser, first: Token, failAt: Option<nat>)
    returns (o: Sending, ghost n: nat)
    requires Keyed(t) && FitsBudget(frameOf)
    ensures Delivers(t, P.Prepared(changes, frameOf), first, failAt, o, n)
    ensures o.ok ==> |P.Prepared(changes, frameOf)| == |changes|
    ensures Sent(t, changes, o.tracker, Wire(o.sent, o.streamed))
  {
    var t', sent, streamed, ok;
    t', sent, streamed, ok, n := P.SendChanges(t, changes, frameOf, map[], first, failAt);
    o := Sending(t', sent, streamed, ok);
    forall id, pub | Listed(P.Changes(P.Prepared(changes, frameOf)), id, pub) ensures FromEither(t, changes, id, pub) {
      PreparedFlavour(changes, frameOf, id, pub);
    }
    DeliversFlavours(t, P.Prepared(changes, frameOf), first, failAt, o, n, changes);
  }

  /** Sending frames prepared for everybody. */
  method SendDirect(t: Tracker, direct: seq<P.Item>, first: Token, failAt: Option<nat>) returns (o: Sending, ghost n: nat)
    requires Keyed(t) && P.AllFit(direct)
    ensures Delivers(t, direct, first, failAt, o, n)
    ensures Sent(t, P.Changes(direct), o.tracker, Wire(o.sent, o.streamed))
  {
    var t', sent, streamed, ok;
    t', sent, streamed, ok, n := P.SendPrepared(t, direct, first, failAt);
    o := Sending(t', sent, streamed, ok);
    DeliversFlavours(t, direct, first, failAt, o, n, P.Changes(direct));
  }

  function MarkedAll(t: Tracker, dirty: seq<Change>): Tracker
  {
    if dirty == [] then t else MarkDirty(MarkedAll(t, dirty[..|dirty| - 1]), dirty[|dirty| - 1])
  }

  /** The loop that merges this tick's changes into what is pending. */
  method MarkAll(t: Tracker, dirty: seq<Change>) returns (t': Tracker)
    requires Keyed(t)
    ensures t' == MarkedAll(t, dirty) && Keyed(t')
    ensures forall id, pub :: HasFlavour(t', id, pub) ==> FromEither(t, dirty, id, pub)
  {
    t' := t;
    for i := 0 to |dirty|
      invariant t' == MarkedAll(t, dirty[..i]) && Keyed(t')
      invariant forall id, pub :: HasFlavour(t', id, pub) ==> FromEither(t, dirty, id, pub)
    {
      ghost var before := t';
      assert dirty[..i + 1][..i] == dirty[..i];
      MarkDirtyKeepsQueue(t', dirty[i]);
      t' := MarkDirty(t', dirty[i]);
      forall id, pub | HasFlavour(t', id, pub) ensures FromEither(t, dirty, id, pub) {
        MarkFlavour(before, dirty[i], id, pub);
      }
    }
    assert dirty[..|dirty|] == dirty;
  }

  function PendingItems(t: Tracker, frameOf: P.Serialiser): seq<P.Item>
  {
    P.Prepared(DirtyChanges(t.queue, t.dirty), frameOf)
  }

  /** The outcome before the dirty queue was tidied up. */
  function Untidied(t: Tracker, o: Sending): Sending { o.(tracker := o.tracker.(queue := t.queue)) }

  /** What is pending went out, as far as it did, and the queue was tidied up after it. */
  ghost predicate DeliversPending(t: Tracker, items: seq<P.Item>, first: Token, failAt: Option<nat>, o: Sending, n: nat)
  {
    Delivers(t, items, first, failAt, Untidied(t, o), n) && o.tracker == Tidied(Untidied(t, o).tracker)
  }

  /** sendEventualState: everything pending. */
  method SendPending(t: Tracker, frameOf: P.Serialiser, first: Token, failAt: Option<nat>) returns (o: Sending, ghost n: nat)
    requires Keyed(t) && FitsBudget(frameOf)
    ensures DeliversPending(t, PendingItems(t, frameOf), first, failAt, o, n)
    ensures o.ok ==> |PendingItems(t, frameOf)| == |DirtyChanges(t.queue, t.dirty)|
    ensures Sent(t, [], o.tracker, Wire(o.sent, o.streamed))
  {
    var changes := DirtyChanges(t.queue, t.dirty);
    var sent;
    sent, n := SendAll(t, changes, frameOf, first, failAt);
    PendingSent(t, sent.tracker, Wire(sent.sent, sent.streamed));
    o := sent.(tracker := Tidied(sent.tracker));
    assert sent.tracker.queue == t.queue;
    assert Untidied(t, o) == sent;
  }

  /** Sending what is pending, and tidying up, involves no other flavours than the pending ones. */
  lemma PendingSent(t: Tracker, t': Tracker, wire: seq<Change>)
    requires Keyed(t) && Sent(t, DirtyChanges(t.queue, t.dirty), t', wire)
    ensures Sent(t, [], Tidied(t'), wire)
  {
    TidyingKeepsQueue(t');
    forall id, pub | FromEither(t, DirtyChanges(t.queue, t.dirty), id, pub) ensures HasFlavour(t, id, pub) {
      if Listed(DirtyChanges(t.queue, t.dirty), id, pub) { DirtyFlavour(t.queue, t.dirty, id, pub); }
    }
    forall id, pub | HasFlavour(Tidied(t'), id, pub) ensures HasFlavour(t', id, pub) {}
  }

  /** A serialiser never yields a frame too large for a datagram as a datagram frame. */
  ghost predicate FitsBudget(frameOf: P.Serialiser)
  {
    forall ch :: frameOf(ch).Some? ==> P.Fits(frameOf(ch).value)
  }

  /** What is to be sent, from which tracker, and whether that is what is pending in it. */
  datatype Turn = Turn(start: Tracker, items: seq<P.Item>, pending: bool)

  /** What sendSessionEventualState sends: this tick's changes merged into what is pending, or the prepared
      frames, or this tick's changes alone, or what is pending alone. */
  function EventualPlan(t: Tracker, dirty: seq<Change>, direct: seq<P.Item>, frameOf: P.Serialiser): Turn
  {
    if |dirty| > 0 && |t.dirty| != 0 then Turn(MarkedAll(t, dirty), PendingItems(MarkedAll(t, dirty), frameOf), true)
    else if |direct| > 0 then Turn(t, direct, false)
    else if |dirty| > 0 then Turn(t, P.Prepared(dirty, frameOf), false)
    else Turn(t, PendingItems(t, frameOf), true)
  }

  ghost predicate Performed(turn: Turn, first: Token, failAt: Option<nat>, o: Sending, n: nat)
  {
    if turn.pending then DeliversPending(turn.start, turn.items, first, failAt, o, n)
    else Delivers(turn.start, turn.items, first, failAt, o, n)
  }

  /** Every change to be sent did serialise. */
  ghost predicate Complete(turn: Turn, dirty: seq<Change>)
  {
    |turn.items| == if turn.pending then |DirtyChanges(turn.start.queue, turn.start.dirty)| else |dirty|
  }

  /** sendSessionEventualState. */
  method SendSessionEventual(t: Tracker, dirty: seq<Change>, direct: seq<P.Item>, frameOf: P.Serialiser, first: Token, failAt: Option<nat>)
    returns (o: Sending, ghost n: nat)
    requires Keyed(t) && FitsBudget(frameOf) && AllOrNone(dirty, direct)
    ensures var turn := EventualPlan(t, dirty, direct, frameOf);
            Performed(turn, first, failAt, o, n) && (o.ok ==> Complete(turn, dirty))
    ensures Sent(t, dirty, o.tracker, Wire(o.sent, o.streamed))
  {
    if |dirty| > 0 && |t.dirty| != 0 {
      var marked := MarkAll(t, dirty);
      o, n := SendPending(marked, frameOf, first, failAt);
      return;
    }
    if |direct| > 0 {
      o, n := SendDirect(t, direct, first, failAt);
      return;
    }
    if |dirty| > 0 {
      o, n := SendAll(t, dirty, frameOf, first, failAt);
      return;
    }
    o, n := SendPending(t, frameOf, first, failAt);
  }
}
