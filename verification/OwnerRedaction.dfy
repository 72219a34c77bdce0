/** Owner-only fields follow the owner: ownership changes, the coalesced refresh and the filtered
    broadcast pass as steps of a run (golem/owner_replication.go, golem/loop.go), on values. */
module OwnerRedaction {
  import opened Identifiers
  import opened StateTracker

  const NOBODY: SessionId := 0

  /** scoped: has owner-only fields, publicMask: the bits of the others, deltas: can be sent in parts. */
  datatype Kind = Kind(scoped: bool, publicMask: Bits, deltas: bool)

  datatype Refresh = Refresh(clearOwner: SessionId, newOwner: SessionId)

  /** `held` is what the client of each session holds: the entities whose owner-only fields it was sent
      and not made to forget. `last` is each entity's owner at the last pass, or at its creation. `gone` are sessions
      that were missing from the list of a pass: they have left, though their known set may still be there. */
  datatype State = State(
    kinds: map<Id, Kind>, owners: map<Id, SessionId>, refresh: map<Id, Refresh>, last: map<Id, SessionId>,
    spawned: set<Id>, removed: set<Id>,
    known: map<SessionId, set<Id>>, trackers: map<SessionId, Tracker>, held: map<SessionId, set<Id>>,
    gone: set<SessionId>, datagrams: SessionId -> bool)

  // ---- ownership ----

  function OwnerOf(owners: map<Id, SessionId>, id: Id): SessionId { if id in owners then owners[id] else NOBODY }

  predicate Owns(owners: map<Id, SessionId>, session: SessionId, id: Id) { id in owners && owners[id] == session }

  /** Whether a session is sent an entity with all its fields. */
  predicate Sees(kinds: map<Id, Kind>, owners: map<Id, SessionId>, session: SessionId, id: Id)
  {
    (id in kinds && kinds[id].scoped) ==> Owns(owners, session, id)
  }

  /** queueOwnershipRefreshLocked. */
  function Queue(refresh: map<Id, Refresh>, id: Id, oldOwner: SessionId, newOwner: SessionId): map<Id, Refresh>
  {
    if oldOwner == newOwner then refresh
    else
      var clearOwner := if id in refresh then refresh[id].clearOwner else oldOwner;
      if clearOwner == newOwner then refresh - {id} else refresh[id := Refresh(clearOwner, newOwner)]
  }

  function NewOwners(owners: map<Id, SessionId>, id: Id, session: SessionId): map<Id, SessionId>
  {
    if session == NOBODY then owners - {id} else owners[id := session]
  }

  /** SetOwner. */
  function OwnerSet(s: State, id: Id, session: SessionId): State
  {
    var owner := OwnerOf(s.owners, id);
    if id !in s.kinds || owner == session then s
    else
      s.(owners := NewOwners(s.owners, id, session),
         refresh := if s.kinds[id].scoped then Queue(s.refresh, id, owner, session) else s.refresh)
  }

  function Created(s: State, id: Id, kind: Kind, owner: SessionId): State
  {
    if id in s.kinds then s
    else
      s.(kinds := s.kinds[id := kind], owners := NewOwners(s.owners, id, owner),
         last := s.last[id := owner], spawned := s.spawned + {id})
  }

  function Deleted(s: State, id: Id): State
  {
    if id !in s.kinds then s
    else s.(kinds := s.kinds - {id}, owners := s.owners - {id}, last := s.last - {id}, removed := s.removed + {id})
  }

  // ---- what a tracker has pending for an entity ----

  /** Some pending or in-flight change of the entity is public (or is not). */
  ghost predicate HasFlavour(t: Tracker, id: Id, pub: bool)
  {
    || (id in t.dirty && t.dirty[id].isPublic == pub)
    || exists token :: token in t.inFlight && Listed(t.inFlight[token], id, pub)
  }

  ghost predicate Listed(changes: seq<Change>, id: Id, pub: bool)
  {
    exists i :: 0 <= i < |changes| && changes[i].id == id && changes[i].isPublic == pub
  }

  function TrackerOf(trackers: map<SessionId, Tracker>, session: SessionId): Tracker
  {
    if session in trackers then trackers[session] else NOTHING_TRACKED
  }

  function SetOf(m: map<SessionId, set<Id>>, session: SessionId): set<Id>
  {
    if session in m then m[session] else {}
  }

  // ---- tracker operations and flavours ----

  lemma ClearFlavour(t: Tracker, id: Id)
    ensures forall x, pub :: HasFlavour(ClearEntity(t, id), x, pub) <==> HasFlavour(t, x, pub) && x != id
  {
    var t' := ClearEntity(t, id);
    forall x, pub ensures HasFlavour(t', x, pub) <==> HasFlavour(t, x, pub) && x != id {
      if HasFlavour(t', x, pub) {
        if token :| token in t'.inFlight && Listed(t'.inFlight[token], x, pub) {
          ListedWithout(t.inFlight[token], id, x, pub);
        }
      }
      if HasFlavour(t, x, pub) && x != id && !(x in t.dirty && t.dirty[x].isPublic == pub) {
        var token :| token in t.inFlight && Listed(t.inFlight[token], x, pub);
        ListedWithout(t.inFlight[token], id, x, pub);
        assert Listed(t'.inFlight[token], x, pub);
      }
    }
  }

  lemma ListedWithout(changes: seq<Change>, id: Id, x: Id, pub: bool)
    ensures Listed(Without(changes, id), x, pub) <==> Listed(changes, x, pub) && x != id
  {
    if Listed(Without(changes, id), x, pub) {
      var r := Without(changes, id);
      var i :| 0 <= i < |r| && r[i].id == x && r[i].isPublic == pub;
      assert r[i] in changes;
    }
    if Listed(changes, x, pub) && x != id {
      var i :| 0 <= i < |changes| && changes[i].id == x && changes[i].isPublic == pub;
      assert changes[i] in Without(changes, id);
    }
  }

  lemma MarkFlavour(t: Tracker, ch: Change, id: Id, pub: bool)
    requires HasFlavour(MarkDirty(t, ch), id, pub)
    ensures HasFlavour(t, id, pub) || (ch.id == id && ch.isPublic == pub)
  {
  }

  lemma {:induction false} RequeueFlavour(t: Tracker, lost: Token, changes: seq<Change>, live: set<Id>, id: Id, pub: bool)
    requires HasFlavour(Requeue(t, lost, changes, live), id, pub)
    ensures HasFlavour(t, id, pub) || Listed(changes, id, pub)
    decreases |changes|
  {
    if changes != [] {
      var p, ch := changes[..|changes| - 1], changes[|changes| - 1];
      var t1 := Requeue(t, lost, p, live);
      if ch.id in live && !Ignored(Remaining(t1.inFlight, lost, ch)) {
        MarkFlavour(t1, Remaining(t1.inFlight, lost, ch), id, pub);
      }
      if HasFlavour(t1, id, pub) {
        RequeueFlavour(t, lost, p, live, id, pub);
      }
    }
  }

  /** Feedback never gives a pending change another flavour. */
  lemma SettleFlavour(t: Tracker, token: Token, delivered: bool, live: set<Id>, id: Id, pub: bool)
    requires HasFlavour(Settle(t, token, delivered, live), id, pub)
    ensures HasFlavour(t, id, pub)
  {
    if token in t.inFlight && !delivered {
      var t1 := t.(inFlight := t.inFlight - {token}, queue := Compacted(t.queue, t.dirty));
      RequeueFlavour(t1, token, t.inFlight[token], live, id, pub);
    }
  }

  // ---- one session's share of a pass ----

  /** What a pass works with: the flushed changes, who may see what, and whether an entity has anything to
      say about the given bits. */
  datatype Flush = Flush(deltas: map<Id, Change>, allowed: (SessionId, Id) -> bool, marshals: (Id, Bits) -> bool)

  function Desired(s: State, f: Flush, session: SessionId): set<Id>
  {
    set id | id in s.kinds && f.allowed(session, id)
  }

  predicate Entered(s: State, f: Flush, session: SessionId, id: Id)
  {
    id in Desired(s, f, session) && id !in SetOf(s.known, session)
  }

  predicate Stayed(s: State, f: Flush, session: SessionId, id: Id)
  {
    id in Desired(s, f, session) && id in SetOf(s.known, session)
  }

  predicate Exited(s: State, f: Flush, session: SessionId, id: Id)
  {
    id !in Desired(s, f, session) && id in SetOf(s.known, session)
  }

  /** A pending refresh concerns the session: as the one to clear or the one to grant. */
  predicate Concerned(s: State, session: SessionId, id: Id)
  {
    && id in s.refresh && id in s.kinds && s.kinds[id].scoped
    && (s.refresh[id].clearOwner == session || (s.refresh[id].newOwner == session && session != NOBODY))
  }

  /** Whether the client holds the owner-only fields after the stream frames of the pass. */
  predicate Told(s: State, f: Flush, session: SessionId, id: Id)
  {
    if Entered(s, f, session, id) then Sees(s.kinds, s.owners, session, id)
    else if Exited(s, f, session, id) then false
    else if !Stayed(s, f, session, id) then id in SetOf(s.held, session)
    else if Concerned(s, session, id) then s.refresh[id].newOwner == session
    else if id in s.spawned then Sees(s.kinds, s.owners, session, id)
    else if id in f.deltas && !s.datagrams(session) then ToldByDelta(s, f, session, id)
    else id in SetOf(s.held, session)
  }

  predicate ToldByDelta(s: State, f: Flush, session: SessionId, id: Id)
    requires id in s.kinds
  {
    Sees(s.kinds, s.owners, session, id) || (s.kinds[id].deltas && id in SetOf(s.held, session))
  }

  /** The pass drops everything pending for the entity. */
  predicate Purged(s: State, f: Flush, session: SessionId, id: Id)
  {
    || id in s.removed
    || (s.datagrams(session) && (Entered(s, f, session, id) || Exited(s, f, session, id)))
    || (Stayed(s, f, session, id) && Concerned(s, session, id))
  }

  /** eventualChangeForSession: None when a non-owner has nothing public to be told. */
  function ChangeFor(kinds: map<Id, Kind>, owners: map<Id, SessionId>, session: SessionId, ch: Change): (r: seq<Change>)
    ensures |r| <= 1
    ensures forall c :: c in r && ch.id in kinds && kinds[ch.id].scoped && !ch.isPublic ==>
              c.id == ch.id && (c.isPublic <==> !Owns(owners, session, ch.id))
  {
    if ch.id !in kinds || Sees(kinds, owners, session, ch.id) then [ch]
    else if ch.full then [Change(ch.id, {}, true, true)]
    else
      var mask := ch.mask * kinds[ch.id].publicMask;
      if mask == {} then [] else [Change(ch.id, mask, false, true)]
  }

  /** The bits that serialising a change puts on the wire. */
  function SentBits(kinds: map<Id, Kind>, ch: Change): Bits
  {
    if ch.isPublic && ch.id in kinds then Cover(ch) * kinds[ch.id].publicMask else Cover(ch)
  }

  /** A session is sent exactly the changed bits it may see: all of them as owner, else the public ones; in
      a change that is public exactly for those who may not see all. */
  lemma AdaptedExactly(kinds: map<Id, Kind>, owners: map<Id, SessionId>, session: SessionId, ch: Change, b: Bit)
    requires ch.id in kinds && !ch.isPublic
    ensures forall c :: c in ChangeFor(kinds, owners, session, ch) ==>
              c.id == ch.id && c.full == ch.full && (c.isPublic <==> !Sees(kinds, owners, session, ch.id))
    ensures (exists c :: c in ChangeFor(kinds, owners, session, ch) && b in SentBits(kinds, c)) <==>
            b in Cover(ch) && (Sees(kinds, owners, session, ch.id) || b in kinds[ch.id].publicMask)
  {
    var r := ChangeFor(kinds, owners, session, ch);
    if r == [] {
      assert b !in ch.mask * kinds[ch.id].publicMask;
    } else {
      assert r[0] in r && |r| == 1;
      assert forall c :: c in r ==> c == r[0];
    }
  }

  /** A change offered to the session in this pass. */
  ghost predicate Offered(s: State, f: Flush, session: SessionId, id: Id, pub: bool)
  {
    && id in f.deltas && Stayed(s, f, session, id) && s.datagrams(session)
    && Listed(ChangeFor(s.kinds, s.owners, session, f.deltas[id]), id, pub)
  }

  /** What serving one session comes to: `held` and `tracker` afterwards, `heard` and `purged` after the
      stream batch and before the datagrams. */
  datatype Service = Service(heard: set<Id>, purged: Tracker, held: set<Id>, tracker: Tracker)

  ghost predicate Served(s: State, f: Flush, session: SessionId, v: Service)
  {
    && (forall id :: id in v.heard <==> Told(s, f, session, id))
    && (forall id, pub :: HasFlavour(v.purged, id, pub) <==>
                            (HasFlavour(TrackerOf(s.trackers, session), id, pub) && !Purged(s, f, session, id)))
    && (forall id, pub :: HasFlavour(v.tracker, id, pub) ==>
                            HasFlavour(v.purged, id, pub) || Offered(s, f, session, id, pub))
    && (forall id :: id in v.held && id !in v.heard ==>
                       HasFlavour(v.purged, id, false) || Offered(s, f, session, id, false))
    && (forall id :: id in v.heard && id !in v.held ==>
                       HasFlavour(v.purged, id, true) || Offered(s, f, session, id, true))
    && (!s.datagrams(session) ==> v.held == v.heard && v.tracker == v.purged)
  }

  /** A session that has a known set and has not left. */
  predicate Here(s: State, x: SessionId) { x in s.known && x !in s.gone }

  /** The state after a filtered pass: the listed sessions that still have a known set were served. */
  ghost predicate PassedTo(s: State, f: Flush, sessions: set<SessionId>, services: map<SessionId, Service>, s': State)
  {
    && (forall x :: x in services ==> Served(s, f, x, services[x]))
    && s'.kinds == s.kinds && s'.owners == s.owners && s'.datagrams == s.datagrams
    && s'.refresh == map[] && s'.spawned == {} && s'.removed == {} && s'.last == OwnersNow(s)
    && s'.gone == s.gone + (s.known.Keys - sessions)
    && (forall x :: x in s'.known && x !in sessions ==> x in s.known && s'.known[x] == s.known[x])
    && (forall x :: x in s'.known && x in sessions ==>
          x in services && s'.known[x] == Desired(s, f, x)
          && SetOf(s'.held, x) == services[x].held && TrackerOf(s'.trackers, x) == services[x].tracker)
    && (forall x :: !s.datagrams(x) ==> Quiet(TrackerOf(s'.trackers, x)))
  }

  /** The state after a blind pass, taken only with no refresh pending and nothing owner-scoped alive. */
  ghost predicate BlindTo(s: State, sessions: set<SessionId>, s': State)
  {
    && s.refresh == map[] && (forall id :: !Scoped(s, id))
    && s'.kinds == s.kinds && s'.owners == s.owners && s'.datagrams == s.datagrams
    && s'.refresh == map[] && s'.spawned == {} && s'.removed == {} && s'.last == OwnersNow(s)
    && s'.gone == s.gone + (s.known.Keys - sessions)
    && NOBODY !in s'.known && (forall x :: Here(s', x) ==> s'.known[x] <= s.kinds.Keys)
    && (forall x :: !s.datagrams(x) ==> Quiet(TrackerOf(s'.trackers, x)))
  }

  function OwnersNow(s: State): map<Id, SessionId> { map id | id in s.kinds :: OwnerOf(s.owners, id) }

  predicate Scoped(s: State, id: Id) { id in s.kinds && s.kinds[id].scoped }

  ghost predicate Quiet(t: Tracker) { forall id, pub :: !HasFlavour(t, id, pub) }

  // ---- steps and runs ----

  datatype Step =
    | Create(id: Id, kind: Kind, owner: SessionId)
    | Delete(id: Id)
    | SetOwner(id: Id, session: SessionId)
    | Connect(session: SessionId, snapshot: set<Id>)
    | Disconnect(session: SessionId)
    | Feedback(session: SessionId, token: Token, delivered: bool)
    | Pass(flush: Flush, sessions: set<SessionId>, services: map<SessionId, Service>, after: State)
    | Blind(sessions: set<SessionId>, after: State)

  function Connected(s: State, session: SessionId, snapshot: set<Id>): State
  {
    s.(known := s.known[session := snapshot],
       trackers := s.trackers - {session},
       held := s.held[session := set id | id in snapshot && Sees(s.kinds, s.owners, session, id)])
  }

  function Do(s: State, step: Step): State
  {
    match step
    case Create(id, kind, owner) => Created(s, id, kind, owner)
    case Delete(id) => Deleted(s, id)
    case SetOwner(id, session) => OwnerSet(s, id, session)
    case Connect(session, snapshot) => Connected(s, session, snapshot)
    case Disconnect(session) =>
      s.(known := s.known - {session}, trackers := s.trackers - {session}, held := s.held - {session})
    case Feedback(session, token, delivered) =>
      if session !in s.trackers then s
      else s.(trackers := s.trackers[session := Settle(s.trackers[session], token, delivered, s.kinds.Keys)])
    case Pass(_, _, _, after) => after
    case Blind(_, after) => after
  }

  /** Sessions are numbered from 1, and a session that left does not come back under its number; a session
      connects under a number no pending refresh names; and flushed changes are of live entities that were not spawned since the last pass. */
  ghost predicate Possible(s: State, step: Step)
  {
    match step
    case Connect(session, snapshot) =>
      && session != NOBODY && snapshot <= s.kinds.Keys && session !in s.known && session !in s.gone
      && (forall id :: id in s.refresh ==> s.refresh[id].clearOwner != session && s.refresh[id].newOwner != session)
    case Pass(flush, sessions, services, after) =>
      && services.Keys <= sessions && NOBODY !in sessions && sessions !! s.gone
      && PassedTo(s, flush, sessions, services, after)
      && (forall id :: id in flush.deltas ==>
            id in s.kinds && id !in s.spawned && flush.deltas[id].id == id && !flush.deltas[id].isPublic)
    case Blind(sessions, after) => sessions !! s.gone && BlindTo(s, sessions, after)
    case _ => true
  }

  // ---- the invariant ----

  /** Whose client holds the owner-only fields until the next pass: the owner at the last one. */
  function Base(s: State, id: Id): SessionId
  {
    if id in s.refresh then s.refresh[id].clearOwner else OwnerOf(s.owners, id)
  }

  /** A known owner-scoped entity: its owner-only fields are held exactly by the base owner, and what is
      pending is public exactly for the others. Entities spawned since the last pass are about to be
      sent in full, and what is pending for a removed id is about to be dropped. */
  ghost predicate EntityOk(s: State, session: SessionId, id: Id)
  {
    && (id !in s.spawned ==> (id in SetOf(s.held, session) <==> Base(s, id) == session))
    && (id !in s.removed ==>
          forall pub :: HasFlavour(TrackerOf(s.trackers, session), id, pub) ==> (pub <==> Base(s, id) != session))
  }

  ghost predicate Inv(s: State)
  {
    && NOBODY !in s.known
    && s.removed * s.kinds.Keys <= s.spawned
    && (forall x, id :: Here(s, x) && id in s.known[x] ==> id in s.kinds || id in s.removed)
    && s.refresh.Keys <= s.kinds.Keys + s.removed
    && (forall id :: id in s.refresh && Scoped(s, id) && id !in s.removed ==> s.refresh[id].newOwner == OwnerOf(s.owners, id))
    && (forall x :: !s.datagrams(x) ==> Quiet(TrackerOf(s.trackers, x)))
    && (forall x, id :: Here(s, x) && id in s.known[x] && Scoped(s, id) ==> EntityOk(s, x, id))
  }

  /** Redaction: a session that knows an owner-scoped entity holds its owner-only fields exactly if it is
      the owner, and what is pending for it is public exactly if it is not. */
  ghost predicate Redacted(s: State)
  {
    forall x, id :: Here(s, x) && id in s.known[x] && Scoped(s, id) ==> RedactedFor(s, x, id)
  }

  ghost predicate RedactedFor(s: State, x: SessionId, id: Id)
  {
    && (id in SetOf(s.held, x) <==> Owns(s.owners, x, id))
    && (forall pub :: HasFlavour(TrackerOf(s.trackers, x), id, pub) ==> (pub <==> !Owns(s.owners, x, id)))
  }

  // ---- every step but a pass ----

  lemma OwnerSetKeepsBase(s: State, id: Id, session: SessionId, x: Id)
    requires Scoped(s, x)
    ensures Base(OwnerSet(s, id, session), x) == Base(s, x)
  {
  }

  lemma CreateKeeps(s: State, id: Id, kind: Kind, owner: SessionId)
    requires Inv(s)
    ensures Inv(Created(s, id, kind, owner))
  {
    var s' := Created(s, id, kind, owner);
    if s' != s {
      forall x, y | Here(s', x) && y in s'.known[x] && Scoped(s', y) ensures EntityOk(s', x, y) {
        if y != id {
          assert Scoped(s, y) && EntityOk(s, x, y) && Base(s', y) == Base(s, y);
        }
      }
    }
  }

  lemma DeleteKeeps(s: State, id: Id)
    requires Inv(s)
    ensures Inv(Deleted(s, id))
  {
    var s' := Deleted(s, id);
    if s' != s {
      forall x, y | Here(s', x) && y in s'.known[x] && Scoped(s', y) ensures EntityOk(s', x, y) {
        assert Scoped(s, y) && EntityOk(s, x, y) && Base(s', y) == Base(s, y);
      }
    }
  }

  lemma SetOwnerKeeps(s: State, id: Id, session: SessionId)
    requires Inv(s)
    ensures Inv(OwnerSet(s, id, session))
  {
    var s' := OwnerSet(s, id, session);
    forall x, y | Here(s', x) && y in s'.known[x] && Scoped(s', y) ensures EntityOk(s', x, y) {
      assert Scoped(s, y) && EntityOk(s, x, y);
      OwnerSetKeepsBase(s, id, session, y);
    }
  }

  lemma NothingIsQuiet()
    ensures Quiet(NOTHING_TRACKED)
  {
  }

  lemma ConnectKeeps(s: State, session: SessionId, snapshot: set<Id>)
    requires Inv(s) && Possible(s, Connect(session, snapshot))
    ensures Inv(Connected(s, session, snapshot))
  {
    var s' := Connected(s, session, snapshot);
    NothingIsQuiet();
    forall x, y | Here(s', x) && y in s'.known[x] && Scoped(s', y) ensures EntityOk(s', x, y) {
      assert Base(s', y) == Base(s, y);
      if x != session {
        assert EntityOk(s, x, y);
        assert TrackerOf(s'.trackers, x) == TrackerOf(s.trackers, x);
      }
    }
  }

  lemma DisconnectKeeps(s: State, session: SessionId)
    requires Inv(s)
    ensures Inv(Do(s, Disconnect(session)))
  {
    var s' := Do(s, Disconnect(session));
    forall x, y | Here(s', x) && y in s'.known[x] && Scoped(s', y) ensures EntityOk(s', x, y) {
      assert EntityOk(s, x, y) && Base(s', y) == Base(s, y);
      assert TrackerOf(s'.trackers, x) == TrackerOf(s.trackers, x);
    }
  }

  lemma FeedbackKeeps(s: State, session: SessionId, token: Token, delivered: bool)
    requires Inv(s)
    ensures Inv(Do(s, Feedback(session, token, delivered)))
  {
    if session in s.trackers {
      var s' := Do(s, Feedback(session, token, delivered));
      var t, t' := s.trackers[session], s'.trackers[session];
      forall id, pub | HasFlavour(t', id, pub) ensures HasFlavour(t, id, pub) {
        SettleFlavour(t, token, delivered, s.kinds.Keys, id, pub);
      }
      forall x, y | Here(s', x) && y in s'.known[x] && Scoped(s', y) ensures EntityOk(s', x, y) {
        assert EntityOk(s, x, y) && Base(s', y) == Base(s, y);
        assert TrackerOf(s.trackers, session) == t && TrackerOf(s'.trackers, session) == t';
        assert x != session ==> TrackerOf(s'.trackers, x) == TrackerOf(s.trackers, x);
        forall pub | y !in s'.removed && HasFlavour(TrackerOf(s'.trackers, x), y, pub) ensures pub <==> Base(s', y) != x {
          assert HasFlavour(TrackerOf(s.trackers, x), y, pub);
        }
      }
    }
  }

  // ---- the pass ----

  /** The pending refresh, applied after everything else, says what the current owner says. */
  predicate Agrees(s: State, session: SessionId, id: Id)
  {
    Concerned(s, session, id) ==> (s.refresh[id].newOwner == session <==> Owns(s.owners, session, id))
  }

  function Present(s: State): set<SessionId> { s.known.Keys - s.gone }

  /** Every refresh that reaches a session in the pass agrees with the owner. */
  ghost predicate RefreshAgrees(s: State, f: Flush, served: set<SessionId>)
  {
    forall x, id :: x in served && Stayed(s, f, x, id) ==> Agrees(s, x, id)
  }

  /** After the stream batch the client holds the owner-only fields exactly as the refresh has it. */
  lemma ToldIsOwnership(s: State, f: Flush, x: SessionId, id: Id)
    requires Inv(s) && x != NOBODY && x !in s.gone && Scoped(s, id) && id in Desired(s, f, x)
    requires id in f.deltas ==> id !in s.spawned
    ensures (Told(s, f, x, id) <==> Owns(s.owners, x, id)) <==> (Stayed(s, f, x, id) ==> Agrees(s, x, id))
  {
    if Stayed(s, f, x, id) && !Concerned(s, x, id) && id !in s.spawned {
      assert EntityOk(s, x, id);
      assert id in SetOf(s.held, x) <==> Owns(s.owners, x, id);
    }
  }

  /** Whatever is left pending or is offered has the right flavour. */
  lemma FlavourIsOwnership(s: State, f: Flush, x: SessionId, v: Service, id: Id, pub: bool)
    requires Inv(s) && x != NOBODY && x !in s.gone && Scoped(s, id) && id in Desired(s, f, x) && Served(s, f, x, v)
    requires id in f.deltas ==> f.deltas[id].id == id && !f.deltas[id].isPublic
    requires HasFlavour(v.purged, id, pub) || Offered(s, f, x, id, pub)
    ensures pub <==> !Owns(s.owners, x, id)
  {
    if Offered(s, f, x, id, pub) {
      var r := ChangeFor(s.kinds, s.owners, x, f.deltas[id]);
      var i :| 0 <= i < |r| && r[i].id == id && r[i].isPublic == pub;
      assert r[i] in r;
    } else {
      assert HasFlavour(TrackerOf(s.trackers, x), id, pub) && !Purged(s, f, x, id);
      assert s.datagrams(x) && x in s.known && EntityOk(s, x, id);
      assert !Concerned(s, x, id);
    }
  }

  /** One session, one entity, after the pass. */
  lemma PassEntity(s: State, step: Step, x: SessionId, id: Id)
    requires Inv(s) && step.Pass? && Possible(s, step) && x in Present(step.after)
    requires Scoped(s, id) && id in Desired(s, step.flush, x)
    ensures var s' := Do(s, step);
            && ((id in SetOf(s'.held, x) <==> Owns(s.owners, x, id)) <==>
                (Stayed(s, step.flush, x, id) ==> Agrees(s, x, id)))
            && (forall pub :: HasFlavour(TrackerOf(s'.trackers, x), id, pub) ==> (pub <==> !Owns(s.owners, x, id)))
  {
    var f, v := step.flush, step.services[x];
    ServedEntity(s, f, x, v, id);
  }

  lemma ServedEntity(s: State, f: Flush, x: SessionId, v: Service, id: Id)
    requires Inv(s) && x != NOBODY && x !in s.gone && Served(s, f, x, v) && Scoped(s, id) && id in Desired(s, f, x)
    requires id in f.deltas ==> id !in s.spawned && f.deltas[id].id == id && !f.deltas[id].isPublic
    ensures (id in v.held <==> Owns(s.owners, x, id)) <==> (Stayed(s, f, x, id) ==> Agrees(s, x, id))
    ensures forall pub :: HasFlavour(v.tracker, id, pub) ==> (pub <==> !Owns(s.owners, x, id))
  {
    ToldIsOwnership(s, f, x, id);
    forall pub | HasFlavour(v.purged, id, pub) || Offered(s, f, x, id, pub) ensures pub <==> !Owns(s.owners, x, id) {
      FlavourIsOwnership(s, f, x, v, id, pub);
    }
  }

  /** A pass leaves owner-only fields with the owners exactly when the pending refreshes that reach a
      session agree with the owners. */
  lemma PassRedactsExactly(s: State, step: Step)
    requires Inv(s) && step.Pass? && Possible(s, step)
    ensures Redacted(Do(s, step)) <==> RefreshAgrees(s, step.flush, Present(step.after))
  {
    if RefreshAgrees(s, step.flush, Present(step.after)) { AgreeingPassRedacts(s, step); }
    if Redacted(Do(s, step)) {
      forall x, id | x in Present(step.after) && Stayed(s, step.flush, x, id) ensures Agrees(s, x, id) {
        RedactingPassAgrees(s, step, x, id);
      }
    }
  }

  lemma AgreeingPassRedacts(s: State, step: Step)
    requires Inv(s) && step.Pass? && Possible(s, step) && RefreshAgrees(s, step.flush, Present(step.after))
    ensures Redacted(Do(s, step))
  {
    var s' := Do(s, step);
    forall x, id | Here(s', x) && id in s'.known[x] && Scoped(s', id) ensures RedactedFor(s', x, id) {
      AgreeingPassRedactsFor(s, step, x, id);
    }
  }

  lemma AgreeingPassRedactsFor(s: State, step: Step, x: SessionId, id: Id)
    requires Inv(s) && step.Pass? && Possible(s, step) && RefreshAgrees(s, step.flush, Present(step.after))
    requires x in Present(step.after) && id in Desired(s, step.flush, x) && Scoped(s, id)
    ensures RedactedFor(Do(s, step), x, id)
  {
    PassEntity(s, step, x, id);
    assert Stayed(s, step.flush, x, id) ==> Agrees(s, x, id);
  }

  lemma RedactingPassAgrees(s: State, step: Step, x: SessionId, id: Id)
    requires Inv(s) && step.Pass? && Possible(s, step) && Redacted(Do(s, step))
    requires x in Present(step.after) && Stayed(s, step.flush, x, id)
    ensures Agrees(s, x, id)
  {
    if Concerned(s, x, id) {
      PassEntity(s, step, x, id);
      assert RedactedFor(Do(s, step), x, id);
    }
  }

  /** After such a pass the invariant holds again. */
  lemma PassKeeps(s: State, step: Step)
    requires Inv(s) && step.Pass? && Possible(s, step) && RefreshAgrees(s, step.flush, Present(step.after))
    ensures Inv(Do(s, step))
  {
    var s' := Do(s, step);
    PassRedactsExactly(s, step);
    forall x, id | Here(s', x) && id in s'.known[x] && Scoped(s', id) ensures EntityOk(s', x, id) {
      assert RedactedFor(s', x, id);
    }
  }

  lemma BlindKeeps(s: State, sessions: set<SessionId>, after: State)
    requires Inv(s) && BlindTo(s, sessions, after)
    ensures Inv(after) && Redacted(after)
  {
    assert forall id :: Scoped(after, id) == Scoped(s, id);
  }

  // ---- runs ----

  function RunTo(s: State, steps: seq<Step>): State
  {
    if steps == [] then s else Do(RunTo(s, steps[..|steps| - 1]), steps[|steps| - 1])
  }

  ghost predicate Run(s: State, steps: seq<Step>)
  {
    steps == [] ||
    (Run(s, steps[..|steps| - 1]) && Possible(RunTo(s, steps[..|steps| - 1]), steps[|steps| - 1]))
  }

  /** No entity is registered under an id whose ownership refresh is still pending. */
  ghost predicate NoReuse(s: State, steps: seq<Step>)
  {
    steps == [] ||
    (NoReuse(s, steps[..|steps| - 1]) && !Reuses(RunTo(s, steps[..|steps| - 1]), steps[|steps| - 1]))
  }

  predicate Reuses(s: State, step: Step) { step.Create? && step.id in s.refresh }

  /** A pending refresh is (owner at the last pass, owner now), and there is none when they are equal. */
  ghost predicate Coalesced(s: State)
  {
    && s.last.Keys == s.kinds.Keys
    && (forall id :: id in s.refresh ==> s.refresh[id].clearOwner != s.refresh[id].newOwner)
    && (forall id :: Scoped(s, id) ==>
          && (id in s.refresh ==> s.refresh[id] == Refresh(s.last[id], OwnerOf(s.owners, id)))
          && (id !in s.refresh ==> s.last[id] == OwnerOf(s.owners, id)))
  }

  lemma StepKeepsCoalesced(s: State, step: Step)
    requires Coalesced(s) && Possible(s, step) && !Reuses(s, step)
    ensures Coalesced(Do(s, step))
  {
    match step {
      case SetOwner(id, session) => SetOwnerCoalesces(s, id, session);
      case Create(id, kind, owner) => CreateCoalesces(s, id, kind, owner);
      case Delete(id) => DeleteCoalesces(s, id);
      case Pass(_, _, _, after) => PassCoalesces(s, after);
      case Blind(_, after) => PassCoalesces(s, after);
      case _ =>
    }
  }

  lemma DeleteCoalesces(s: State, id: Id)
    requires Coalesced(s)
    ensures Coalesced(Deleted(s, id))
  {
  }

  lemma PassCoalesces(s: State, after: State)
    requires after.kinds == s.kinds && after.owners == s.owners && after.refresh == map[] && after.last == OwnersNow(s)
    ensures Coalesced(after)
  {
  }

  lemma SetOwnerCoalesces(s: State, id: Id, session: SessionId)
    requires Coalesced(s)
    ensures Coalesced(OwnerSet(s, id, session))
  {
    var s' := OwnerSet(s, id, session);
    assert forall x :: x != id ==> OwnerOf(s'.owners, x) == OwnerOf(s.owners, x);
  }

  lemma CreateCoalesces(s: State, id: Id, kind: Kind, owner: SessionId)
    requires Coalesced(s) && id !in s.refresh
    ensures Coalesced(Created(s, id, kind, owner))
  {
    var s' := Created(s, id, kind, owner);
    assert forall x :: x != id ==> OwnerOf(s'.owners, x) == OwnerOf(s.owners, x);
  }

  lemma CoalescedAgrees(s: State, f: Flush, served: set<SessionId>)
    requires Coalesced(s) && NOBODY !in served
    ensures RefreshAgrees(s, f, served)
  {
    forall x, id | x in served && Stayed(s, f, x, id) ensures Agrees(s, x, id) {
      if Concerned(s, x, id) {
        assert s.refresh[id] == Refresh(s.last[id], OwnerOf(s.owners, id));
      }
    }
  }

  lemma StepKeeps(s: State, step: Step)
    requires Inv(s) && Coalesced(s) && Possible(s, step) && !Reuses(s, step)
    ensures Inv(Do(s, step)) && Coalesced(Do(s, step))
    ensures step.Pass? || step.Blind? ==> Redacted(Do(s, step))
  {
    StepKeepsCoalesced(s, step);
    match step {
      case Create(id, kind, owner) => CreateKeeps(s, id, kind, owner);
      case Delete(id) => DeleteKeeps(s, id);
      case SetOwner(id, session) => SetOwnerKeeps(s, id, session);
      case Connect(session, snapshot) => ConnectKeeps(s, session, snapshot);
      case Disconnect(session) => DisconnectKeeps(s, session);
      case Feedback(session, token, delivered) => FeedbackKeeps(s, session, token, delivered);
      case Pass(flush, sessions, services, after) =>
        CoalescedAgrees(s, flush, Present(after));
        PassRedactsExactly(s, step);
        PassKeeps(s, step);
      case Blind(sessions, after) => BlindKeeps(s, sessions, after);
    }
  }

  function Start(datagrams: SessionId -> bool): State
  {
    State(map[], map[], map[], map[], {}, {}, map[], map[], map[], {}, datagrams)
  }

  lemma {:induction false} RunKeeps(s: State, steps: seq<Step>)
    requires Inv(s) && Coalesced(s) && Run(s, steps) && NoReuse(s, steps)
    ensures Inv(RunTo(s, steps)) && Coalesced(RunTo(s, steps))
    ensures steps != [] && (steps[|steps| - 1].Pass? || steps[|steps| - 1].Blind?) ==> Redacted(RunTo(s, steps))
  {
    if steps != [] {
      RunKeeps(s, steps[..|steps| - 1]);
      StepKeeps(RunTo(s, steps[..|steps| - 1]), steps[|steps| - 1]);
    }
  }

  /** Over whole runs that do not reuse an id with a pending refresh: the refresh is always coalesced,
      and after every pass owner-only fields, and non-public pending changes, are with the owner alone. */
  lemma OwnerFieldsFollowTheOwner(datagrams: SessionId -> bool, steps: seq<Step>)
    requires Run(Start(datagrams), steps) && NoReuse(Start(datagrams), steps)
    ensures Coalesced(RunTo(Start(datagrams), steps))
    ensures steps != [] && (steps[|steps| - 1].Pass? || steps[|steps| - 1].Blind?) ==> Redacted(RunTo(Start(datagrams), steps))
  {
    var s := Start(datagrams);
    forall x ensures Quiet(TrackerOf(s.trackers, x)) { NothingIsQuiet(); }
    RunKeeps(s, steps);
  }

  /** A transfer from session 1 to session 2, a deletion, and a new entity of session 1 under the same id. */
  function Reuse(id: Id, kind: Kind): seq<Step>
  {
    [Create(id, kind, 1), Connect(2, {id}), SetOwner(id, 2), Delete(id), Create(id, kind, 1)]
  }

  function Reused(datagrams: SessionId -> bool, id: Id, kind: Kind): State
  {
    Start(datagrams).(
      kinds := map[id := kind], owners := map[id := 1], refresh := map[id := Refresh(1, 2)], last := map[id := 1],
      spawned := {id}, removed := {id}, known := map[2 := {id}], held := map[2 := {}])
  }

  lemma ReuseIsPossible(datagrams: SessionId -> bool, id: Id, kind: Kind)
    requires kind.scoped
    ensures Run(Start(datagrams), Reuse(id, kind)) && RunTo(Start(datagrams), Reuse(id, kind)) == Reused(datagrams, id, kind)
  {
    var steps := Reuse(id, kind);
    var s0 := Start(datagrams);
    var s1 := Do(s0, steps[0]);
    var s2 := Do(s1, steps[1]);
    var s3 := Do(s2, steps[2]);
    var s4 := Do(s3, steps[3]);
    var s5 := Do(s4, steps[4]);
    assert s1 == s0.(kinds := map[id := kind], owners := map[id := 1], last := map[id := 1], spawned := {id});
    assert s2.trackers == s1.trackers;
    assert s2.held[2] == {};
    assert s2.held == map[2 := {}];
    assert s2 == s1.(known := map[2 := {id}], held := map[2 := {}]);
    assert s3 == s2.(owners := map[id := 2], refresh := map[id := Refresh(1, 2)]);
    assert s4 == s3.(kinds := map[], owners := map[], last := map[], removed := {id});
    assert s5 == Reused(datagrams, id, kind);
    RunOneMore(s0, [], steps[0], s0);
    RunOneMore(s0, steps[..1], steps[1], s1);
    RunOneMore(s0, steps[..2], steps[2], s2);
    RunOneMore(s0, steps[..3], steps[3], s3);
    RunOneMore(s0, steps[..4], steps[4], s4);
    assert [] + [steps[0]] == steps[..1] && steps[..1] + [steps[1]] == steps[..2] && steps[..2] + [steps[2]] == steps[..3];
    assert steps[..3] + [steps[3]] == steps[..4] && steps[..4] + [steps[4]] == steps;
  }

  lemma RunOneMore(s: State, steps: seq<Step>, step: Step, s1: State)
    ensures Run(s, steps) && RunTo(s, steps) == s1 && Possible(s1, step) ==>
              Run(s, steps + [step]) && RunTo(s, steps + [step]) == Do(s1, step)
  {
    assert (steps + [step])[..|steps|] == steps;
  }

  /** After it, every pass that serves session 2 hands it the owner-only fields of the new entity, which
      belongs to session 1: the old refresh is still pending. */
  lemma ReuseLeaks(datagrams: SessionId -> bool, id: Id, kind: Kind, pass: Step)
    requires kind.scoped && pass.Pass? && Possible(Reused(datagrams, id, kind), pass)
    requires 2 in Present(pass.after) && pass.flush.allowed(2, id)
    ensures !Redacted(Do(Reused(datagrams, id, kind), pass))
  {
    var s := Reused(datagrams, id, kind);
    ReusedIsInv(datagrams, id, kind);
    PassRedactsExactly(s, pass);
    assert Stayed(s, pass.flush, 2, id);
    assert !Agrees(s, 2, id);
  }

  lemma ReusedIsInv(datagrams: SessionId -> bool, id: Id, kind: Kind)
    requires kind.scoped
    ensures Inv(Reused(datagrams, id, kind))
  {
    var s := Reused(datagrams, id, kind);
    forall x ensures Quiet(TrackerOf(s.trackers, x)) { NothingIsQuiet(); }
  }
}
