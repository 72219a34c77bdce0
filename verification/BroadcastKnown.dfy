/** Known sets in broadcast mode: the blind fast path and the filtered path
    (golem/loop.go, with the lifecycle part of golem/registry/registry.go). */
module BroadcastKnown {
  import opened Identifiers
  import opened Visibility
  import I = InterestManager

  // ---- what was registered and deleted since the last flush, on values ----

  datatype Op = Add(id: Id) | Delete(id: Id)

  datatype Lives = Lives(live: set<Id>, spawned: seq<Id>, despawned: seq<Id>)

  function Do(r: Lives, op: Op): Lives
  {
    match op
    case Add(id) => if id in r.live then r else r.(live := r.live + {id}, spawned := r.spawned + [id])
    case Delete(id) => if id in r.live then r.(live := r.live - {id}, despawned := r.despawned + [id]) else r
  }

  function DoAll(r: Lives, ops: seq<Op>): Lives
  {
    if ops == [] then r else Do(DoAll(r, ops[..|ops| - 1]), ops[|ops| - 1])
  }

  /** What was spawned is alive or was deleted. */
  ghost predicate Accounted(r: Lives) { forall id :: id in r.spawned ==> id in r.live || id in r.despawned }

  /** Some id was deleted and registered again since the last flush. */
  ghost predicate Recreated(r: Lives) { exists id :: id in r.live && id in r.despawned }

  lemma {:induction false} OpsKeepAccounted(r: Lives, ops: seq<Op>)
    requires Accounted(r)
    ensures Accounted(DoAll(r, ops))
  {
    if ops != [] { OpsKeepAccounted(r, ops[..|ops| - 1]); }
  }

  /** Registering only ids that were not deleted since the flush leaves nothing re-created. */
  lemma {:induction false} FreshIdsAreNotRecreated(live: set<Id>, ops: seq<Op>)
    requires forall i :: 0 <= i < |ops| && ops[i].Add? ==> forall j :: 0 <= j < i ==> ops[j] != Delete(ops[i].id)
    ensures !Recreated(DoAll(Lives(live, [], []), ops))
    ensures forall id :: id in DoAll(Lives(live, [], []), ops).despawned ==> Delete(id) in ops
  {
    if ops != [] {
      var p, last := ops[..|ops| - 1], ops[|ops| - 1];
      assert forall i :: 0 <= i < |p| ==> p[i] == ops[i];
      FreshIdsAreNotRecreated(live, p);
      assert ops == p + [last];
      if last.Add? { assert Delete(last.id) !in p; }
    }
  }

  // ---- the blind update ----

  function BlindKnown(known: set<Id>, spawns: seq<Id>, removals: seq<Id>): set<Id>
  {
    (known + ToSet(spawns)) - ToSet(removals)
  }

  lemma BlindTwice(known: set<Id>, spawns: seq<Id>, removals: seq<Id>)
    ensures BlindKnown(BlindKnown(known, spawns, removals), spawns, removals) == BlindKnown(known, spawns, removals)
  {
  }

  /** The fast path keeps a complete known set complete exactly when nothing was re-created. */
  lemma BlindKeepsExactly(r: Lives)
    requires Accounted(r)
    ensures BlindKnown(r.live, r.spawned, r.despawned) == r.live <==> !Recreated(r)
    ensures BlindKnown(r.live, r.spawned, r.despawned) == r.live - ToSet(r.despawned)
  {
    var after := BlindKnown(r.live, r.spawned, r.despawned);
    assert forall id :: id in after <==> id in r.live && id !in r.despawned;
    assert forall id :: id in r.live - ToSet(r.despawned) <==> id in r.live && id !in r.despawned;
    if !Recreated(r) { assert forall id :: id in after <==> id in r.live; }
  }

  /** An entity deleted and registered again under its id between two ticks is dropped from every known
      set by the fast path, though it is live. */
  lemma RecreatedIsForgotten(id: Id)
    ensures var r := DoAll(Lives({id}, [], []), [Delete(id), Add(id)]);
            r.live == {id} && BlindKnown(r.live, r.spawned, r.despawned) == {}
  {
    RecreatedLives(id);
    var r := DoAll(Lives({id}, [], []), [Delete(id), Add(id)]);
    assert id in r.despawned;
    assert forall x :: x in BlindKnown(r.live, r.spawned, r.despawned) ==> x == id;
  }

  lemma RecreatedLives(id: Id)
    ensures DoAll(Lives({id}, [], []), [Delete(id), Add(id)]) == Lives({id}, [id], [id])
  {
    var ops := [Delete(id), Add(id)];
    var r0 := Lives({id}, [], []);
    assert ops[..1] == [Delete(id)] && ops[..1][..0] == [];
    assert DoAll(r0, []) == r0;
    assert DoAll(r0, ops[..1]) == Lives({}, [], [id]);
  }

  // ---- what a session should know ----

  function Desired(g: Groups, live: set<Id>, session: SessionId): set<Id>
  {
    set id | id in live && Permits(g, session, id)
  }

  function KnownOf(known: map<SessionId, set<Id>>, session: SessionId): set<Id>
  {
    if session in known then known[session] else {}
  }

  /** Everyone is up to date and may see everything. */
  ghost predicate AllKnow(known: map<SessionId, set<Id>>, sessions: seq<SessionId>, live: set<Id>)
  {
    forall i :: 0 <= i < |sessions| ==> KnownOf(known, sessions[i]) == live
  }

  /** The decision for the fast path is sound: the filtered diff would list no entry and no exit. */
  lemma FastPathHasNothingToFilter(g: Groups, live: set<Id>, session: SessionId, d: I.Diff)
    requires forall id :: Permits(g, session, id)
    requires I.DiffOf(live, Desired(g, live, session), d, live)
    ensures d.entered == [] && d.exited == [] && ToSet(d.stayed) == live
  {
    assert Desired(g, live, session) == live;
    NothingListed(d.entered);
    NothingListed(d.exited);
  }

  lemma NothingListed(s: seq<Id>)
    ensures ToSet(s) == {} <==> s == []
  {
    assert s != [] ==> s[0] in ToSet(s);
  }

  /** When a known set still is what the policy allows after the groups of removed entities are dropped. */
  lemma AfterCleanup(g: Groups, live: set<Id>, gone: set<Id>, session: SessionId)
    ensures Desired(g, live, session) == Desired(Without(g, gone), live, session) <==>
            forall id :: id in live && id in gone ==> Permits(g, session, id)
  {
    var a, b := Desired(g, live, session), Desired(Without(g, gone), live, session);
    assert forall id :: id in a ==> id in b;
    assert forall id :: id in b && id !in a ==> id in live && id in gone && !Permits(g, session, id);
    assert forall id :: id in live && id in gone ==> id in b;
  }

  lemma WithoutNothing(g: Groups)
    ensures Without(g, ToSet([])) == g
  {
    assert g.entity - ToSet([]) == g.entity;
  }

  lemma WithoutStep(g: Groups, ids: seq<Id>, i: nat)
    requires i < |ids|
    ensures Without(Without(g, ToSet(ids[..i])), {ids[i]}) == Without(g, ToSet(ids[..i + 1]))
  {
    assert ids[..i + 1] == ids[..i] + [ids[i]];
    assert ToSet(ids[..i + 1]) == ToSet(ids[..i]) + {ids[i]};
    assert g.entity - ToSet(ids[..i]) - {ids[i]} == g.entity - ToSet(ids[..i + 1]);
  }

  /** The policy as it should be after a tick: removed entities lose their group, unless they live again. */
  function Intended(g: Groups, r: Lives): Groups { Without(g, ToSet(r.despawned) - r.live) }

  /** No live entity of a group is among the removals. */
  predicate NoGroupedRecreated(g: Groups, r: Lives)
  {
    forall id :: id in r.live && id in r.despawned ==> id !in g.entity
  }

  /** The tick leaves the policy as it should be if and only if no live entity of a group is among the
      removals. */
  lemma CleanupKeepsGroupsExactly(g: Groups, r: Lives)
    ensures Without(g, ToSet(r.despawned)) == Intended(g, r) <==> NoGroupedRecreated(g, r)
  {
    var a, b := g.entity - ToSet(r.despawned), g.entity - (ToSet(r.despawned) - r.live);
    if NoGroupedRecreated(g, r) {
      assert forall id :: id in a <==> id in b;
      assert a == b;
    } else {
      var id :| id in r.live && id in r.despawned && id in g.entity;
      assert id in b && id !in a;
    }
  }

  /** What a session should know does not depend on the groups of the dead. */
  lemma IntendedShowsTheSame(g: Groups, r: Lives, session: SessionId)
    ensures Desired(Intended(g, r), r.live, session) == Desired(g, r.live, session)
  {
    assert forall id :: id in r.live ==> (Permits(Intended(g, r), session, id) <==> Permits(g, session, id));
  }

  // ---- the tick, on values ----

  datatype World = World(lives: Lives, groups: Groups, known: map<SessionId, set<Id>>)

  /** One broadcast tick. `special`: something owner-scoped is live or an ownership refresh is pending;
      `asked`: the sessions there when the path is chosen; `sessions`: the sessions there when it is taken;
      `served`: those still there when their turn comes and their frames go out. */
  ghost predicate Ticked(w: World, w': World, special: bool, asked: seq<SessionId>, sessions: seq<SessionId>,
                         served: SessionId -> bool, filter: bool)
  {
    && (!filter <==> w.groups.entity == map[] && !special && AllKnow(w.known, asked, w.lives.live))
    && w'.lives == Lives(w.lives.live, [], []) && w'.groups == Without(w.groups, ToSet(w.lives.despawned))
    && (forall x :: x !in sessions ==> KnownOf(w'.known, x) == KnownOf(w.known, x))
    && (forall x :: x in sessions ==> KnownOf(w'.known, x) == KnownAfter(w, served, filter, x))
  }

  function KnownAfter(w: World, served: SessionId -> bool, filter: bool, x: SessionId): set<Id>
  {
    if !filter then BlindKnown(KnownOf(w.known, x), w.lives.spawned, w.lives.despawned)
    else if served(x) then Desired(w.groups, w.lives.live, x)
    else {}
  }

  /** After a tick a served session knows exactly the live entities the policy allows it, except that the
      fast path forgets the re-created ones. That holds whatever it knew before, so a session that comes after
      the path was chosen is put right by the next tick that asks it. */
  lemma TickIsExact(w: World, w': World, special: bool, asked: seq<SessionId>, sessions: seq<SessionId>,
                    served: SessionId -> bool, filter: bool, x: SessionId)
    requires Accounted(w.lives) && Ticked(w, w', special, asked, sessions, served, filter)
    requires x in asked && x in sessions && (filter ==> served(x))
    ensures KnownOf(w'.known, x) == Desired(Intended(w.groups, w.lives), w.lives.live, x) <==> filter || !Recreated(w.lives)
  {
    IntendedShowsTheSame(w.groups, w.lives, x);
    if !filter {
      assert forall id :: Permits(w.groups, x, id);
      assert Desired(w.groups, w.lives.live, x) == w.lives.live;
      assert KnownOf(w.known, x) == w.lives.live;
      BlindKeepsExactly(w.lives);
    }
  }

  // ---- closed groups over whole runs ----

  datatype Act =
    | Register(op: Op)
    | SetGroup(id: Id, group: Group)
    | SetMembership(session: SessionId, groups: set<Group>)
    | Tick(special: bool, asked: seq<SessionId>, sessions: seq<SessionId>, served: SessionId -> bool, filter: bool, after: World)

  /** The world, and the groups the application means its entities to have: it set them, and they end with
      the entity. */
  datatype Scene = Scene(world: World, meant: map<Id, Group>)

  const EMPTY_SCENE := Scene(World(Lives({}, [], []), Groups(map[], map[]), map[]), map[])

  function Assign(groups: map<Id, Group>, id: Id, group: Group): map<Id, Group>
  {
    if group == "" then groups - {id} else groups[id := group]
  }

  function Play(s: Scene, act: Act): Scene
  {
    var w := s.world;
    match act
    case Register(op) => s.(world := w.(lives := Do(w.lives, op)))
    case SetGroup(id, group) =>
      Scene(w.(groups := w.groups.(entity := Assign(w.groups.entity, id, group))), Assign(s.meant, id, group))
    case SetMembership(session, groups) => s.(world := w.(groups := w.groups.(session := w.groups.session[session := groups])))
    case Tick(_, _, _, _, _, after) => Scene(after, s.meant - (ToSet(w.lives.despawned) - w.lives.live))
  }

  ghost predicate Possible(s: Scene, act: Act)
  {
    act.Tick? ==> Ticked(s.world, act.after, act.special, act.asked, act.sessions, act.served, act.filter)
  }

  function PlayAll(s: Scene, acts: seq<Act>): Scene
  {
    if acts == [] then s else Play(PlayAll(s, acts[..|acts| - 1]), acts[|acts| - 1])
  }

  ghost predicate Played(s: Scene, acts: seq<Act>)
  {
    acts == [] || (Played(s, acts[..|acts| - 1]) && Possible(PlayAll(s, acts[..|acts| - 1]), acts[|acts| - 1]))
  }

  /** No tick of the run finds a live entity of a group among the removals. */
  ghost predicate NeverGroupedRecreated(s: Scene, acts: seq<Act>)
  {
    acts == [] ||
    (var before := PlayAll(s, acts[..|acts| - 1]);
     && NeverGroupedRecreated(s, acts[..|acts| - 1])
     && (acts[|acts| - 1].Tick? ==> NoGroupedRecreated(before.world.groups, before.world.lives)))
  }

  /** The policy as meant. */
  function Meant(s: Scene): Groups { Groups(s.meant, s.world.groups.session) }

  lemma ActKeepsMeaning(s: Scene, act: Act)
    requires s.meant == s.world.groups.entity && Possible(s, act)
    ensures Play(s, act).meant == Play(s, act).world.groups.entity <==>
            (act.Tick? ==> NoGroupedRecreated(s.world.groups, s.world.lives))
  {
    if act.Tick? {
      CleanupKeepsGroupsExactly(s.world.groups, s.world.lives);
    }
  }

  /** The policy in force is the one meant, as long as no tick finds a live entity of a group among the
      removals; the first tick that does drops a group. */
  lemma {:induction false} PolicyIsAsMeant(acts: seq<Act>)
    requires Played(EMPTY_SCENE, acts) && NeverGroupedRecreated(EMPTY_SCENE, acts)
    ensures var s := PlayAll(EMPTY_SCENE, acts); s.meant == s.world.groups.entity
  {
    if acts != [] {
      PolicyIsAsMeant(acts[..|acts| - 1]);
      ActKeepsMeaning(PlayAll(EMPTY_SCENE, acts[..|acts| - 1]), acts[|acts| - 1]);
    }
  }

  /** Closed groups stay closed: after every tick of such a run, what a session on the list knows of the
      living is what the policy as meant allows it. */
  lemma ClosedGroupsStayClosed(acts: seq<Act>, x: SessionId, id: Id)
    requires acts != [] && Played(EMPTY_SCENE, acts) && NeverGroupedRecreated(EMPTY_SCENE, acts)
    requires acts[|acts| - 1].Tick? && x in acts[|acts| - 1].sessions
    requires id in KnownOf(PlayAll(EMPTY_SCENE, acts).world.known, x)
    ensures Permits(Meant(PlayAll(EMPTY_SCENE, acts)), x, id)
  {
    var before := PlayAll(EMPTY_SCENE, acts[..|acts| - 1]);
    PolicyIsAsMeant(acts);
    PolicyIsAsMeant(acts[..|acts| - 1]);
    var act := acts[|acts| - 1];
    assert Ticked(before.world, act.after, act.special, act.asked, act.sessions, act.served, act.filter);
    assert Permits(before.world.groups, x, id);
  }

  /** Two ticks after an entity of a group was deleted and registered again, sessions outside the group know
      it: the first tick drops the group although the entity lives, the second shows the entity to all. */
  lemma RecreatedLeavesItsGroup(id: Id, outsider: SessionId, w0: World, w1: World, w2: World,
                                special1: bool, special2: bool, sessions: seq<SessionId>, served: SessionId -> bool,
                                filter1: bool, filter2: bool)
    requires w0 == World(DoAll(Lives({id}, [], []), [Delete(id), Add(id)]), Groups(map[id := "team"], map[]), map[])
    requires outsider in sessions && served(outsider)
    requires Ticked(w0, w1, special1, sessions, sessions, served, filter1)
    requires Ticked(w1, w2, special2, sessions, sessions, served, filter2)
    ensures !Permits(Intended(w0.groups, w0.lives), outsider, id)
    ensures KnownOf(w1.known, outsider) == {} && KnownOf(w2.known, outsider) == {id}
  {
    RecreatedLives(id);
    assert id in w0.groups.entity;
    assert Desired(w0.groups, {id}, outsider) == {};
    assert w1.groups.entity == map[];
    assert KnownOf(w1.known, outsider) != w1.lives.live;
    assert exists i :: 0 <= i < |sessions| && sessions[i] == outsider;
    assert Desired(w1.groups, {id}, outsider) == {id};
  }

  /** The two loops over the desired and the known set. */
  method DiffSets(known: set<Id>, desired: set<Id>) returns (d: I.Diff)
    ensures I.DiffOf(known, desired, d, known)
  {
    var entered, stayed := Arrivals(known, desired);
    var exited := Departures(known + (desired - known), desired);
    d := I.Diff(entered, stayed, exited);
    assert known + (desired - known) - desired == known - desired;
    assert desired * known * known == desired * known;
  }

  method Arrivals(known: set<Id>, desired: set<Id>) returns (entered: seq<Id>, stayed: seq<Id>)
    ensures NoDup(entered) && NoDup(stayed)
    ensures ToSet(entered) == desired - known && ToSet(stayed) == desired * known
  {
    entered, stayed := [], [];
    var rest := desired;
    while rest != {}
      invariant rest <= desired && NoDup(entered) && NoDup(stayed)
      invariant forall id :: id in entered <==> id in desired && id !in rest && id !in known
      invariant forall id :: id in stayed <==> id in desired && id !in rest && id in known
      decreases rest
    {
      var id :| id in rest;
      rest := rest - {id};
      if id in known {
        stayed := stayed + [id];
      } else {
        entered := entered + [id];
      }
    }
  }

  method Departures(known: set<Id>, desired: set<Id>) returns (exited: seq<Id>)
    ensures NoDup(exited) && ToSet(exited) == known - desired
  {
    exited := [];
    var rest := known;
    while rest != {}
      invariant rest <= known && NoDup(exited)
      invariant forall id :: id in exited <==> id in known && id !in rest && id !in desired
      decreases rest
    {
      var id :| id in rest;
      rest := rest - {id};
      if id !in desired {
        exited := exited + [id];
      }
    }
  }

  class Broadcaster {
    var entities: map<Id, bool>  // whether each live entity is owner-scoped
    var spawned: seq<Id>
    var despawned: seq<Id>
    const visibility: Policy
    var broadcastKnown: map<SessionId, set<Id>>

    ghost predicate Valid()
      reads this, visibility
    {
      visibility.Valid() && Accounted(Registry())
    }

    ghost function Registry(): Lives
      reads this
    {
      Lives(entities.Keys, spawned, despawned)
    }

    constructor ()
      ensures Valid() && fresh(visibility) && entities == map[] && broadcastKnown == map[]
    {
      entities, spawned, despawned, broadcastKnown := map[], [], [], map[];
      visibility := new Policy();
    }

    method CreateEntity(id: Id, ownerScoped: bool) returns (ok: bool)
      requires Valid()
      modifies this`entities, this`spawned
      ensures Valid() && ok == (id !in old(entities)) && Registry() == Do(old(Registry()), Add(id))
      ensures ok ==> entities == old(entities)[id := ownerScoped]
    {
      if id in entities {
        return false;
      }
      entities := entities[id := ownerScoped];
      spawned := spawned + [id];
      return true;
    }

    method DeleteEntity(id: Id)
      requires Valid()
      modifies this`entities, this`despawned
      ensures Valid() && entities == old(entities) - {id} && Registry() == Do(old(Registry()), Delete(id))
    {
      if id in entities {
        entities := entities - {id};
        despawned := despawned + [id];
      } else {
        assert entities - {id} == entities;
      }
    }

    /** The registry's All, in whatever order its map is walked. */
    method All() returns (live: seq<Id>)
      ensures NoDup(live) && ToSet(live) == entities.Keys
    {
      live := [];
      var rest := entities.Keys;
      while rest != {}
        invariant NoDup(live) && rest !! ToSet(live) && rest + ToSet(live) == entities.Keys
        decreases rest
      {
        var id :| id in rest;
        rest := rest - {id};
        assert id !in ToSet(live);
        ghost var was := live;
        live := live + [id];
        assert ToSet(live) == ToSet(was) + {id};
      }
    }

    method HasOwnerScoped(live: seq<Id>) returns (some: bool)
      requires ToSet(live) <= entities.Keys
      ensures some <==> exists id :: id in live && entities[id]
    {
      for i := 0 to |live|
        invariant forall j :: 0 <= j < i ==> !entities[live[j]]
      {
        assert live[i] in ToSet(live);
        if entities[live[i]] {
          return true;
        }
      }
      return false;
    }

    /** A known set is compared with the live entities by size and then by membership. */
    method Complete(known: set<Id>, live: seq<Id>) returns (same: bool)
      requires NoDup(live)
      ensures same <==> known == ToSet(live)
    {
      NoDupSize(live);
      if |known| != |live| {
        return false;
      }
      for i := 0 to |live|
        invariant ToSet(live[..i]) <= known
      {
        assert ToSet(live[..i + 1]) == ToSet(live[..i]) + {live[i]};
        if live[i] !in known {
          assert live[i] in ToSet(live);
          return false;
        }
      }
      assert live[..|live|] == live;
      SubsetSize(ToSet(live), known);
      return true;
    }

    /** shouldFilterBroadcastLocked. */
    method ShouldFilter(sessionIDs: seq<SessionId>, live: seq<Id>, refreshPending: bool) returns (filter: bool)
      requires Valid() && NoDup(live) && ToSet(live) == entities.Keys
      ensures !filter <==>
                && visibility.entityGroup == map[] && !refreshPending && (forall id :: id in entities ==> !entities[id])
                && AllKnow(broadcastKnown, sessionIDs, entities.Keys)
      ensures !filter ==> forall s, id :: Permits(visibility.View(), s, id)
    {
      if visibility.HasGroupedEntities() {
        return true;
      }
      if refreshPending {
        return true;
      }
      var scoped := HasOwnerScoped(live);
      if scoped {
        return true;
      }
      assert forall id :: id in entities ==> id in ToSet(live);
      filter := SomeoneIsBehind(sessionIDs, live);
    }

    method SomeoneIsBehind(sessionIDs: seq<SessionId>, live: seq<Id>) returns (filter: bool)
      requires NoDup(live)
      ensures !filter <==> AllKnow(broadcastKnown, sessionIDs, ToSet(live))
    {
      for i := 0 to |sessionIDs|
        invariant forall j :: 0 <= j < i ==> KnownOf(broadcastKnown, sessionIDs[j]) == ToSet(live)
      {
        var sid := sessionIDs[i];
        if sid !in broadcastKnown {
          if |live| > 0 {
            assert live[0] in ToSet(live);
            return true;
          }
        } else {
          var same := Complete(broadcastKnown[sid], live);
          if !same {
            return true;
          }
        }
      }
      return false;
    }

    /** computeBroadcastDiff. */
    method ComputeBroadcastDiff(session: SessionId, live: seq<Id>) returns (d: I.Diff)
      modifies this`broadcastKnown
      ensures broadcastKnown == old(broadcastKnown)[session := Desired(visibility.View(), ToSet(live), session)]
      ensures I.DiffOf(KnownOf(old(broadcastKnown), session), broadcastKnown[session], d, KnownOf(old(broadcastKnown), session))
    {
      var known := if session in broadcastKnown then broadcastKnown[session] else {};
      var desired: set<Id> := {};
      for i := 0 to |live|
        invariant desired == Desired(visibility.View(), ToSet(live[..i]), session)
      {
        assert live[..i + 1] == live[..i] + [live[i]];
        if visibility.Allows(session, live[i]) {
          desired := desired + {live[i]};
        }
      }
      assert live[..|live|] == live;
      d := DiffSets(known, desired);
      broadcastKnown := broadcastKnown[session := desired];
    }

    /** applyBlindBroadcastKnown. */
    method ApplyBlind(sessionIDs: seq<SessionId>, spawnIDs: seq<Id>, removalIDs: seq<Id>)
      modifies this`broadcastKnown
      ensures forall s :: s in sessionIDs ==>
                KnownOf(broadcastKnown, s) == BlindKnown(KnownOf(old(broadcastKnown), s), spawnIDs, removalIDs)
      ensures forall s :: s !in sessionIDs ==> KnownOf(broadcastKnown, s) == KnownOf(old(broadcastKnown), s)
    {
      for i := 0 to |sessionIDs|
        invariant forall s :: s in sessionIDs[..i] ==>
          KnownOf(broadcastKnown, s) == BlindKnown(KnownOf(old(broadcastKnown), s), spawnIDs, removalIDs)
        invariant forall s :: s !in sessionIDs[..i] ==> KnownOf(broadcastKnown, s) == KnownOf(old(broadcastKnown), s)
      {
        var sid := sessionIDs[i];
        assert sessionIDs[..i + 1] == sessionIDs[..i] + [sid];
        var known := if sid in broadcastKnown then broadcastKnown[sid] else {};
        if sid in sessionIDs[..i] {
          BlindTwice(KnownOf(old(broadcastKnown), sid), spawnIDs, removalIDs);
        }
        known := AddAll(known, spawnIDs);
        known := RemoveAll(known, removalIDs);
        broadcastKnown := broadcastKnown[sid := known];
      }
      assert sessionIDs[..|sessionIDs|] == sessionIDs;
    }

    method AddAll(known: set<Id>, ids: seq<Id>) returns (after: set<Id>)
      ensures after == known + ToSet(ids)
    {
      after := known;
      for i := 0 to |ids|
        invariant after == known + ToSet(ids[..i])
      {
        assert ids[..i + 1] == ids[..i] + [ids[i]];
        after := after + {ids[i]};
      }
      assert ids[..|ids|] == ids;
    }

    method RemoveAll(known: set<Id>, ids: seq<Id>) returns (after: set<Id>)
      ensures after == known - ToSet(ids)
    {
      after := known;
      for i := 0 to |ids|
        invariant after == known - ToSet(ids[..i])
      {
        assert ids[..i + 1] == ids[..i] + [ids[i]];
        after := after - {ids[i]};
      }
      assert ids[..|ids|] == ids;
    }

    /** The known-set part of runBroadcastTickFiltered; a session that is gone, or lost while sending, is
        forgotten. */
    method FilteredPass(sessionIDs: seq<SessionId>, live: seq<Id>, connected: SessionId -> bool, sent: SessionId -> bool)
      modifies this`broadcastKnown
      ensures forall s :: s in sessionIDs ==>
                if connected(s) && sent(s)
                then s in broadcastKnown && broadcastKnown[s] == Desired(visibility.View(), ToSet(live), s)
                else s !in broadcastKnown
      ensures forall s :: s !in sessionIDs ==> KnownOf(broadcastKnown, s) == KnownOf(old(broadcastKnown), s)
    {
      for i := 0 to |sessionIDs|
        invariant forall s :: s in sessionIDs[..i] ==>
          if connected(s) && sent(s)
          then s in broadcastKnown && broadcastKnown[s] == Desired(visibility.View(), ToSet(live), s)
          else s !in broadcastKnown
        invariant forall s :: s !in sessionIDs[..i] ==> KnownOf(broadcastKnown, s) == KnownOf(old(broadcastKnown), s)
      {
        var sid := sessionIDs[i];
        assert sessionIDs[..i + 1] == sessionIDs[..i] + [sid];
        if !connected(sid) {
          broadcastKnown := broadcastKnown - {sid};
        } else {
          var _ := ComputeBroadcastDiff(sid, live);
          if !sent(sid) {
            broadcastKnown := broadcastKnown - {sid};
          }
        }
      }
      assert sessionIDs[..|sessionIDs|] == sessionIDs;
    }

    method RemoveGroup(id: Id)
      requires visibility.Valid()
      modifies visibility
      ensures visibility.Valid() && visibility.View() == Without(old(visibility.View()), {id})
    {
      visibility.RemoveEntity(id);
    }

    /** cleanupVisibilityForRemovals. */
    method CleanupVisibility(removalIDs: seq<Id>)
      requires visibility.Valid()
      modifies visibility
      ensures visibility.Valid() && visibility.View() == Without(old(visibility.View()), ToSet(removalIDs))
    {
      ghost var g := visibility.View();
      WithoutNothing(g);
      for i := 0 to |removalIDs|
        invariant visibility.Valid() && visibility.View() == Without(g, ToSet(removalIDs[..i]))
      {
        WithoutStep(g, removalIDs, i);
        RemoveGroup(removalIDs[i]);
      }
      assert removalIDs[..|removalIDs|] == removalIDs;
    }

    ghost function View(): World
      reads this, visibility
    {
      World(Registry(), visibility.View(), broadcastKnown)
    }

    ghost predicate Special(refreshPending: bool)
      reads this
    {
      refreshPending || exists id :: id in entities && entities[id]
    }

    /** runBroadcastTick is a tick. The listener's sessions are read once for the choice of the path and once more
        on the path. */
    method RunBroadcastTick(asked: seq<SessionId>, sessionIDs: seq<SessionId>, refreshPending: bool,
                            connected: SessionId -> bool, sent: SessionId -> bool)
      returns (filter: bool)
      requires Valid()
      modifies this`spawned, this`despawned, this`broadcastKnown, visibility
      ensures Valid()
      ensures Ticked(old(View()), View(), old(Special(refreshPending)), asked, sessionIDs, Both(connected, sent), filter)
    {
      var spawns, removals := spawned, despawned;
      spawned, despawned := [], [];
      var live := All();
      filter := ShouldFilter(asked, live, refreshPending);
      if filter {
        FilteredPass(sessionIDs, live, connected, sent);
      } else {
        ApplyBlind(sessionIDs, spawns, removals);
      }
      CleanupVisibility(removals);
    }
  }

  function Both(a: SessionId -> bool, b: SessionId -> bool): SessionId -> bool { x => a(x) && b(x) }
}
