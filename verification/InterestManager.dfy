/** Per-session visibility with hysteresis on top of the spatial hash (golem/interest/manager.go). */
module InterestManager {
  import opened Identifiers
  import opened InterestGrid

  datatype FOI = FOI(entity: Id, radius: real, margin: real)
  datatype Entity = Entity(id: Id, isGlobal: bool, pos: Pos)
  datatype Diff = Diff(entered: seq<Id>, stayed: seq<Id>, exited: seq<Id>)

  /** Reused between ticks: marks left by earlier generations are stale. */
  datatype Scratch = Scratch(marks: map<Id, nat>, generation: nat)

  const COMPACTION_FACTOR := 4
  const COMPACTION_MIN_SIZE := 256

  // ---- bookkeeping of a diff in progress ----

  const NO_DIFF := Diff([], [], [])

  /** `decided` ids have been dealt with: known ones are listed once as stayed or exited, others once
      as entered or not at all; and the known set follows the lists. */
  ghost predicate Ledger(before: set<Id>, known: set<Id>, d: Diff, decided: set<Id>)
  {
    && NoDup(d.entered) && NoDup(d.stayed) && NoDup(d.exited)
    && (forall id :: id in d.entered ==> id in decided && id !in before)
    && (forall id :: id in d.stayed ==> id in decided && id in before && id !in d.exited)
    && (forall id :: id in d.exited ==> id in decided && id in before)
    && (forall id :: id in decided && id in before ==> id in d.stayed || id in d.exited)
    && (forall id :: id in known <==> (id in before && id !in d.exited) || id in d.entered)
  }

  datatype Verdict = Enter | Stay | Exit | Skip

  function Apply(known: set<Id>, d: Diff, id: Id, v: Verdict): (set<Id>, Diff)
  {
    match v
    case Enter => (known + {id}, d.(entered := d.entered + [id]))
    case Stay => (known, d.(stayed := d.stayed + [id]))
    case Exit => (known - {id}, d.(exited := d.exited + [id]))
    case Skip => (known, d)
  }

  lemma LedgerStep(before: set<Id>, known: set<Id>, d: Diff, decided: set<Id>, id: Id, v: Verdict)
    requires Ledger(before, known, d, decided) && id !in decided
    requires id in before <==> v.Stay? || v.Exit?
    ensures var (known', d') := Apply(known, d, id, v); Ledger(before, known', d', decided + {id})
    ensures var (known', d') := Apply(known, d, id, v); forall other :: other != id ==> (other in known' <==> other in known)
    ensures id in Apply(known, d, id, v).0 <==> v.Enter? || v.Stay?
  {
  }

  /** What one session's diff looks at. */
  datatype View = View(positions: map<Id, Pos>, globals: set<Id>, removed: set<Id>, near: set<Id>,
                       centre: Pos, foi: FOI, allow: Id -> bool)

  ghost predicate Separate(v: View) { v.globals !! v.positions.Keys && v.removed !! v.globals && v.removed !! v.positions.Keys }

  predicate InReach(v: View, id: Id)
  {
    id in v.positions && Within(v.positions[id], v.centre, v.foi.radius + v.foi.margin)
  }


  /** Visibility by brute force: allowed, and either global or within the exit radius if known and
      the enter radius if not. */
  predicate Visible(v: View, before: set<Id>, id: Id)
  {
    v.allow(id) &&
    (id in v.globals ||
     (id in v.positions &&
      Within(v.positions[id], v.centre, if id in before then v.foi.radius + v.foi.margin else v.foi.radius)))
  }

  /** What the code shows: like Visible, but of the spatial entities only candidates of the query. */
  predicate Shown(v: View, before: set<Id>, id: Id)
  {
    Visible(v, before, id) && (id in v.globals || id in v.near)
  }

  ghost function Showing(v: View, before: set<Id>): Id -> bool { id => Shown(v, before, id) }

  /** With a complete query and radii that are not negative, the code shows what is visible. */
  lemma ShownIsVisible(v: View, before: set<Id>, id: Id)
    requires v.foi.radius >= 0.0 && v.foi.margin >= 0.0
    requires InReach(v, id) ==> id in v.near
    ensures Shown(v, before, id) <==> Visible(v, before, id)
  {
    var r, m := v.foi.radius, v.foi.margin;
    if id in v.positions && Within(v.positions[id], v.centre, r) {
      SquareGrows(r, m);
    }
  }

  lemma SquareGrows(r: real, m: real)
    requires r >= 0.0 && m >= 0.0
    ensures r * r <= (r + m) * (r + m)
  {
    assert (r + m) * (r + m) == r * r + 2.0 * (r * m) + m * m;
    assert r * m >= 0.0;
    SquareNonNegative(m);
  }

  /** Without an anchor on the grid only globals are looked at; known spatial entities are kept. */
  predicate Retained(v: View, before: set<Id>, id: Id)
  {
    if id in v.globals then v.allow(id) else id in before && id !in v.removed
  }

  ghost function Retention(v: View, before: set<Id>): Id -> bool { id => Retained(v, before, id) }

  /** On decided ids the known set is the goal; on the others it is unchanged. */
  ghost predicate Follows(goal: Id -> bool, before: set<Id>, known: set<Id>, decided: set<Id>)
  {
    forall id :: id in known <==> if id in decided then goal(id) else id in before
  }

  ghost predicate Progress(goal: Id -> bool, before: set<Id>, known: set<Id>, d: Diff, decided: set<Id>)
  {
    Ledger(before, known, d, decided) && Follows(goal, before, known, decided)
  }

  lemma ProgressStep(goal: Id -> bool, before: set<Id>, known: set<Id>, d: Diff, decided: set<Id>, id: Id, verdict: Verdict)
    requires Progress(goal, before, known, d, decided) && id !in decided
    requires id in before <==> verdict.Stay? || verdict.Exit?
    requires goal(id) <==> verdict.Enter? || verdict.Stay?
    ensures var (known', d') := Apply(known, d, id, verdict); Progress(goal, before, known', d', decided + {id})
  {
    LedgerStep(before, known, d, decided, id, verdict);
  }

  /** The lists are the difference between two known sets, each id once; stayed lists those that were
      `looked` at. */
  ghost predicate DiffOf(before: set<Id>, after: set<Id>, d: Diff, looked: set<Id>)
  {
    && NoDup(d.entered) && NoDup(d.stayed) && NoDup(d.exited)
    && ToSet(d.entered) == after - before
    && ToSet(d.stayed) == after * before * looked
    && ToSet(d.exited) == before - after
  }

  lemma ProgressDone(goal: Id -> bool, before: set<Id>, known: set<Id>, d: Diff, decided: set<Id>)
    requires Progress(goal, before, known, d, decided)
    requires forall id :: id !in decided ==> (goal(id) <==> id in before)
    ensures forall id :: id in known <==> goal(id)
    ensures DiffOf(before, known, d, decided)
  {
    assert forall id :: id in ToSet(d.entered) <==> id in known - before;
    assert forall id :: id in ToSet(d.stayed) <==> id in known * before * decided;
    assert forall id :: id in ToSet(d.exited) <==> id in before - known;
  }

  /** The loop over the candidates of the query: verdicts, and marks of this generation. */
  method CandidatePass(v: View, before: set<Id>, candidates: seq<Id>, marks0: map<Id, nat>, generation: nat)
    returns (known: set<Id>, d: Diff, marks: map<Id, nat>)
    requires NoDup(candidates) && v.near == ToSet(candidates) && Separate(v)
    requires forall id :: id in candidates ==> InReach(v, id)
    requires forall id :: id in marks0 ==> marks0[id] < generation
    ensures Progress(Showing(v, before), before, known, d, ToSet(candidates))
    ensures forall id :: id in candidates <==> id in marks && marks[id] == generation
    ensures forall id :: id in marks ==> marks[id] <= generation
  {
    ghost var goal := Showing(v, before);
    known, d, marks := before, NO_DIFF, marks0;
    for i := 0 to |candidates|
      invariant Progress(goal, before, known, d, ToSet(candidates[..i]))
      invariant forall id :: id in candidates[..i] <==> id in marks && marks[id] == generation
      invariant forall id :: id in marks ==> marks[id] <= generation
    {
      var id := candidates[i];
      marks := marks[id := generation];
      assert InReach(v, id);
      var verdict := Judge(v, known, id);
      assert candidates[..i + 1] == candidates[..i] + [id];
      assert ToSet(candidates[..i + 1]) == ToSet(candidates[..i]) + {id};
      assert id !in candidates[..i];
      ProgressStep(goal, before, known, d, ToSet(candidates[..i]), id, verdict);
      var r := Apply(known, d, id, verdict);
      known, d := r.0, r.1;
    }
    assert candidates[..|candidates|] == candidates;
  }

  /** The branches on one candidate. */
  function Judge(v: View, known: set<Id>, id: Id): Verdict
    requires id in v.positions
  {
    var d2 := Dist2(v.positions[id], v.centre);
    var enterR2 := v.foi.radius * v.foi.radius;
    var exitR2 := (v.foi.radius + v.foi.margin) * (v.foi.radius + v.foi.margin);
    if id in known then (if d2 <= exitR2 && v.allow(id) then Stay else Exit)
    else if d2 <= enterR2 && v.allow(id) then Enter else Skip
  }

  // ---- the candidate marks ----

  predicate ShouldCompact(marks: map<Id, nat>, candidates: nat, known: nat)
  {
    var active := if known > candidates then known else candidates;
    var size := if active < 1 then 1 else active;
    |marks| > COMPACTION_MIN_SIZE && |marks| > size * COMPACTION_FACTOR
  }

  /** Rebuilding the marks from the candidates keeps what this generation can read from them. */
  method CompactMarks(candidates: seq<Id>, generation: nat) returns (marks: map<Id, nat>)
    ensures marks.Keys == ToSet(candidates) && forall id :: id in marks ==> marks[id] == generation
  {
    marks := map[];
    for i := 0 to |candidates|
      invariant marks.Keys == ToSet(candidates[..i]) && forall id :: id in marks ==> marks[id] == generation
    {
      assert candidates[..i + 1] == candidates[..i] + [candidates[i]];
      marks := marks[candidates[i] := generation];
    }
    assert candidates[..|candidates|] == candidates;
  }

  /** Known spatial entities that were not candidates leave. */
  method ExitPass(ghost goal: Id -> bool, globals: set<Id>, before: set<Id>, known0: set<Id>, d0: Diff, marks: map<Id, nat>, generation: nat, ghost decided0: set<Id>)
    returns (known: set<Id>, d: Diff, ghost decided: set<Id>)
    requires Progress(goal, before, known0, d0, decided0)
    requires forall id :: id in decided0 <==> id in marks && marks[id] == generation
    requires forall id :: id in before && id !in globals && id !in decided0 ==> !goal(id)
    ensures Progress(goal, before, known, d, decided)
    ensures forall id :: id in decided <==> id in decided0 || (id in before && id !in globals)
  {
    known, d := known0, d0;
    decided := decided0;
    var rest := known0;
    while rest != {}
      invariant rest <= known && Progress(goal, before, known, d, decided)
      invariant forall id :: id in decided <==>
        id in decided0 || (id in before && id !in globals && id !in rest)
      decreases rest
    {
      var id :| id in rest;
      rest := rest - {id};
      if id !in globals && (id !in marks || marks[id] != generation) {
        assert id in before;
        ProgressStep(goal, before, known, d, decided, id, Exit);
        var r := Apply(known, d, id, Exit);
        known, d := r.0, r.1;
        decided := decided + {id};
      }
    }
  }

  /** appendGlobalsFiltered: the live globals, then those that died. */
  method AppendGlobals(ghost goal: Id -> bool, v: View, before: set<Id>, known0: set<Id>, d0: Diff, ghost decided0: set<Id>)
    returns (known: set<Id>, d: Diff)
    requires Progress(goal, before, known0, d0, decided0) && decided0 !! v.globals && v.removed !! v.globals
    requires forall id :: id in v.globals ==> (goal(id) <==> v.allow(id))
    requires forall id :: id in v.removed ==> !goal(id)
    ensures Progress(goal, before, known, d, decided0 + v.globals + v.removed)
  {
    known, d := AppendLive(goal, v, before, known0, d0, decided0);
    known, d := AppendRemoved(goal, v, before, known, d, decided0 + v.globals);
  }

  method AppendLive(ghost goal: Id -> bool, v: View, before: set<Id>, known0: set<Id>, d0: Diff, ghost decided0: set<Id>)
    returns (known: set<Id>, d: Diff)
    requires Progress(goal, before, known0, d0, decided0) && decided0 !! v.globals
    requires forall id :: id in v.globals ==> (goal(id) <==> v.allow(id))
    ensures Progress(goal, before, known, d, decided0 + v.globals)
  {
    known, d := known0, d0;
    var rest := v.globals;
    assert decided0 + (v.globals - rest) == decided0;
    while rest != {}
      invariant rest <= v.globals && Progress(goal, before, known, d, decided0 + (v.globals - rest))
      decreases rest
    {
      var id :| id in rest;
      var verdict :=
        if !v.allow(id) then (if id in known then Exit else Skip)
        else if id in known then Stay else Enter;
      ProgressStep(goal, before, known, d, decided0 + (v.globals - rest), id, verdict);
      assert decided0 + (v.globals - rest) + {id} == decided0 + (v.globals - (rest - {id}));
      rest := rest - {id};
      var r := Apply(known, d, id, verdict);
      known, d := r.0, r.1;
    }
    assert decided0 + (v.globals - rest) == decided0 + v.globals;
  }

  method AppendRemoved(ghost goal: Id -> bool, v: View, before: set<Id>, known0: set<Id>, d0: Diff, ghost decided0: set<Id>)
    returns (known: set<Id>, d: Diff)
    requires Progress(goal, before, known0, d0, decided0)
    requires forall id :: id in v.removed ==> !goal(id)
    ensures Progress(goal, before, known, d, decided0 + v.removed)
  {
    known, d := known0, d0;
    var rest := v.removed;
    assert decided0 + (v.removed - rest) == decided0;
    while rest != {}
      invariant rest <= v.removed && Progress(goal, before, known, d, decided0 + (v.removed - rest))
      decreases rest
    {
      var id :| id in rest;
      ghost var decided := decided0 + (v.removed - rest);
      assert decided + {id} == decided0 + (v.removed - (rest - {id}));
      if id in known {
        ProgressStep(goal, before, known, d, decided, id, Exit);
        var r := Apply(known, d, id, Exit);
        known, d := r.0, r.1;
      } else if id !in decided {
        ProgressStep(goal, before, known, d, decided, id, Skip);
      } else {
        assert decided + {id} == decided;
      }
      rest := rest - {id};
    }
    assert decided0 + (v.removed - rest) == decided0 + v.removed;
  }

  /** One session whose anchor is on the grid. */
  method SpatialDiff(v: View, before: set<Id>, candidates: seq<Id>, scratch: Scratch)
    returns (known: set<Id>, d: Diff, scratch': Scratch)
    requires NoDup(candidates) && v.near == ToSet(candidates) && MarksOk(scratch) && Separate(v)
    requires forall id :: id in candidates ==> InReach(v, id)
    ensures MarksOk(scratch') && DiffOf(before, known, d, before)
    ensures forall id :: id in known <==> Shown(v, before, id)
  {
    ghost var goal := Showing(v, before);
    var generation := scratch.generation + 1;
    var marks;
    known, d, marks := CandidatePass(v, before, candidates, scratch.marks, generation);
    if ShouldCompact(marks, |candidates|, |known|) {
      marks := CompactMarks(candidates, generation);
    }
    scratch' := Scratch(marks, generation);
    ghost var decided;
    known, d, decided := ExitPass(goal, v.globals, before, known, d, marks, generation, v.near);
    known, d := AppendGlobals(goal, v, before, known, d, decided);
    ProgressDone(goal, before, known, d, decided + v.globals + v.removed);
  }

  /** One session whose anchor is gone or global: only globals are looked at. */
  method GlobalDiff(v: View, before: set<Id>) returns (known: set<Id>, d: Diff)
    requires v.removed !! v.globals
    ensures forall id :: id in known <==> Retained(v, before, id)
    ensures DiffOf(before, known, d, v.globals)
  {
    ghost var goal := Retention(v, before);
    assert Progress(goal, before, before, NO_DIFF, {});
    known, d := AppendGlobals(goal, v, before, before, NO_DIFF, {});
    ProgressDone(goal, before, known, d, {} + v.globals + v.removed);
  }

  ghost predicate ScratchOk(scratch: map<SessionId, Scratch>)
  {
    forall s :: s in scratch ==> MarksOk(scratch[s])
  }

  /** No mark is from the future. */
  ghost predicate MarksOk(s: Scratch) { forall id :: id in s.marks ==> s.marks[id] <= s.generation }

  // ---- synchronising with the registry, on values ----

  /** Where everything is: positions of spatial entities, and the global ones. */
  datatype World = World(positions: map<Id, Pos>, globals: set<Id>)

  function Sync(w: World, e: Entity): World
  {
    if e.isGlobal then World(w.positions - {e.id}, w.globals + {e.id})
    else World(w.positions[e.id := e.pos], w.globals - {e.id})
  }

  function SyncAll(w: World, all: seq<Entity>): World
  {
    if all == [] then w else Sync(SyncAll(w, all[..|all| - 1]), all[|all| - 1])
  }

  function IdsOf(all: seq<Entity>): set<Id> { set i | 0 <= i < |all| :: all[i].id }

  lemma IdsOfLast(all: seq<Entity>)
    requires all != []
    ensures IdsOf(all) == IdsOf(all[..|all| - 1]) + {all[|all| - 1].id}
  {
    var p := all[..|all| - 1];
    assert all[|all| - 1].id in IdsOf(all);
    forall id | id in IdsOf(all) ensures id in IdsOf(p) + {all[|all| - 1].id} {
      var i :| 0 <= i < |all| && all[i].id == id;
      if i < |p| { assert p[i].id == id; }
    }
    forall id | id in IdsOf(p) ensures id in IdsOf(all) {
      var i :| 0 <= i < |p| && p[i].id == id;
      assert all[i].id == id;
    }
  }

  /** What is dead is dropped. */
  function Living(w: World, alive: set<Id>): World
  {
    World(Kept(w.positions, alive), w.globals * alive)
  }

  function Kept(positions: map<Id, Pos>, keep: set<Id>): map<Id, Pos>
  {
    map id | id in positions && id in keep :: positions[id]
  }

  lemma KeptStep(was: map<Id, Pos>, alive: set<Id>, rest: set<Id>, id: Id)
    requires id in rest
    ensures Kept(was, alive + (rest - {id})) ==
            if id in alive then Kept(was, alive + rest) else Kept(was, alive + rest) - {id}
  {
  }

  ghost predicate Distinct(all: seq<Entity>) { forall i, j :: 0 <= i < j < |all| ==> all[i].id != all[j].id }

  /** After synchronising, every entity is where it says, and nothing else is anywhere. */
  lemma {:induction false} SyncedEntity(w: World, all: seq<Entity>, i: nat)
    requires Distinct(all) && i < |all|
    ensures var w' := SyncAll(w, all); var e := all[i];
            && (e.isGlobal ==> e.id in w'.globals && e.id !in w'.positions)
            && (!e.isGlobal ==> e.id !in w'.globals && e.id in w'.positions && w'.positions[e.id] == e.pos)
    decreases |all|
  {
    if i < |all| - 1 { SyncedEntity(w, all[..|all| - 1], i); }
  }

  /** An id not listed keeps its place. */
  lemma {:induction false} SyncedOther(w: World, all: seq<Entity>, id: Id)
    requires id !in IdsOf(all)
    ensures id in SyncAll(w, all).globals <==> id in w.globals
  {
    if all != [] {
      IdsOfLast(all);
      SyncedOther(w, all[..|all| - 1], id);
    }
  }

  /** UpdateGrid forgets the past: whatever was tracked before, the grid holds exactly the live spatial
      entities at their positions and the globals exactly the live global ones; the removed globals are
      the former ones that are dead. */
  lemma SyncIsExact(w: World, all: seq<Entity>)
    requires Distinct(all)
    ensures var now := Living(SyncAll(w, all), IdsOf(all));
            && (forall e :: e in all ==> (e.id in now.globals <==> e.isGlobal))
            && (forall e :: e in all ==> (e.id in now.positions <==> !e.isGlobal))
            && (forall e :: e in all && !e.isGlobal ==> now.positions[e.id] == e.pos)
            && now.globals <= IdsOf(all) && now.positions.Keys <= IdsOf(all)
    ensures SyncAll(w, all).globals - IdsOf(all) == w.globals - IdsOf(all)
  {
    forall e | e in all
      ensures var now := Living(SyncAll(w, all), IdsOf(all));
              && (e.id in now.globals <==> e.isGlobal) && (e.id in now.positions <==> !e.isGlobal)
              && (!e.isGlobal ==> now.positions[e.id] == e.pos)
    {
      var i :| 0 <= i < |all| && all[i] == e;
      SyncedEntity(w, all, i);
      assert all[i].id in IdsOf(all);
    }
    forall id | id !in IdsOf(all) ensures id in SyncAll(w, all).globals <==> id in w.globals {
      SyncedOther(w, all, id);
    }
  }

  // ---- what a tick promises a session ----

  function ViewOf(w: World, removed: set<Id>, f: FOI, near: set<Id>, allow: Id -> bool): View
    requires f.entity in w.positions
  {
    View(w.positions, w.globals, removed, near, w.positions[f.entity], f, allow)
  }

  /** The new known set is exactly what brute force says, and the diff says how it came about. */
  ghost predicate Correct(w: World, removed: set<Id>, f: FOI, allow: Id -> bool, before: set<Id>, after: set<Id>, d: Diff)
  {
    if f.entity in w.positions then
      var v := ViewOf(w, removed, f, {}, allow);
      && DiffOf(before, after, d, before)
      && (f.radius >= 0.0 && f.margin >= 0.0 ==> forall id :: id in after <==> Visible(v, before, id))
    else
      && DiffOf(before, after, d, w.globals)
      && forall id :: id in after <==> if id in w.globals then allow(id) else id in before && id !in removed
  }

  lemma ShownIsCorrect(w: World, removed: set<Id>, f: FOI, near: set<Id>, allow: Id -> bool, before: set<Id>, after: set<Id>, d: Diff)
    requires f.entity in w.positions && DiffOf(before, after, d, before)
    requires var v := ViewOf(w, removed, f, near, allow);
             && (forall id :: id in after <==> Shown(v, before, id))
             && (f.radius + f.margin >= 0.0 ==> forall id :: InReach(v, id) ==> id in near)
    ensures Correct(w, removed, f, allow, before, after, d)
  {
    var v := ViewOf(w, removed, f, near, allow);
    if f.radius >= 0.0 && f.margin >= 0.0 {
      forall id ensures id in after <==> Visible(v.(near := {}), before, id) {
        ShownIsVisible(v, before, id);
      }
    }
  }

  function ForSession(allow: (SessionId, Id) -> bool, session: SessionId): Id -> bool { id => allow(session, id) }

  ghost predicate AllCorrect(w: World, removed: set<Id>, fois: map<SessionId, FOI>, allow: (SessionId, Id) -> bool,
                             before: map<SessionId, set<Id>>, after: map<SessionId, set<Id>>, diffs: map<SessionId, Diff>)
  {
    forall s :: s in diffs ==>
      && s in fois && s in before && s in after
      && Correct(w, removed, fois[s], ForSession(allow, s), before[s], after[s], diffs[s])
  }

  lemma AllCorrectStep(w: World, removed: set<Id>, fois: map<SessionId, FOI>, allow: (SessionId, Id) -> bool,
                       before: map<SessionId, set<Id>>, after: map<SessionId, set<Id>>, diffs: map<SessionId, Diff>,
                       s: SessionId, known: set<Id>, d: Diff)
    requires AllCorrect(w, removed, fois, allow, before, after, diffs) && s in fois && s in before && s !in diffs
    requires Correct(w, removed, fois[s], ForSession(allow, s), before[s], known, d)
    ensures AllCorrect(w, removed, fois, allow, before, after[s := known], diffs[s := d])
  {
  }

  // ---- hysteresis over whole runs ----

  datatype Tick = Tick(w: World, removed: set<Id>, f: FOI, allow: Id -> bool, after: set<Id>, d: Diff)

  ghost predicate Ticked(before: set<Id>, ticks: seq<Tick>)
    decreases |ticks|
  {
    ticks == [] ||
    (var t := ticks[0]; Correct(t.w, t.removed, t.f, t.allow, before, t.after, t.d) && Ticked(t.after, ticks[1..]))
  }

  /** A spatial entity that is allowed and between the enter and the exit radius of an anchored session. */
  ghost predicate InBand(t: Tick, id: Id)
  {
    && t.f.radius >= 0.0 && t.f.margin >= 0.0 && t.f.entity in t.w.positions
    && t.allow(id) && id !in t.w.globals && id in t.w.positions
    && !Within(t.w.positions[id], t.w.positions[t.f.entity], t.f.radius)
    && Within(t.w.positions[id], t.w.positions[t.f.entity], t.f.radius + t.f.margin)
  }

  /** As long as it stays there, it neither appears nor disappears. */
  lemma {:induction false} NoFlicker(before: set<Id>, ticks: seq<Tick>, id: Id, i: nat)
    requires Ticked(before, ticks) && i < |ticks|
    requires forall j :: 0 <= j < |ticks| ==> InBand(ticks[j], id)
    ensures id in ticks[i].after <==> id in before
    ensures id !in ticks[i].d.entered && id !in ticks[i].d.exited
    decreases |ticks|
  {
    var t := ticks[0];
    OneTickInBand(before, t, id);
    if i > 0 {
      NoFlicker(t.after, ticks[1..], id, i - 1);
    }
  }

  lemma OneTickInBand(before: set<Id>, t: Tick, id: Id)
    requires Correct(t.w, t.removed, t.f, t.allow, before, t.after, t.d) && InBand(t, id)
    ensures id in t.after <==> id in before
    ensures id !in t.d.entered && id !in t.d.exited
  {
    var v := ViewOf(t.w, t.removed, t.f, {}, t.allow);
    assert id in t.after <==> Visible(v, before, id);
    assert id in t.d.entered <==> id in ToSet(t.d.entered);
    assert id in t.d.exited <==> id in ToSet(t.d.exited);
  }

  class Manager {
    const grid: Grid
    var fois: map<SessionId, FOI>
    var known: map<SessionId, set<Id>>
    var globals: set<Id>
    var removedGlobals: set<Id>
    var tracked: set<Id>
    var scratch: map<SessionId, Scratch>

    ghost predicate Valid()
      reads this, grid
    {
      && grid.Valid()
      && fois.Keys == known.Keys
      && tracked == grid.positions.Keys
      && globals !! grid.positions.Keys
      && removedGlobals !! globals && removedGlobals !! grid.positions.Keys
      && ScratchOk(scratch)
    }

    constructor (cellSize: real)
      requires cellSize > 0.0
      ensures Valid() && fresh(grid) && fois == map[] && grid.positions == map[] && globals == {}
    {
      grid := new Grid(cellSize);
      fois, known, globals, removedGlobals, tracked, scratch := map[], map[], {}, {}, {}, map[];
    }

    method AssignFOI(session: SessionId, entity: Id, radius: real, margin: real)
      requires Valid()
      modifies this`fois, this`known
      ensures Valid() && fois == old(fois)[session := FOI(entity, radius, margin)]
      ensures known == if session in old(known) then old(known) else old(known)[session := {}]
    {
      fois := fois[session := FOI(entity, radius, margin)];
      if session !in known {
        known := known[session := {}];
      }
    }

    method RemoveFOI(session: SessionId)
      requires Valid()
      modifies this`fois, this`known, this`scratch
      ensures Valid() && fois == old(fois) - {session} && known == old(known) - {session}
    {
      fois := fois - {session};
      known := known - {session};
      scratch := scratch - {session};
    }

    // ---- synchronising with the registry ----

    ghost function Where(): World
      reads this, grid
    {
      World(grid.positions, globals)
    }

    /** UpdateGrid: the grid holds the live spatial entities, `globals` the live global ones, and
        removedGlobals the globals that died since. */
    method UpdateGrid(all: seq<Entity>)
      requires Valid()
      modifies this`globals, this`removedGlobals, this`tracked, grid
      ensures Valid()
      ensures Where() == Living(SyncAll(old(Where()), all), IdsOf(all))
      ensures removedGlobals == SyncAll(old(Where()), all).globals - IdsOf(all)
    {
      removedGlobals := {};
      var alive: set<Id> := {};
      for i := 0 to |all|
        invariant Valid() && removedGlobals == {}
        invariant Where() == SyncAll(old(Where()), all[..i]) && alive == IdsOf(all[..i])
      {
        assert all[..i + 1][..i] == all[..i];
        IdsOfLast(all[..i + 1]);
        alive := alive + {all[i].id};
        SyncEntity(all[i]);
      }
      assert all[..|all|] == all;
      SweepTracked(alive);
      SweepGlobals(alive);
    }

    method SyncEntity(e: Entity)
      requires Valid() && removedGlobals == {}
      modifies this`globals, this`tracked, grid
      ensures Valid() && Where() == Sync(old(Where()), e)
    {
      if e.isGlobal {
        globals := globals + {e.id};
        grid.Remove(e.id);
        tracked := tracked - {e.id};
      } else {
        globals := globals - {e.id};
        Track(e);
        tracked := tracked + {e.id};
      }
    }

    method Track(e: Entity)
      requires grid.Valid()
      modifies grid
      ensures grid.Valid() && grid.positions == old(grid.positions)[e.id := e.pos]
    {
      if grid.Has(e.id) {
        grid.Move(e.id, e.pos.x, e.pos.y);
      } else {
        grid.Insert(e.id, e.pos.x, e.pos.y);
      }
    }

    method SweepTracked(alive: set<Id>)
      requires Valid()
      modifies this`tracked, grid
      ensures Valid() && grid.positions == Kept(old(grid.positions), alive)
    {
      ghost var was := grid.positions;
      var rest := tracked;
      assert Kept(was, alive + rest) == was;
      while rest != {}
        invariant rest <= was.Keys && grid.Valid() && tracked == grid.positions.Keys
        invariant grid.positions == Kept(was, alive + rest)
        decreases rest
      {
        var id :| id in rest;
        KeptStep(was, alive, rest, id);
        rest := rest - {id};
        if id !in alive {
          grid.Remove(id);
          tracked := tracked - {id};
        }
      }
      assert alive + {} == alive;
    }

    method SweepGlobals(alive: set<Id>)
      requires Valid() && removedGlobals == {}
      modifies this`globals, this`removedGlobals
      ensures Valid() && globals == old(globals) * alive && removedGlobals == old(globals) - alive
    {
      var rest := globals;
      while rest != {}
        invariant rest <= globals <= old(globals) && removedGlobals <= old(globals)
        invariant forall id :: id in old(globals) && id !in rest ==>
          (id in globals <==> id in alive) && (id in removedGlobals <==> id !in alive)
        invariant removedGlobals !! globals
        decreases rest
      {
        var id :| id in rest;
        rest := rest - {id};
        if id !in alive {
          removedGlobals := removedGlobals + {id};
          globals := globals - {id};
        }
      }
    }

    // ---- the diffs ----

    /** One session's turn in ComputeDiffsFiltered. */
    method DiffSession(session: SessionId, allow: Id -> bool) returns (d: Diff)
      requires Valid() && session in fois
      modifies this`known, this`scratch
      ensures Valid() && known == old(known)[session := known[session]]
      ensures Correct(Where(), removedGlobals, fois[session], allow, old(known)[session], known[session], d)
    {
      var foi := fois[session];
      var before := known[session];
      var work := if session in scratch then scratch[session] else Scratch(map[], 0);
      var after;
      if foi.entity in grid.positions {
        after, d, work := Anchored(foi, before, work, allow);
      } else {
        var v := View(grid.positions, globals, removedGlobals, {}, Pos(0.0, 0.0), foi, allow);
        after, d := GlobalDiff(v, before);
      }
      known := known[session := after];
      scratch := scratch[session := work];
    }

    method Anchored(foi: FOI, before: set<Id>, work: Scratch, allow: Id -> bool)
      returns (after: set<Id>, d: Diff, work': Scratch)
      requires Valid() && foi.entity in grid.positions && MarksOk(work)
      ensures MarksOk(work') && Correct(Where(), removedGlobals, foi, allow, before, after, d)
    {
      var candidates := Candidates(foi, allow);
      var v := ViewOf(World(grid.positions, globals), removedGlobals, foi, ToSet(candidates), allow);
      after, d, work' := SpatialDiff(v, before, candidates, work);
      ShownIsCorrect(Where(), removedGlobals, foi, ToSet(candidates), allow, before, after, d);
    }

    /** The query around the anchor. */
    method Candidates(foi: FOI, ghost allow: Id -> bool) returns (candidates: seq<Id>)
      requires Valid() && foi.entity in grid.positions
      ensures NoDup(candidates)
      ensures var v := ViewOf(Where(), removedGlobals, foi, ToSet(candidates), allow);
              && (forall id :: id in candidates ==> InReach(v, id))
              && (foi.radius + foi.margin >= 0.0 ==> forall id :: InReach(v, id) ==> id in candidates)
    {
      var centre := grid.positions[foi.entity];
      assert Pos(centre.x, centre.y) == centre;
      candidates := grid.Query(centre.x, centre.y, foi.radius + foi.margin);
    }

    /** ComputeDiffsFiltered: every session with a field of interest gets the right diff. */
    method ComputeDiffsFiltered(allow: (SessionId, Id) -> bool) returns (diffs: map<SessionId, Diff>)
      requires Valid()
      modifies this`known, this`scratch
      ensures Valid() && diffs.Keys == fois.Keys
      ensures AllCorrect(Where(), removedGlobals, fois, allow, old(known), known, diffs)
    {
      diffs := map[];
      var rest := fois.Keys;
      while rest != {}
        invariant Valid() && rest !! diffs.Keys && rest + diffs.Keys == fois.Keys
        invariant forall s :: s in rest ==> known[s] == old(known)[s]
        invariant AllCorrect(Where(), removedGlobals, fois, allow, old(known), known, diffs)
        decreases rest
      {
        var session :| session in rest;
        rest := rest - {session};
        diffs := AddDiff(session, allow, old(known), diffs);
      }
    }

    method AddDiff(session: SessionId, allow: (SessionId, Id) -> bool, ghost before: map<SessionId, set<Id>>, diffs: map<SessionId, Diff>)
      returns (diffs': map<SessionId, Diff>)
      requires Valid() && session in fois && session in before && session !in diffs && known[session] == before[session]
      requires AllCorrect(Where(), removedGlobals, fois, allow, before, known, diffs)
      modifies this`known, this`scratch
      ensures Valid() && diffs'.Keys == diffs.Keys + {session}
      ensures forall s :: s in fois && s != session ==> known[s] == old(known)[s]
      ensures AllCorrect(Where(), removedGlobals, fois, allow, before, known, diffs')
    {
      ghost var after, w := known, Where();
      var d := DiffSession(session, ForSession(allow, session));
      assert Where() == w;
      AllCorrectStep(w, removedGlobals, fois, allow, before, after, diffs, session, known[session], d);
      diffs' := diffs[session := d];
    }
  }
}
