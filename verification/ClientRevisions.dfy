/** The client's copy of one entity: updates older than the newest one it took are refused
    (codegen/templates/js/manager.ts.tmpl, codegen/templates/go_client/manager.go.tmpl). */
module ClientRevisions {
  import opened Identifiers
  import opened Datagrams
  import opened StateTracker

  /** An update holds the entity's fields, all or those of a mask, as they were at a revision. */
  datatype Update = State(revision: nat) | Delta(mask: Bits, revision: nat)

  /** Whether the entity is known, the revision last taken, and at which revision each field was as the client has it. */
  datatype Copy = Copy(known: bool, last: Option<nat>, from: Bit -> nat)

  const NO_COPY := Copy(false, None, AllFrom(0))

  predicate IsStale(copy: Copy, revision: nat) { copy.last.Some? && revision < copy.last.value }

  predicate Accepts(copy: Copy, u: Update)
  {
    !IsStale(copy, u.revision) && (u.State? || (copy.known && u.mask != {}))
  }

  predicate Covers(u: Update, b: Bit) { u.State? || b in u.mask }

  function AllFrom(revision: nat): Bit -> nat { (b: Bit) => revision }

  function SomeFrom(from: Bit -> nat, mask: Bits, revision: nat): Bit -> nat
  {
    (b: Bit) => if b in mask then revision else from(b)
  }

  /** applyState, applyDelta and applyCompactUpdate. */
  function Apply(copy: Copy, u: Update): Copy
  {
    if IsStale(copy, u.revision) then copy
    else match u
      case State(revision) => Copy(true, Some(revision), AllFrom(revision))
      case Delta(mask, revision) =>
        if mask == {} || !copy.known then copy
        else Copy(true, Some(revision), SomeFrom(copy.from, mask, revision))
  }

  /** All entities of a client. `entities` stands for the fields, each by the revision it was at. */
  class EntityManager {
    var entities: map<Id, Bit -> nat>
    var lastRevisions: map<Id, nat>

    ghost function CopyOf(id: Id): Copy
      reads this
    {
      Copy(id in entities, if id in lastRevisions then Some(lastRevisions[id]) else None,
           if id in entities then entities[id] else AllFrom(0))
    }

    constructor ()
      ensures forall id :: CopyOf(id) == NO_COPY
    {
      entities, lastRevisions := map[], map[];
    }

    method Stale(id: Id, revision: nat) returns (stale: bool)
      ensures stale == IsStale(CopyOf(id), revision)
    {
      stale := id in lastRevisions && revision < lastRevisions[id];
    }

    method ApplyState(id: Id, revision: nat)
      modifies this
      ensures CopyOf(id) == Apply(old(CopyOf(id)), State(revision))
      ensures forall x :: x != id ==> CopyOf(x) == old(CopyOf(x))
    {
      var stale := Stale(id, revision);
      if stale {
        return;
      }
      entities := entities[id := AllFrom(revision)];
      lastRevisions := lastRevisions[id := revision];
    }

    method ApplyCompactUpdate(id: Id, mask: Bits, revision: nat)
      modifies this
      ensures CopyOf(id) == Apply(old(CopyOf(id)), Delta(mask, revision))
      ensures forall x :: x != id ==> CopyOf(x) == old(CopyOf(x))
    {
      var stale := Stale(id, revision);
      if mask == {} || stale || id !in entities {
        return;
      }
      entities := entities[id := SomeFrom(entities[id], mask, revision)];
      lastRevisions := lastRevisions[id := revision];
    }
  }

  /** The copy after updates that arrived in this order. */
  function Client(us: seq<Update>): Copy
  {
    if us == [] then NO_COPY else Apply(Client(us[..|us| - 1]), us[|us| - 1])
  }

  // ---- which updates are taken ----

  /** There is an entity to update when this one arrives. */
  ghost predicate Usable(us: seq<Update>, i: nat)
    requires i < |us|
  {
    us[i].State? || (us[i].mask != {} && exists k :: 0 <= k < i && us[k].State?)
  }

  /** A usable update of a newer revision arrived before. */
  ghost predicate Overtaken(us: seq<Update>, i: nat)
    requires i < |us|
  {
    exists j :: 0 <= j < i && Usable(us, j) && us[j].revision > us[i].revision
  }

  ghost predicate Taken(us: seq<Update>, i: nat)
    requires i < |us|
  {
    Usable(us, i) && !Overtaken(us, i)
  }

  /** Later arrivals do not matter. */
  lemma TakenEarlier(us: seq<Update>, n: nat, i: nat)
    requires i < n <= |us|
    ensures Usable(us[..n], i) <==> Usable(us, i)
    ensures Taken(us[..n], i) <==> Taken(us, i)
  {
    forall j | 0 <= j <= i ensures Usable(us[..n], j) <==> Usable(us, j) {
      if exists k :: 0 <= k < j && us[k].State? {
        var k :| 0 <= k < j && us[k].State?;
        assert us[..n][k].State?;
      }
      if exists k :: 0 <= k < j && us[..n][k].State? {
        var k :| 0 <= k < j && us[..n][k].State?;
        assert us[k].State?;
      }
    }
    if Overtaken(us, i) {
      var j :| 0 <= j < i && Usable(us, j) && us[j].revision > us[i].revision;
      assert Usable(us[..n], j) && us[..n][j].revision > us[..n][i].revision;
    }
    if Overtaken(us[..n], i) {
      var j :| 0 <= j < i && Usable(us[..n], j) && us[..n][j].revision > us[..n][i].revision;
      assert Usable(us, j) && us[j].revision > us[i].revision;
    }
  }

  /** The client knows the entity once a full state arrived, and remembers the newest usable revision. */
  ghost predicate Remembers(us: seq<Update>, copy: Copy)
  {
    && (copy.known <==> exists k :: 0 <= k < |us| && us[k].State?)
    && (copy.known <==> copy.last.Some?)
    && (copy.known ==> forall j :: 0 <= j < |us| && Usable(us, j) ==> us[j].revision <= copy.last.value)
    && (copy.known ==> exists j :: 0 <= j < |us| && Usable(us, j) && us[j].revision == copy.last.value)
  }

  lemma {:induction false} ClientRemembers(us: seq<Update>)
    ensures Remembers(us, Client(us))
  {
    if us != [] {
      var p, last := us[..|us| - 1], us[|us| - 1];
      ClientRemembers(p);
      RemembersOneMore(us, Client(p));
    }
  }

  lemma RemembersOneMore(us: seq<Update>, copy: Copy)
    requires us != [] && Remembers(us[..|us| - 1], copy)
    ensures Remembers(us, Apply(copy, us[|us| - 1]))
  {
    var p, n := us[..|us| - 1], |us| - 1;
    var copy' := Apply(copy, us[n]);
    forall i | 0 <= i < n ensures p[i] == us[i] && (Usable(p, i) <==> Usable(us, i)) { TakenEarlier(us, n, i); }
    assert Usable(us, n) <==> us[n].State? || (us[n].mask != {} && copy.known) by {
      if copy.known {
        var k :| 0 <= k < |p| && p[k].State?;
        assert us[k].State?;
      }
      if exists k :: 0 <= k < n && us[k].State? {
        var k :| 0 <= k < n && us[k].State?;
        assert p[k].State?;
      }
    }
    if copy.known {
      var k :| 0 <= k < |p| && p[k].State?;
      assert us[k].State?;
      var j :| 0 <= j < |p| && Usable(p, j) && p[j].revision == copy.last.value;
      assert Usable(us, j) && us[j].revision == copy.last.value;
    }
  }

  /** An update is refused exactly if it arrives before the entity's full state, or after a newer update of the
      same entity; even one of other fields. */
  lemma TakenExactly(us: seq<Update>, i: nat)
    requires i < |us|
    ensures Accepts(Client(us[..i]), us[i]) <==> Taken(us, i)
  {
    var p, copy := us[..i], Client(us[..i]);
    ClientRemembers(p);
    forall j | 0 <= j < i ensures p[j] == us[j] && (Usable(p, j) <==> Usable(us, j)) { TakenEarlier(us, i, j); }
    assert copy.known <==> exists k :: 0 <= k < i && us[k].State? by {
      if copy.known {
        var k :| 0 <= k < |p| && p[k].State?;
        assert us[k].State?;
      }
      if exists k :: 0 <= k < i && us[k].State? {
        var k :| 0 <= k < i && us[k].State?;
        assert p[k].State?;
      }
    }
    if copy.known {
      var j :| 0 <= j < |p| && Usable(p, j) && p[j].revision == copy.last.value;
      assert IsStale(copy, us[i].revision) ==> us[j].revision > us[i].revision;
    }
  }

  // ---- what the client ends up with ----

  ghost predicate Brings(us: seq<Update>, i: nat, b: Bit, revision: nat)
    requires i < |us|
  {
    Covers(us[i], b) && us[i].revision == revision && Taken(us, i)
  }

  /** The client ends up with the newest value of a field that was sent, exactly if an update that holds it
      arrived when the entity was known and no newer update of the entity had arrived. */
  lemma {:induction false} NewestExactly(us: seq<Update>, b: Bit, newest: nat)
    requires forall i :: 0 <= i < |us| && Covers(us[i], b) ==> us[i].revision <= newest
    ensures (Client(us).known && Client(us).from(b) == newest) <==> exists i :: 0 <= i < |us| && Brings(us, i, b, newest)
    decreases |us|
  {
    if us != [] {
      var n := |us| - 1;
      var p := us[..n];
      NewestExactly(p, b, newest);
      TakenExactly(us, n);
      forall i | 0 <= i < n ensures Brings(p, i, b, newest) <==> Brings(us, i, b, newest) { TakenEarlier(us, n, i); }
      assert (exists i :: 0 <= i < |us| && Brings(us, i, b, newest)) <==>
             (exists i :: 0 <= i < n && Brings(p, i, b, newest)) || Brings(us, n, b, newest);
      if Brings(us, n, b, newest) {
        assert Client(us).from(b) == newest;
      } else if Taken(us, n) && Covers(us[n], b) {
        NotBrought(us, b, newest);
      }
    }
  }

  /** If the last update is taken with an older value, the newest did not get through before it. */
  lemma NotBrought(us: seq<Update>, b: Bit, newest: nat)
    requires us != [] && Taken(us, |us| - 1) && us[|us| - 1].revision < newest
    ensures forall i :: 0 <= i < |us| ==> !Brings(us, i, b, newest)
  {
    assert !Overtaken(us, |us| - 1);
  }

  /** Updates that arrive in the order of their revisions, full state first, are all taken. */
  lemma InOrderIsEnough(us: seq<Update>, i: nat)
    requires forall j, k :: 0 <= j < k < |us| ==> us[j].revision <= us[k].revision
    requires us != [] && us[0].State? && i < |us| && (us[i].Delta? ==> us[i].mask != {})
    ensures Accepts(Client(us[..i]), us[i])
  {
    TakenExactly(us, i);
  }

  /** Two datagrams of different fields arrive in the wrong order: the older one is refused, and its field
      stays as it was although both datagrams were received. */
  lemma OvertakenFieldStaysBehind()
    ensures var us := [State(4), Delta({1}, 6), Delta({0}, 5)];
            Client(us).from(0) == 4 && Client(us).from(1) == 6
  {
    var us := [State(4), Delta({1}, 6), Delta({0}, 5)];
    assert us[..2] == [State(4), Delta({1}, 6)];
    assert us[..2][..1] == [State(4)];
    assert us[..2][..1][..0] == [];
    assert Client([State(4)]) == Apply(NO_COPY, State(4));
    var one := Client([State(4)]);
    assert one.known && one.last == Some(4) && one.from(0) == 4;
    var two := Client([State(4), Delta({1}, 6)]);
    assert two == Apply(one, Delta({1}, 6));
    assert two.last == Some(6) && two.from(0) == 4 && two.from(1) == 6;
  }
}
