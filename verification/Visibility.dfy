/** Named visibility groups (golem/visibility/manager.go). */
module Visibility {
  import opened Identifiers

  type Group = string

  /** Who is in which group: an entity without a group is public. */
  datatype Groups = Groups(entity: map<Id, Group>, session: map<SessionId, set<Group>>)

  predicate Permits(g: Groups, session: SessionId, id: Id)
  {
    id !in g.entity || g.entity[id] == "" || g.entity[id] in Membership(g.session, session)
  }

  function Membership(groups: map<SessionId, set<Group>>, session: SessionId): set<Group>
  {
    if session in groups then groups[session] else {}
  }

  /** The policy after the entities of `gone` lost their groups. */
  function Without(g: Groups, gone: set<Id>): Groups { g.(entity := g.entity - gone) }

  class Policy {
    var entityGroup: map<Id, Group>
    var sessionGroups: map<SessionId, set<Group>>
    var groupedCount: nat
    var generation: nat

    ghost predicate Valid()
      reads this
    {
      && groupedCount == |entityGroup|
      && (forall id :: id in entityGroup ==> entityGroup[id] != "")
      && (forall s :: s in sessionGroups ==> sessionGroups[s] != {} && "" !in sessionGroups[s])
    }

    ghost function View(): Groups
      reads this
    {
      Groups(entityGroup, sessionGroups)
    }

    constructor ()
      ensures Valid() && View() == Groups(map[], map[])
    {
      entityGroup, sessionGroups, groupedCount, generation := map[], map[], 0, 0;
    }

    method SetEntityGroup(id: Id, group: Group) returns (previous: Group)
      requires Valid()
      modifies this
      ensures Valid() && sessionGroups == old(sessionGroups)
      ensures entityGroup == if group == "" then old(entityGroup) - {id} else old(entityGroup)[id := group]
      ensures previous == if id in old(entityGroup) then old(entityGroup)[id] else ""
      ensures entityGroup != old(entityGroup) ==> generation > old(generation)
      ensures forall s :: Allows(s, id) <==> group == "" || group in Membership(sessionGroups, s)
      ensures forall s, x :: x != id ==> (Allows(s, x) <==> old(Allows(s, x)))
    {
      previous := if id in entityGroup then entityGroup[id] else "";
      if group == "" {
        if previous != "" {
          Drop(id);
        } else {
          assert entityGroup - {id} == entityGroup;
        }
        return;
      }
      if previous == group {
        assert entityGroup[id := group] == entityGroup;
        return;
      }
      Put(id, group, previous);
    }

    method Put(id: Id, group: Group, previous: Group)
      requires Valid() && group != "" && previous == if id in entityGroup then entityGroup[id] else ""
      modifies this`entityGroup, this`groupedCount, this`generation
      ensures Valid() && entityGroup == old(entityGroup)[id := group] && generation > old(generation)
    {
      assert entityGroup[id := group].Keys == entityGroup.Keys + {id};
      if previous == "" {
        groupedCount := groupedCount + 1;
      }
      entityGroup := entityGroup[id := group];
      generation := generation + 1;
    }

    method Drop(id: Id)
      requires Valid() && id in entityGroup
      modifies this`entityGroup, this`groupedCount, this`generation
      ensures Valid() && entityGroup == old(entityGroup) - {id} && generation > old(generation)
    {
      assert (entityGroup - {id}).Keys == entityGroup.Keys - {id};
      entityGroup := entityGroup - {id};
      groupedCount := groupedCount - 1;
      generation := generation + 1;
    }

    /** RemoveEntity; its branch for an empty group name never applies. */
    method RemoveEntity(id: Id)
      requires Valid()
      modifies this`entityGroup, this`groupedCount, this`generation
      ensures Valid() && entityGroup == old(entityGroup) - {id}
    {
      if id in entityGroup {
        Drop(id);
      } else {
        assert entityGroup - {id} == entityGroup;
      }
    }

    method JoinGroup(session: SessionId, group: Group)
      requires Valid()
      modifies this`sessionGroups, this`generation
      ensures Valid()
      ensures forall s :: Membership(sessionGroups, s) ==
                Membership(old(sessionGroups), s) + if s == session && group != "" then {group} else {}
      ensures forall s, id :: Allows(s, id) <==>
                old(Allows(s, id)) || (s == session && id in entityGroup && entityGroup[id] == group)
    {
      if group == "" {
        return;
      }
      var groups := if session in sessionGroups then sessionGroups[session] else {};
      if group in groups {
        return;
      }
      sessionGroups := sessionGroups[session := groups + {group}];
      generation := generation + 1;
    }

    method LeaveGroup(session: SessionId, group: Group)
      requires Valid()
      modifies this`sessionGroups, this`generation
      ensures Valid()
      ensures forall s :: Membership(sessionGroups, s) ==
                Membership(old(sessionGroups), s) - if s == session then {group} else {}
      ensures forall s, id :: Allows(s, id) <==>
                old(Allows(s, id)) && !(s == session && id in entityGroup && entityGroup[id] == group)
    {
      if session !in sessionGroups || group !in sessionGroups[session] {
        return;
      }
      var groups := sessionGroups[session] - {group};
      sessionGroups := if groups == {} then sessionGroups - {session} else sessionGroups[session := groups];
      generation := generation + 1;
    }

    function Allows(session: SessionId, id: Id): (ok: bool)
      reads this
      ensures ok == Permits(View(), session, id)
    {
      if id !in entityGroup || entityGroup[id] == "" then true
      else session in sessionGroups && entityGroup[id] in sessionGroups[session]
    }

    /** The counter answers for the map: without grouped entities everyone may see everything. */
    function HasGroupedEntities(): (some: bool)
      requires Valid()
      reads this
      ensures some <==> entityGroup != map[]
      ensures !some ==> forall s, id :: Permits(View(), s, id)
    {
      assert entityGroup == map[] <==> |entityGroup| == 0;
      groupedCount > 0
    }
  }
}
