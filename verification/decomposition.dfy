/** Which decomposition of a task counts: latestDecomposition in internal/server/event_dispatcher.go. */
module Decomposition {
  import opened WorkModel

  /** The members of one decomposition, in the order given. */
  function GroupOf(todos: seq<Todo>, key: Id): seq<Todo> {
    if todos == [] then []
    else
      var last := todos[|todos| - 1];
      GroupOf(todos[..|todos| - 1], key) + (if last.decompRunId == key then [last] else [])
  }

  lemma {:induction false} GroupMembers(todos: seq<Todo>, key: Id)
    ensures forall t :: t in GroupOf(todos, key) <==> t in todos && t.decompRunId == key
  {
    if todos != [] {
      GroupMembers(todos[..|todos| - 1], key);
      assert todos == todos[..|todos| - 1] + [todos[|todos| - 1]];
    }
  }

  /** Some todo of this decomposition was created no earlier than any other todo. */
  ghost predicate IsLatestKey(todos: seq<Todo>, key: Id) {
    exists t :: t in todos && t.decompRunId == key && forall u :: u in todos ==> u.createdAt <= t.createdAt
  }

  datatype Group = Group(latest: Time, members: seq<Todo>)

  function LatestTime(members: seq<Todo>): Time {
    if members == [] then NO_TIME
    else
      var last, earlier := members[|members| - 1].createdAt, LatestTime(members[..|members| - 1]);
      if last > earlier then last else earlier
  }

  lemma {:induction false} LatestIsMax(members: seq<Todo>)
    ensures forall m :: m in members ==> m.createdAt <= LatestTime(members)
    ensures members != [] ==> exists m :: m in members && m.createdAt == LatestTime(members)
  {
    if members != [] {
      var rest, last := members[..|members| - 1], members[|members| - 1];
      LatestIsMax(rest);
      assert members == rest + [last];
      assert last in members;
    }
  }

  /** One entry a decomposition, holding its members and their latest creation time. */
  ghost predicate Grouped(groups: map<Id, Group>, todos: seq<Todo>) {
    forall k :: && (k in groups <==> GroupOf(todos, k) != [])
                && (k in groups ==> groups[k] == Group(LatestTime(GroupOf(todos, k)), GroupOf(todos, k)))
  }

  /** None is the nil dereference of the program: with no creation time set anywhere the winning key stays "",
      and no group need have it.  The groups are visited in any order. */
  method LatestDecomposition(todos: seq<Todo>) returns (r: Option<seq<Todo>>, ghost winner: Id)
    ensures r == None <==> todos != [] && forall t :: t in todos ==> t.createdAt == NO_TIME && t.decompRunId != UNSET
    ensures r.Some? && todos != [] ==> IsLatestKey(todos, winner)
    ensures r.Some? ==> r.value == GroupOf(todos, winner)
  {
    winner := UNSET;
    if todos == [] {
      return Some([]), winner;
    }
    var groups := GroupByKey(todos);
    var rest, winnerKey, winnerCreatedAt := groups.Keys, UNSET, NO_TIME;
    while rest != {}
      invariant rest <= groups.Keys
      invariant forall k :: k in groups.Keys - rest ==> groups[k].latest <= winnerCreatedAt
      invariant winnerCreatedAt != NO_TIME ==> winnerKey in groups && groups[winnerKey].latest == winnerCreatedAt
      invariant winnerCreatedAt == NO_TIME ==> winnerKey == UNSET
      decreases rest
    {
      var key :| key in rest;
      rest := rest - {key};
      if groups[key].latest > winnerCreatedAt {
        winnerCreatedAt, winnerKey := groups[key].latest, key;
      }
    }
    winner := winnerKey;
    forall t | t in todos ensures t.createdAt <= winnerCreatedAt {
      GroupMembers(todos, t.decompRunId);
      LatestIsMax(GroupOf(todos, t.decompRunId));
    }
    GroupMembers(todos, winnerKey);
    if winnerKey !in groups {
      assert GroupOf(todos, winnerKey) == [];
      return None, winner;
    }
    LatestIsMax(GroupOf(todos, winnerKey));
    ghost var top :| top in groups[winnerKey].members && top.createdAt == groups[winnerKey].latest;
    assert top in todos;
    return Some(groups[winnerKey].members), winner;
  }

  method GroupByKey(todos: seq<Todo>) returns (groups: map<Id, Group>)
    ensures Grouped(groups, todos)
  {
    groups := map[];
    ghost var done: seq<Todo> := [];
    for i := 0 to |todos|
      invariant done == todos[..i]
      invariant Grouped(groups, done)
    {
      GroupedStep(groups, done, todos[i]);
      groups := Joined(groups, todos[i]);
      done := done + [todos[i]];
    }
    assert done == todos;
  }

  /** Appends a todo to its group, opening the group if need be. */
  function Joined(groups: map<Id, Group>, t: Todo): map<Id, Group> {
    var g := if t.decompRunId in groups then groups[t.decompRunId] else Group(NO_TIME, []);
    groups[t.decompRunId := Group(if t.createdAt > g.latest then t.createdAt else g.latest, g.members + [t])]
  }

  lemma GroupedStep(before: map<Id, Group>, todos: seq<Todo>, t: Todo)
    requires Grouped(before, todos)
    ensures Grouped(Joined(before, t), todos + [t])
  {
    forall k
      ensures k in Joined(before, t) <==> GroupOf(todos + [t], k) != []
      ensures k in Joined(before, t) ==>
                Joined(before, t)[k] == Group(LatestTime(GroupOf(todos + [t], k)), GroupOf(todos + [t], k))
    {
      GroupGrows(todos, t, k);
    }
  }

  lemma GroupGrows(todos: seq<Todo>, t: Todo, key: Id)
    ensures var members := GroupOf(todos, key);
            && GroupOf(todos + [t], key) == (if t.decompRunId == key then members + [t] else members)
            && LatestTime(members + [t])
              == (if t.createdAt > LatestTime(members) then t.createdAt else LatestTime(members))
  {
    assert (todos + [t])[..|todos|] == todos;
    var members := GroupOf(todos, key);
    assert (members + [t])[..|members|] == members;
  }
}
