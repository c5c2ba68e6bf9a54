/** Todos of one task as a dependency graph keyed by ordinality: what a failure takes down and what a
    completion releases, independently of the order in which edges are visited. */
module TodoGraph {
  import opened WorkModel

  type Board = map<Id, Todo>

  /** The todos of a task: the ends of its has_todo edges. */
  function Kids(edges: set<Edge>, parent: Id): set<Id> {
    Targets(edges, HasTodo, parent)
  }

  function BlockedKids(todos: Board, kids: set<Id>): set<Id> {
    set k | k in kids && k in todos && todos[k].status == TodoBlocked
  }

  predicate DependsOnAny(t: Todo, ords: set<int>) {
    exists d :: d in t.dependsOn && d in ords
  }

  function Ordinalities(todos: Board, ids: set<Id>): set<int>
    requires ids <= todos.Keys
  {
    set k | k in ids :: todos[k].ordinality
  }

  function WithStatus(todos: Board, ids: set<Id>, status: TodoStatus): (r: Board)
    ensures r.Keys == todos.Keys
  {
    map k | k in todos :: if k in ids then todos[k].(status := status) else todos[k]
  }

  /* ---- The failure cascade ---- */

  /** What failing the ordinalities `ords` takes down, layer by layer: first the blocked todos that name one of
      them, then the blocked todos that name one of those, and so on. */
  function Cascade(todos: Board, blocked: set<Id>, ords: set<int>): (r: set<Id>)
    requires blocked <= todos.Keys
    ensures r <= blocked
    decreases blocked
  {
    var hit := set k | k in blocked && DependsOnAny(todos[k], ords);
    if hit == {} then {} else hit + Cascade(todos, blocked - hit, Ordinalities(todos, hit))
  }

  /** Nothing blocked outside `taken` depends on `ords` or on something in `taken`. */
  ghost predicate CascadeClosed(todos: Board, blocked: set<Id>, ords: set<int>, taken: set<Id>)
    requires blocked <= todos.Keys
  {
    && taken <= blocked
    && forall k :: k in blocked && DependsOnAny(todos[k], ords + Ordinalities(todos, taken)) ==> k in taken
  }

  /** The cascade is the least closed set: everything reachable through blocked todos and nothing else. */
  lemma {:induction false} CascadeIsLeast(todos: Board, blocked: set<Id>, ords: set<int>)
    requires blocked <= todos.Keys
    ensures CascadeClosed(todos, blocked, ords, Cascade(todos, blocked, ords))
    ensures forall s :: CascadeClosed(todos, blocked, ords, s) ==> Cascade(todos, blocked, ords) <= s
    decreases blocked
  {
    var hit := set k | k in blocked && DependsOnAny(todos[k], ords);
    if hit != {} {
      var next, rest := Ordinalities(todos, hit), blocked - hit;
      var deeper := Cascade(todos, rest, next);
      CascadeIsLeast(todos, rest, next);
      forall k | k in blocked && DependsOnAny(todos[k], ords + Ordinalities(todos, hit + deeper))
        ensures k in hit + deeper
      {
        if k !in hit {
          assert DependsOnAny(todos[k], next + Ordinalities(todos, deeper));
        }
      }
      forall s | CascadeClosed(todos, blocked, ords, s)
        ensures hit + deeper <= s
      {
        forall k | k in hit ensures k in s {
          assert DependsOnAny(todos[k], ords + Ordinalities(todos, s));
        }
        forall k | k in rest && DependsOnAny(todos[k], next + Ordinalities(todos, s - hit)) ensures k in s - hit {
          assert DependsOnAny(todos[k], ords + Ordinalities(todos, s));
        }
        assert CascadeClosed(todos, rest, next, s - hit);
      }
    }
  }

  /** A stage of the edge-by-edge cascade, with `rest` still to visit: everything in `taken` belongs to the cascade,
      nothing blocked outside `taken` depends on it, and the visited todos that name `ord` are in it. */
  ghost predicate CascadeStage(todos: Board, blocked: set<Id>, ord: int, taken: set<Id>, rest: set<Id>)
    requires blocked <= todos.Keys
  {
    && taken <= blocked
    && taken <= Cascade(todos, blocked, {ord})
    && (forall k :: k in blocked && DependsOnAny(todos[k], Ordinalities(todos, taken)) ==> k in taken)
    && (forall k :: k in blocked - rest && ord in todos[k].dependsOn ==> k in taken)
  }

  /** Edge-by-edge cascade: fails every blocked todo that names `failedOrdinality`, recursing into each. */
  method BlockDependentTodos(s: WorkStore, parent: Id, failedOrdinality: int)
    modifies s`todos
    ensures s.todos
            == var blocked := BlockedKids(old(s.todos), Kids(s.edges, parent));
               WithStatus(old(s.todos), Cascade(old(s.todos), blocked, {failedOrdinality}), TodoFailed)
    decreases BlockedKids(s.todos, Kids(s.edges, parent))
  {
    ghost var before, kids := s.todos, Kids(s.edges, parent);
    ghost var blocked := BlockedKids(before, kids);
    ghost var taken: set<Id> := {};
    var rest := Kids(s.edges, parent);
    while rest != {}
      invariant rest <= kids
      invariant s.todos == WithStatus(before, taken, TodoFailed)
      invariant CascadeStage(before, blocked, failedOrdinality, taken, rest)
      decreases rest
    {
      var id :| id in rest;
      rest := rest - {id};
      if id in s.todos && s.todos[id].status == TodoBlocked && failedOrdinality in s.todos[id].dependsOn {
        MarkOne(before, kids, taken, id);
        s.todos := s.todos[id := s.todos[id].(status := TodoFailed)];
        ghost var below := Cascade(s.todos, blocked - taken - {id}, {before[id].ordinality});
        CascadeTurn(before, s.todos, blocked, failedOrdinality, taken, rest, id);
        BlockDependentTodos(s, parent, s.todos[id].ordinality);
        taken := taken + {id} + below;
      }
    }
    CascadeDone(before, blocked, failedOrdinality, taken);
  }

  /** Failing one blocked kid more takes exactly it out of the blocked ones. */
  lemma MarkOne(before: Board, kids: set<Id>, taken: set<Id>, id: Id)
    requires id in kids && id in before
    ensures id in BlockedKids(WithStatus(before, taken, TodoFailed), kids) ==> id in BlockedKids(before, kids) - taken
    ensures var now := WithStatus(before, taken, TodoFailed);
            var marked := now[id := now[id].(status := TodoFailed)];
            && marked == WithStatus(before, taken + {id}, TodoFailed)
            && BlockedKids(marked, kids) == BlockedKids(before, kids) - taken - {id}
  {
  }

  /** One turn of the loop: failing `id` and everything below it leads to the next stage. */
  lemma CascadeTurn(before: Board, marked: Board, blocked: set<Id>, ord: int, taken: set<Id>, rest: set<Id>, id: Id)
    requires blocked <= before.Keys && marked == WithStatus(before, taken + {id}, TodoFailed)
    requires CascadeStage(before, blocked, ord, taken, rest + {id})
    requires id in blocked - taken && ord in before[id].dependsOn
    ensures var below := Cascade(marked, blocked - taken - {id}, {before[id].ordinality});
            WithStatus(marked, below, TodoFailed) == WithStatus(before, taken + {id} + below, TodoFailed)
    ensures CascadeStage(before, blocked, ord,
                         taken + {id} + Cascade(marked, blocked - taken - {id}, {before[id].ordinality}), rest)
  {
    var deeper := Cascade(marked, blocked - taken - {id}, {before[id].ordinality});
    BelowIsTaken(before, marked, blocked, ord, taken, id);
    CascadeIsLeast(marked, blocked - taken - {id}, {before[id].ordinality});
    TakenIsClosed(before, marked, blocked, taken, id, deeper);
  }

  /** Nothing outside depends on what has been taken, the new part included. */
  lemma TakenIsClosed(before: Board, marked: Board, blocked: set<Id>, taken: set<Id>, id: Id, deeper: set<Id>)
    requires taken <= blocked <= before.Keys && marked == WithStatus(before, taken + {id}, TodoFailed)
    requires id in blocked - taken
    requires forall k :: k in blocked && DependsOnAny(before[k], Ordinalities(before, taken)) ==> k in taken
    requires CascadeClosed(marked, blocked - taken - {id}, {before[id].ordinality}, deeper)
    ensures forall k :: k in blocked && DependsOnAny(before[k], Ordinalities(before, taken + {id} + deeper)) ==>
              k in taken + {id} + deeper
  {
    forall k | k in blocked - taken - {id} && DependsOnAny(before[k], Ordinalities(before, taken + {id} + deeper))
      ensures k in deeper
    {
      assert !DependsOnAny(before[k], Ordinalities(before, taken));
      assert DependsOnAny(marked[k], {before[id].ordinality} + Ordinalities(marked, deeper));
    }
  }

  /** A dependent of the ordinality, and what its own failure takes down, belong to the cascade. */
  lemma BelowIsTaken(before: Board, marked: Board, blocked: set<Id>, ord: int, taken: set<Id>, id: Id)
    requires blocked <= before.Keys && marked == WithStatus(before, taken + {id}, TodoFailed)
    requires id in blocked - taken && ord in before[id].dependsOn
    ensures id in Cascade(before, blocked, {ord})
    ensures Cascade(marked, blocked - taken - {id}, {before[id].ordinality}) <= Cascade(before, blocked, {ord})
  {
    var below, all := blocked - taken - {id}, Cascade(before, blocked, {ord});
    CascadeIsLeast(before, blocked, {ord});
    CascadeIsLeast(marked, below, {before[id].ordinality});
    assert id in all by { assert DependsOnAny(before[id], {ord} + Ordinalities(before, all)); }
    forall k | k in below && DependsOnAny(marked[k], {before[id].ordinality} + Ordinalities(marked, all * below))
      ensures k in all * below
    {
      assert DependsOnAny(before[k], {ord} + Ordinalities(before, all));
    }
    assert CascadeClosed(marked, below, {before[id].ordinality}, all * below);
  }

  /** With nothing left to visit, the stage is the whole cascade. */
  lemma CascadeDone(before: Board, blocked: set<Id>, ord: int, taken: set<Id>)
    requires blocked <= before.Keys
    requires CascadeStage(before, blocked, ord, taken, {})
    ensures taken == Cascade(before, blocked, {ord})
  {
    CascadeIsLeast(before, blocked, {ord});
    forall k | k in blocked && DependsOnAny(before[k], {ord} + Ordinalities(before, taken))
      ensures k in taken
    {
      assert ord in before[k].dependsOn || DependsOnAny(before[k], Ordinalities(before, taken));
    }
    assert CascadeClosed(before, blocked, {ord}, taken);
  }

  /* ---- The release of dependents ---- */

  /** The ordinality-to-status map built from the siblings: some sibling's status for each ordinality in use. */
  ghost predicate IsSnapshot(todos: Board, kids: set<Id>, snap: map<int, TodoStatus>) {
    && (forall k :: k in kids && k in todos ==> todos[k].ordinality in snap)
    && (forall o :: o in snap ==>
        exists k :: k in kids && k in todos && todos[k].ordinality == o && todos[k].status == snap[o])
  }

  predicate SatisfiedBy(snap: map<int, TodoStatus>, t: Todo) {
    forall d :: d in t.dependsOn ==> d in snap && snap[d].Satisfies()
  }

  /** The blocked todos that name `ord` and whose dependencies the snapshot shows satisfied. */
  function ReadyIn(todos: Board, kids: set<Id>, ord: int, snap: map<int, TodoStatus>): set<Id> {
    set k | k in BlockedKids(todos, kids) && ord in todos[k].dependsOn && SatisfiedBy(snap, todos[k])
  }

  /** Some sibling with this ordinality is completed or skipped. */
  predicate DepSatisfied(todos: Board, kids: set<Id>, d: int) {
    exists k :: k in kids && k in todos && todos[k].ordinality == d && todos[k].status.Satisfies()
  }

  predicate AllDepsSatisfied(todos: Board, kids: set<Id>, t: Todo) {
    forall d :: d in t.dependsOn ==> DepSatisfied(todos, kids, d)
  }

  function Ready(todos: Board, kids: set<Id>, ord: int): set<Id> {
    set k | k in BlockedKids(todos, kids) && ord in todos[k].dependsOn && AllDepsSatisfied(todos, kids, todos[k])
  }

  ghost predicate UniqueOrdinalities(todos: Board, kids: set<Id>) {
    forall j, k :: j in kids && k in kids && j in todos && k in todos && todos[j].ordinality == todos[k].ordinality ==>
      j == k
  }

  /** With unique ordinalities every snapshot, whatever the order it was built in, releases the same todos. */
  lemma SnapshotIrrelevant(todos: Board, kids: set<Id>, ord: int, snap: map<int, TodoStatus>)
    requires IsSnapshot(todos, kids, snap) && UniqueOrdinalities(todos, kids)
    ensures ReadyIn(todos, kids, ord, snap) == Ready(todos, kids, ord)
  {
    forall k | k in BlockedKids(todos, kids)
      ensures SatisfiedBy(snap, todos[k]) <==> AllDepsSatisfied(todos, kids, todos[k])
    {
      forall d | d in todos[k].dependsOn
        ensures (d in snap && snap[d].Satisfies()) <==> DepSatisfied(todos, kids, d)
      {
        if d in snap {
          var j :| j in kids && j in todos && todos[j].ordinality == d && todos[j].status == snap[d];
        }
      }
    }
  }

  /** Colliding ordinalities leave the release of `t` to chance: each dependency has a satisfied todo, but one of them
      also has a todo that is not. */
  ghost predicate Ambiguous(todos: Board, kids: set<Id>, t: Todo) {
    && AllDepsSatisfied(todos, kids, t)
    && exists j :: j in kids && j in todos && todos[j].ordinality in t.dependsOn && !todos[j].status.Satisfies()
  }

  /** Exactly then the order in which the snapshot is built matters. */
  lemma SnapshotMattersIfAmbiguous(todos: Board, kids: set<Id>, ord: int)
    ensures (exists k :: k in BlockedKids(todos, kids) && ord in todos[k].dependsOn && Ambiguous(todos, kids, todos[k]))
            <==> exists a, b :: IsSnapshot(todos, kids, a) && IsSnapshot(todos, kids, b)
                                && ReadyIn(todos, kids, ord, a) != ReadyIn(todos, kids, ord, b)
  {
    if k :| k in BlockedKids(todos, kids) && ord in todos[k].dependsOn && Ambiguous(todos, kids, todos[k]) {
      AmbiguousMatters(todos, kids, todos[k]);
      assert k in ReadyIn(todos, kids, ord, Favouring(todos, kids, true));
      assert k !in ReadyIn(todos, kids, ord, Favouring(todos, kids, false));
    }
    forall a, b, k | IsSnapshot(todos, kids, a) && IsSnapshot(todos, kids, b)
                     && k in ReadyIn(todos, kids, ord, a) && k !in ReadyIn(todos, kids, ord, b)
      ensures Ambiguous(todos, kids, todos[k])
    {
      AmbiguousBetween(todos, kids, a, b, todos[k]);
    }
  }

  lemma AmbiguousMatters(todos: Board, kids: set<Id>, t: Todo)
    requires Ambiguous(todos, kids, t)
    ensures SatisfiedBy(Favouring(todos, kids, true), t) && !SatisfiedBy(Favouring(todos, kids, false), t)
  {
    var good, bad := Favouring(todos, kids, true), Favouring(todos, kids, false);
    forall d | d in t.dependsOn ensures d in good && good[d].Satisfies() {
      assert DepSatisfied(todos, kids, d);
      var j :| j in kids && j in todos && todos[j].ordinality == d && todos[j].status.Satisfies();
    }
    var j :| j in kids && j in todos && todos[j].ordinality in t.dependsOn && !todos[j].status.Satisfies();
    assert !bad[todos[j].ordinality].Satisfies();
  }

  lemma AmbiguousBetween(todos: Board, kids: set<Id>, a: map<int, TodoStatus>, b: map<int, TodoStatus>, t: Todo)
    requires IsSnapshot(todos, kids, a) && IsSnapshot(todos, kids, b) && SatisfiedBy(a, t) && !SatisfiedBy(b, t)
    ensures Ambiguous(todos, kids, t)
  {
    forall d | d in t.dependsOn ensures DepSatisfied(todos, kids, d) {
      var j :| j in kids && j in todos && todos[j].ordinality == d && todos[j].status == a[d];
    }
    var d :| d in t.dependsOn && !(d in b && b[d].Satisfies());
    assert DepSatisfied(todos, kids, d);
    var j :| j in kids && j in todos && todos[j].ordinality == d && todos[j].status == b[d];
  }

  /** A snapshot that shows, where it has the choice, a todo that is satisfied, or one that is not. */
  ghost function Favouring(todos: Board, kids: set<Id>, good: bool): (snap: map<int, TodoStatus>)
    ensures IsSnapshot(todos, kids, snap)
    ensures forall j :: j in kids && j in todos && todos[j].status.Satisfies() == good ==>
              snap[todos[j].ordinality].Satisfies() == good
  {
    var present := set k | k in kids && k in todos;
    map o | o in Ordinalities(todos, present) :: Shown(todos, present, o, good)
  }

  ghost function Shown(todos: Board, present: set<Id>, o: int, good: bool): (r: TodoStatus)
    requires present <= todos.Keys && o in Ordinalities(todos, present)
    ensures exists k :: k in present && todos[k].ordinality == o && todos[k].status == r
    ensures (exists k :: k in present && todos[k].ordinality == o && todos[k].status.Satisfies() == good) ==>
              r.Satisfies() == good
  {
    if exists k :: k in present && todos[k].ordinality == o && todos[k].status.Satisfies() == good then
      var k :| k in present && todos[k].ordinality == o && todos[k].status.Satisfies() == good;
      todos[k].status
    else
      var k :| k in present && todos[k].ordinality == o;
      todos[k].status
  }

  function DispatchEvents(order: seq<Id>): seq<Event> {
    seq(|order|, i requires 0 <= i < |order| => EvTodoDispatched(order[i]))
  }

  /** Publishes a todo for execution, moving it from blocked to pending first. */
  method DispatchTaskTodo(s: WorkStore, id: Id) returns (r: Result<Todo>)
    modifies s`todos, s`events
    ensures id !in old(s.todos) ==> r == Err(ErrTodoNotFound) && s.todos == old(s.todos) && s.events == old(s.events)
    ensures id in old(s.todos) ==>
              && r.Ok?
              && s.todos == old(s.todos)[id := r.value]
              && r.value == old(s.todos[id]).(status := if old(s.todos[id].status) == TodoBlocked then TodoPending
                                                        else old(s.todos[id].status))
              && s.events == old(s.events) + [EvTodoDispatched(id)]
  {
    if id !in s.todos {
      return Err(ErrTodoNotFound);
    }
    var todo := s.todos[id];
    if todo.status == TodoBlocked {
      todo := todo.(status := TodoPending);
    }
    s.todos := s.todos[id := todo];
    s.Publish(EvTodoDispatched(id));
    return Ok(todo);
  }

  lemma ReleaseOne(before: Board, done: set<Id>, order: seq<Id>, id: Id)
    requires id in before && id !in done && Enumerates(order, done)
    ensures WithStatus(before, done, TodoPending)[id := before[id].(status := TodoPending)]
            == WithStatus(before, done + {id}, TodoPending)
    ensures Enumerates(order + [id], done + {id})
    ensures DispatchEvents(order + [id]) == DispatchEvents(order) + [EvTodoDispatched(id)]
  {
  }

  method TakeSnapshot(s: WorkStore, kids: set<Id>) returns (snap: map<int, TodoStatus>, todos: Board)
    ensures IsSnapshot(s.todos, kids, snap)
    ensures todos == map k | k in kids && k in s.todos :: s.todos[k]
  {
    snap, todos := map[], map[];
    var rest := kids;
    while rest != {}
      invariant rest <= kids
      invariant IsSnapshot(s.todos, kids - rest, snap)
      invariant todos == map k | k in kids - rest && k in s.todos :: s.todos[k]
      decreases rest
    {
      var id :| id in rest;
      rest := rest - {id};
      if id in s.todos {
        var todo := s.todos[id];
        snap := snap[todo.ordinality := todo.status];
        todos := todos[id := todo];
      }
    }
  }

  /** Dispatches the blocked todos that name the ordinality just completed or skipped and now have every
      dependency satisfied.  `order` is the order in which they are published. */
  method UnblockDependentTodos(s: WorkStore, parent: Id, ord: int)
    returns (ghost snap: map<int, TodoStatus>, ghost order: seq<Id>)
    modifies s`todos, s`events
    ensures IsSnapshot(old(s.todos), Kids(s.edges, parent), snap)
    ensures var ready := ReadyIn(old(s.todos), Kids(s.edges, parent), ord, snap);
            && s.todos == WithStatus(old(s.todos), ready, TodoPending)
            && Enumerates(order, ready)
    ensures s.events == old(s.events) + DispatchEvents(order)
    // Exactly the blocked todos of the task that name the ordinality and miss nothing are dispatched, and nothing else
    // changes.
    ensures forall k :: k in order
              <==> && Edge(HasTodo, parent, k) in s.edges && k in old(s.todos)
                   && old(s.todos)[k].status == TodoBlocked && ord in old(s.todos)[k].dependsOn
                   && forall d :: d in old(s.todos)[k].dependsOn ==>
                     d in snap && snap[d] in {TodoCompleted, TodoSkipped}
    ensures s.todos.Keys == old(s.todos).Keys
    ensures forall k :: k in s.todos ==>
              s.todos[k] == if k in order then old(s.todos)[k].(status := TodoPending) else old(s.todos)[k]
  {
    ghost var before, kids := s.todos, Kids(s.edges, parent);
    var ordStatus, todos := TakeSnapshot(s, Kids(s.edges, parent));
    snap, order := ordStatus, [];
    ghost var ready, done: set<Id> := ReadyIn(before, kids, ord, snap), {};
    var rest := todos.Keys;
    while rest != {}
      invariant rest <= todos.Keys
      invariant forall k :: k in done <==> k in ready && k !in rest
      invariant s.todos == WithStatus(before, done, TodoPending)
      invariant Enumerates(order, done)
      invariant s.events == old(s.events) + DispatchEvents(order)
      decreases rest
    {
      var id :| id in rest;
      rest := rest - {id};
      var todo := todos[id];
      assert todo == before[id]
        && (id in ready <==> todo.status == TodoBlocked && ord in todo.dependsOn && SatisfiedBy(ordStatus, todo));
      if todo.status == TodoBlocked && ord in todo.dependsOn && SatisfiedBy(ordStatus, todo) {
        ReleaseOne(before, done, order, id);
        LogAssoc(old(s.events), DispatchEvents(order), [EvTodoDispatched(id)]);
        var _ := DispatchTaskTodo(s, id);
        order, done := order + [id], done + {id};
      }
    }
    assert done == ready;
  }
}
