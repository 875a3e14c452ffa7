// workflow/compiler.go: topologicalTasks, Kahn's algorithm with a sorted ready list.
module Planner {
  import opened Ids
  import opened Graph
  import opened Types

  datatype PlanError =
    | UnknownNeed(task: Id, need: Id)
    | RepeatedNeed(task: Id, need: Id)
    | DependencyCycle

  // ------------------------------------------------------------ specification

  ghost function ReadySet(g: Needs, done: set<Id>): set<Id> {
    set x | x in g && Ready(g, done, x)
  }

  // Always take the least ready task.
  ghost function Greedy(g: Needs, done: set<Id>): seq<Id>
    decreases |g.Keys - done|
  {
    var ready := ReadySet(g, done);
    if ready == {} then []
    else
      var x := Least(ready);
      assert g.Keys - done == (g.Keys - (done + {x})) + {x};
      [x] + Greedy(g, done + {x})
  }

  // The order on task lists: the first difference decides.
  ghost predicate LexNotAfter(a: seq<Id>, b: seq<Id>)
    decreases |a|
  {
    a == [] || (b != [] && (Before(a[0], b[0]) || (a[0] == b[0] && LexNotAfter(a[1..], b[1..]))))
  }

  lemma LexNotAfterIsAntisymmetric(a: seq<Id>, b: seq<Id>)
    requires LexNotAfter(a, b) && LexNotAfter(b, a)
    ensures a == b
    decreases |a|
  {
    if a != [] && b != [] {
      if Before(a[0], b[0]) { BeforeIsAsymmetric(a[0], b[0]); }
      LexNotAfterIsAntisymmetric(a[1..], b[1..]);
      assert a == [a[0]] + a[1..] && b == [b[0]] + b[1..];
    }
  }

  lemma {:induction false} GreedyIsTopological(g: Needs, done: set<Id>)
    requires Known(g) && !HasCycle(g) && done <= g.Keys
    ensures TopologicalFrom(g, done, Greedy(g, done))
    decreases |g.Keys - done|
  {
    var ready := ReadySet(g, done);
    if ready == {} {
      var left := g.Keys - done;
      if left != {} {
        forall x | x in left ensures NeedsInside(g, left, x) {
          assert !Ready(g, done, x);
        }
        assert Stuck(g, left);
        StuckHasCycle(g, left);
      }
    } else {
      var x := Least(ready);
      assert g.Keys - done == (g.Keys - (done + {x})) + {x};
      GreedyIsTopological(g, done + {x});
    }
  }

  lemma {:induction false} GreedyIsLeast(g: Needs, done: set<Id>, order: seq<Id>)
    requires TopologicalFrom(g, done, order)
    ensures LexNotAfter(Greedy(g, done), order)
    decreases |order|
  {
    var ready := ReadySet(g, done);
    if ready != {} {
      var x := Least(ready);
      assert order != [];
      assert order[0] in ready && NotAfter(x, order[0]);
      assert Greedy(g, done) == [x] + Greedy(g, done + {x});
      if x == order[0] {
        GreedyIsLeast(g, done + {x}, order[1..]);
      }
    }
  }

  // When the planner succeeds its order is topological, and no topological order
  // of the same tasks comes before it; so it depends on the tasks alone.
  lemma PlannedOrderIsLeast(g: Needs)
    requires Known(g) && !HasCycle(g)
    ensures Topological(g, Greedy(g, {}))
    ensures forall order :: Topological(g, order) ==> LexNotAfter(Greedy(g, {}), order)
  {
    GreedyIsTopological(g, {});
    TopologicalIffFromNothing(g, Greedy(g, {}));
    forall order | Topological(g, order) ensures LexNotAfter(Greedy(g, {}), order) {
      TopologicalIffFromNothing(g, order);
      GreedyIsLeast(g, {}, order);
    }
  }

  // ---------------------------------------------------------------- bookkeeping

  // Go's zero value for a missing map key.
  function Count(m: map<Id, int>, id: Id): int {
    if id in m then m[id] else 0
  }

  function Listed(m: map<Id, seq<Id>>, id: Id): seq<Id> {
    if id in m then m[id] else []
  }

  function Bump(m: map<Id, int>, id: Id, delta: int): (r: map<Id, int>)
    ensures forall x {:trigger Count(r, x)} :: Count(r, x) == Count(m, x) + if x == id then delta else 0
  {
    m[id := Count(m, id) + delta]
  }

  function Extend(m: map<Id, seq<Id>>, d: Id, id: Id): (r: map<Id, seq<Id>>)
    ensures forall x {:trigger Listed(r, x)} :: Listed(r, x) == Listed(m, x) + if x == d then [id] else []
  {
    m[d := Listed(m, d) + [id]]
  }

  ghost function Open(g: Needs, done: set<Id>, id: Id): set<Id>
    requires id in g
  {
    set n | n in g[id] && n !in done
  }

  // `dependents` lists, once each, the tasks among `seen` that need a given task.
  ghost predicate DependentsOf(g: Needs, seen: set<Id>, dependents: map<Id, seq<Id>>) {
    && (forall d {:trigger NoDup(Listed(dependents, d))} :: NoDup(Listed(dependents, d)))
    && (forall d, x {:trigger x in Listed(dependents, d)} ::
         x in Listed(dependents, d) <==> x in seen && x in g && d in g[x])
  }

  ghost predicate TaskIsSound(g: Needs, id: Id)
    requires id in g
  {
    NoDup(g[id]) && forall n :: n in g[id] ==> n in g
  }

  // One task of the first loop: check its needs, count them, record it as their dependent.
  method CountTask(g: Needs, id: Id, indegree0: map<Id, int>, dependents0: map<Id, seq<Id>>)
    returns (problem: Option<PlanError>, indegree: map<Id, int>, dependents: map<Id, seq<Id>>)
    requires id in g
    ensures problem.None? <==> TaskIsSound(g, id)
    ensures problem.Some? ==> Truthful(g, problem.value) && !problem.value.DependencyCycle?
    ensures problem.None? ==> forall x {:trigger Count(indegree, x)} ::
      Count(indegree, x) == Count(indegree0, x) + if x == id then |g[id]| else 0
    ensures problem.None? ==> forall d {:trigger Listed(dependents, d)} ::
      Listed(dependents, d) == Listed(dependents0, d) + if d in g[id] then [id] else []
  {
    problem, indegree, dependents := None, indegree0, dependents0;
    var needs := g[id];
    var seen: set<Id> := {};
    for k := 0 to |needs|
      invariant seen == Elems(needs[..k]) && |seen| == k && seen <= g.Keys
      invariant Tallied(id, seen, indegree0, dependents0, indegree, dependents)
    {
      var need := needs[k];
      NextNeed(needs, k);
      if need !in g {
        problem := Some(UnknownNeed(id, need));
        return;
      }
      if need in seen {
        problem := Some(RepeatedNeed(id, need));
        return;
      }
      TalliedNext(id, seen, indegree0, dependents0, indegree, dependents, need);
      seen := seen + {need};
      indegree := Bump(indegree, id, 1);
      dependents := Extend(dependents, need, id);
    }
    assert needs[..|needs|] == needs;
    FullCardinality(needs);
  }

  // The inner loop's two maps once these needs were seen.
  ghost predicate Tallied(id: Id, seen: set<Id>, indegree0: map<Id, int>, dependents0: map<Id, seq<Id>>,
                          indegree: map<Id, int>, dependents: map<Id, seq<Id>>)
  {
    && (forall x {:trigger Count(indegree, x)} ::
         Count(indegree, x) == Count(indegree0, x) + if x == id then |seen| else 0)
    && forall d {:trigger Listed(dependents, d)} ::
      Listed(dependents, d) == Listed(dependents0, d) + if d in seen then [id] else []
  }

  lemma TalliedNext(id: Id, seen: set<Id>, indegree0: map<Id, int>, dependents0: map<Id, seq<Id>>,
                    indegree: map<Id, int>, dependents: map<Id, seq<Id>>, need: Id)
    requires Tallied(id, seen, indegree0, dependents0, indegree, dependents) && need !in seen
    ensures Tallied(id, seen + {need}, indegree0, dependents0, Bump(indegree, id, 1), Extend(dependents, need, id))
  {
  }

  lemma NextNeed(needs: seq<Id>, k: nat)
    requires k < |needs|
    ensures Elems(needs[..k + 1]) == Elems(needs[..k]) + {needs[k]}
    ensures needs[k] in Elems(needs[..k]) ==> !NoDup(needs)
  {
    assert needs[..k + 1] == needs[..k] + [needs[k]];
    ElemsSnoc(needs[..k], needs[k]);
  }

  // The first loop, in map iteration order.
  method CountNeeds(g: Needs)
    returns (problem: Option<PlanError>, indegree: map<Id, int>, dependents: map<Id, seq<Id>>)
    ensures problem.None? <==> Known(g) && Unrepeated(g)
    ensures problem.Some? ==> Truthful(g, problem.value) && !problem.value.DependencyCycle?
    ensures problem.None? ==> forall id :: id in g ==> Count(indegree, id) == |g[id]|
    ensures problem.None? ==> DependentsOf(g, g.Keys, dependents)
  {
    problem, indegree, dependents := None, map[], map[];
    var todo := g.Keys;
    while todo != {}
      invariant todo <= g.Keys && problem.None?
      invariant forall id :: id in g && id !in todo ==> TaskIsSound(g, id)
      invariant forall id :: id in g ==> Count(indegree, id) == if id in todo then 0 else |g[id]|
      invariant DependentsOf(g, g.Keys - todo, dependents)
      decreases |todo|
    {
      var id :| id in todo;
      ghost var before := dependents;
      problem, indegree, dependents := CountTask(g, id, indegree, dependents);
      if problem.Some? {
        assert !(Known(g) && Unrepeated(g));
        return;
      }
      todo := todo - {id};
      DependentsGrow(g, g.Keys - todo - {id}, id, before, dependents);
      assert g.Keys - todo - {id} + {id} == g.Keys - todo;
    }
    assert g.Keys - todo == g.Keys;
  }

  lemma DependentsGrow(g: Needs, seen: set<Id>, id: Id, before: map<Id, seq<Id>>, after: map<Id, seq<Id>>)
    requires DependentsOf(g, seen, before) && id !in seen && id in g
    requires forall d :: Listed(after, d) == Listed(before, d) + if d in g[id] then [id] else []
    ensures DependentsOf(g, seen + {id}, after)
  {
    forall d ensures NoDup(Listed(after, d)) {
      assert NoDup(Listed(before, d)) && id !in Listed(before, d);
    }
    forall d, x ensures x in Listed(after, d) <==> x in seen + {id} && x in g && d in g[x] {
      assert x in Listed(before, d) <==> x in seen && x in g && d in g[x];
    }
  }

  // What an error says is true of the tasks.
  ghost predicate Truthful(g: Needs, e: PlanError) {
    match e
    case UnknownNeed(task, need) => task in g && need in g[task] && need !in g
    case RepeatedNeed(task, need) => task in g && need in g[task] && !NoDup(g[task])
    case DependencyCycle => HasCycle(g)
  }

  method SortDependents(g: Needs, dependents: map<Id, seq<Id>>) returns (sorted: map<Id, seq<Id>>)
    requires DependentsOf(g, g.Keys, dependents)
    ensures DependentsOf(g, g.Keys, sorted)
    ensures forall d :: Sorted(Listed(sorted, d))
  {
    sorted := dependents;
    var todo := dependents.Keys;
    while todo != {}
      invariant todo <= dependents.Keys && sorted.Keys == dependents.Keys
      invariant forall d :: d in todo ==> sorted[d] == dependents[d]
      invariant forall d :: d in dependents && d !in todo ==>
        Sorted(sorted[d]) && multiset(sorted[d]) == multiset(dependents[d])
      decreases |todo|
    {
      var d :| d in todo;
      var list := SortStrings(dependents[d]);
      sorted := sorted[d := list];
      todo := todo - {d};
    }
    SortingKeepsDependents(g, dependents, sorted);
  }

  lemma SortingKeepsDependents(g: Needs, dependents: map<Id, seq<Id>>, sorted: map<Id, seq<Id>>)
    requires DependentsOf(g, g.Keys, dependents) && sorted.Keys == dependents.Keys
    requires forall d :: d in dependents ==> multiset(sorted[d]) == multiset(dependents[d])
    ensures DependentsOf(g, g.Keys, sorted)
  {
    forall d ensures NoDup(Listed(sorted, d)) {
      assert NoDup(Listed(dependents, d));
      PermutationFacts(Listed(dependents, d), Listed(sorted, d));
    }
    forall d, x ensures x in Listed(sorted, d) <==> x in Listed(dependents, d) {
      PermutationFacts(Listed(dependents, d), Listed(sorted, d));
    }
  }

  lemma InitialCounts(g: Needs, indegree: map<Id, int>)
    requires Unrepeated(g) && forall id :: id in g ==> Count(indegree, id) == |g[id]|
    ensures Counted(g, {}, indegree, [])
  {
    forall x | x in g ensures Count(indegree, x) == |Open(g, {}, x)| {
      assert Open(g, {}, x) == Elems(g[x]);
      NoDupCardinality(g[x]);
    }
  }

  // The tasks outside `done` whose count is zero.
  ghost function Idle(g: Needs, done: set<Id>, indegree: map<Id, int>): set<Id> {
    set x | x in g && x !in done && Count(indegree, x) == 0
  }

  // The tasks with no need, in map iteration order, then sorted.
  method InitialReady(g: Needs, indegree: map<Id, int>) returns (ready: seq<Id>)
    ensures ready == Ascending(Idle(g, {}, indegree))
  {
    ready := [];
    var todo := g.Keys;
    while todo != {}
      invariant todo <= g.Keys && NoDup(ready)
      invariant forall x :: x in ready <==> x in g && x !in todo && Count(indegree, x) == 0
      decreases |todo|
    {
      var id :| id in todo;
      if Count(indegree, id) == 0 {
        ready := ready + [id];
      }
      todo := todo - {id};
    }
    assert Elems(ready) == Idle(g, {}, indegree);
    ready := SortStrings(ready);
  }

  lemma OpenAfter(g: Needs, done: set<Id>, id: Id, x: Id)
    requires x in g && id !in done
    ensures |Open(g, done, x)| == |Open(g, done + {id}, x)| + if id in g[x] then 1 else 0
  {
    if id in g[x] {
      assert Open(g, done, x) == Open(g, done + {id}, x) + {id};
    } else {
      assert Open(g, done, x) == Open(g, done + {id}, x);
    }
  }

  ghost predicate Counted(g: Needs, done: set<Id>, indegree: map<Id, int>, pending: seq<Id>) {
    forall x {:trigger Count(indegree, x)} ::
      x in g ==> Count(indegree, x) == |Open(g, done, x)| + if x in pending then 1 else 0
  }

  // The innermost loop: `id` is done, so each of its dependents waits for one less.
  method Release(g: Needs, ghost done: set<Id>, deps: seq<Id>, indegree0: map<Id, int>, ready0: seq<Id>)
    returns (indegree: map<Id, int>, ready: seq<Id>)
    requires NoDup(deps) && forall x :: x in deps ==> x in g && x !in done
    requires Counted(g, done, indegree0, deps)
    requires ready0 == Ascending(Idle(g, done, indegree0))
    ensures Counted(g, done, indegree, [])
    ensures ready == Ascending(Idle(g, done, indegree))
  {
    indegree, ready := indegree0, ready0;
    assert deps[0..] == deps;
    for k := 0 to |deps|
      invariant Counted(g, done, indegree, deps[k..])
      invariant ready == Ascending(Idle(g, done, indegree))
    {
      var dependent := deps[k];
      BumpDown(g, done, indegree, deps, k);
      indegree := Bump(indegree, dependent, -1);
      if Count(indegree, dependent) == 0 {
        ready := SortStrings(ready + [dependent]);
      }
    }
  }

  lemma BumpDown(g: Needs, done: set<Id>, was: map<Id, int>, deps: seq<Id>, k: nat)
    requires NoDup(deps) && k < |deps| && deps[k] in g && deps[k] !in done
    requires Counted(g, done, was, deps[k..])
    ensures var now := Bump(was, deps[k], -1);
      && Counted(g, done, now, deps[k + 1..])
      && Elems(Ascending(Idle(g, done, was)) + [deps[k]]) == Idle(g, done, was) + {deps[k]}
      && NoDup(Ascending(Idle(g, done, was)) + [deps[k]])
      && Idle(g, done, now) == Idle(g, done, was) + if Count(now, deps[k]) == 0 then {deps[k]} else {}
  {
    BumpKeepsCount(g, done, was, deps, k);
    assert Count(was, deps[k]) == |Open(g, done, deps[k])| + 1 by { assert deps[k] in deps[k..]; }
    BumpFreesAtMost(g, done, was, deps[k]);
    WithOneMore(Idle(g, done, was), deps[k]);
  }

  lemma WithOneMore(s: set<Id>, x: Id)
    requires x !in s
    ensures Elems(Ascending(s) + [x]) == s + {x} && NoDup(Ascending(s) + [x])
  {
    AscendingIsDistinct(s);
    NoDupSnoc(Ascending(s), x);
  }

  lemma BumpFreesAtMost(g: Needs, done: set<Id>, was: map<Id, int>, x: Id)
    requires x in g && x !in done && Count(was, x) != 0
    ensures var now := Bump(was, x, -1);
      Idle(g, done, now) == Idle(g, done, was) + if Count(now, x) == 0 then {x} else {}
  {
  }

  lemma BumpKeepsCount(g: Needs, done: set<Id>, was: map<Id, int>, deps: seq<Id>, k: nat)
    requires NoDup(deps) && k < |deps| && Counted(g, done, was, deps[k..])
    ensures Counted(g, done, Bump(was, deps[k], -1), deps[k + 1..])
  {
    var now := Bump(was, deps[k], -1);
    assert deps[k..] == [deps[k]] + deps[k + 1..];
    forall x | x in g ensures Count(now, x) == |Open(g, done, x)| + if x in deps[k + 1..] then 1 else 0 {
      assert Count(was, x) == |Open(g, done, x)| + if x in deps[k..] then 1 else 0;
    }
  }

  lemma IdleIsReady(g: Needs, done: set<Id>, indegree: map<Id, int>)
    requires Counted(g, done, indegree, [])
    ensures Idle(g, done, indegree) == ReadySet(g, done)
  {
    forall x | x in g && x !in done ensures Count(indegree, x) == 0 <==> Ready(g, done, x) {
      assert Count(indegree, x) == |Open(g, done, x)|;
      if Count(indegree, x) == 0 {
        assert Open(g, done, x) == {};
        forall n | n in g[x] ensures n in done {
          assert n !in Open(g, done, x);
        }
      } else {
        var n :| n in Open(g, done, x);
        assert n in g[x] && n !in done;
      }
    }
  }

  // Removing the first ready task leaves the tasks that are still idle.
  lemma IdleAfterHead(g: Needs, done: set<Id>, indegree: map<Id, int>)
    requires ReadySet(g, done) != {} && Idle(g, done, indegree) == ReadySet(g, done)
    ensures var id := Least(ReadySet(g, done));
      && Ascending(ReadySet(g, done))[1..] == Ascending(Idle(g, done + {id}, indegree))
      && Greedy(g, done) == [id] + Greedy(g, done + {id})
  {
    var id := Least(ReadySet(g, done));
    assert Idle(g, done + {id}, indegree) == ReadySet(g, done) - {id};
  }

  // ------------------------------------------------------------------ the planner

  ghost predicate Settled(g: Needs, done: set<Id>) {
    forall x {:trigger NeedsMet(g, done, x)} :: x in done ==> NeedsMet(g, done, x)
  }

  lemma SettledGrows(g: Needs, done: set<Id>, id: Id)
    requires Settled(g, done) && Ready(g, done, id)
    ensures Settled(g, done + {id})
    ensures forall x :: x in g && id in g[x] ==> x !in done + {id}
  {
    forall x | x in done + {id} ensures NeedsMet(g, done + {id}, x) {
      assert NeedsMet(g, done, x);
    }
    forall x | x in g && id in g[x] ensures x !in done + {id} {
      assert x in done ==> NeedsMet(g, done, x);
    }
  }

  // One turn of the main loop: take the first ready task and release its dependents.
  method TakeReady(g: Needs, ghost done: set<Id>, dependents: map<Id, seq<Id>>, indegree0: map<Id, int>,
                   ready0: seq<Id>)
    returns (id: Id, indegree: map<Id, int>, ready: seq<Id>)
    requires DependentsOf(g, g.Keys, dependents) && Settled(g, done) && ready0 != []
    requires Counted(g, done, indegree0, []) && ready0 == Ascending(Idle(g, done, indegree0))
    ensures Ready(g, done, id) && Greedy(g, done) == [id] + Greedy(g, done + {id})
    ensures Settled(g, done + {id})
    ensures Counted(g, done + {id}, indegree, []) && ready == Ascending(Idle(g, done + {id}, indegree))
  {
    IdleIsReady(g, done, indegree0);
    IdleAfterHead(g, done, indegree0);
    id := ready0[0];
    SettledGrows(g, done, id);
    var deps := Listed(dependents, id);
    assert NoDup(deps);
    CountsAfter(g, done, id, indegree0, deps);
    indegree, ready := Release(g, done + {id}, deps, indegree0, ready0[1..]);
  }

  // The main loop: move ready tasks to the order until none is left.
  method DrainReady(g: Needs, dependents: map<Id, seq<Id>>, indegree0: map<Id, int>, ready0: seq<Id>)
    returns (ordered: seq<Id>)
    requires DependentsOf(g, g.Keys, dependents)
    requires Counted(g, {}, indegree0, []) && ready0 == Ascending(Idle(g, {}, indegree0))
    ensures ordered == Greedy(g, {})
  {
    var indegree, ready := indegree0, ready0;
    ordered := [];
    ghost var done: set<Id>, rest := {}, Greedy(g, {});
    while ready != []
      invariant rest == Greedy(g, done) && ordered + rest == Greedy(g, {})
      invariant Settled(g, done)
      invariant Counted(g, done, indegree, []) && ready == Ascending(Idle(g, done, indegree))
      decreases |rest|
    {
      var id;
      id, indegree, ready := TakeReady(g, done, dependents, indegree, ready);
      ConsAssociates(ordered, id, rest[1..]);
      ordered, rest, done := ordered + [id], rest[1..], done + {id};
    }
    IdleIsReady(g, done, indegree);
  }

  lemma CountsAfter(g: Needs, done: set<Id>, id: Id, indegree: map<Id, int>, deps: seq<Id>)
    requires Counted(g, done, indegree, []) && id !in done
    requires forall x :: x in deps <==> x in g && id in g[x]
    ensures Counted(g, done + {id}, indegree, deps)
  {
    forall x | x in g { OpenAfter(g, done, id, x); }
  }

  method TopologicalTasks(tasksByID: map<Id, Task>) returns (r: Result<seq<Task>, PlanError>)
    requires KeyedById(tasksByID)
    ensures var g := NeedsOf(tasksByID);
      && (r.Ok? <==> Known(g) && Unrepeated(g) && !HasCycle(g))
      && (r.Ok? ==>
           IdsOf(r.value) == Greedy(g, {}) && forall t :: t in r.value ==> t.id in tasksByID && t == tasksByID[t.id])
      && (r.Ok? ==> Topological(g, IdsOf(r.value)))
      && (r.Ok? ==> forall order :: Topological(g, order) ==> LexNotAfter(IdsOf(r.value), order))
      && (r.Err? ==> Truthful(g, r.error))
  {
    var g := NeedsOf(tasksByID);
    var problem, indegree, collected := CountNeeds(g);
    if problem.Some? {
      return Err(problem.value);
    }
    var dependents := SortDependents(g, collected);
    InitialCounts(g, indegree);
    var ready := InitialReady(g, indegree);
    var ids := DrainReady(g, dependents, indegree, ready);
    assert tasksByID.Keys == g.Keys;
    GreedyCoversIffAcyclic(g);
    GreedyIsDistinct(g, {});
    NoDupCardinality(ids);
    SubsetCardinality(Elems(ids), g.Keys);
    if |ids| != |tasksByID| {
      return Err(DependencyCycle);
    }
    var ordered := Lookup(tasksByID, ids);
    PlannedOrderIsLeast(g);
    return Ok(ordered);
  }

  lemma NothingNeeded(g: Needs)
    requires forall id :: id in g ==> g[id] == []
    ensures Known(g) && Unrepeated(g) && !HasCycle(g)
  {
    RankedHasNoCycle(g, map id | id in g :: 0);
  }

  // Two tasks that need nothing are planned in the order of their names.
  method RunTwoTasks() returns (r: Result<seq<Task>, PlanError>)
    ensures r.Ok? && IdsOf(r.value) == ["a", "b"]
  {
    var work := Work(["true"], "", "", "", 0, NoTimeout);
    var tasks := map["b" := Task("b", [], [], 1, work), "a" := Task("a", [], [], 1, work)];
    ghost var g := NeedsOf(tasks);
    assert g == map["a" := [], "b" := []];
    NothingNeeded(g);
    r := TopologicalTasks(tasks);
    TwoInOrder(IdsOf(r.value));
  }

  lemma TwoInOrder(order: seq<Id>)
    requires var g: Needs := map["a" := [], "b" := []];
      Topological(g, order) && forall other :: Topological(g, other) ==> LexNotAfter(order, other)
    ensures order == ["a", "b"]
  {
    assert Topological(map["a" := [], "b" := []], ["a", "b"]);
    assert Elems(order) == {"a", "b"};
    NoDupCardinality(order);
    BeforeIs("b", "a");
    assert order[0] in order && order[1] in order;
  }

  method Lookup(tasksByID: map<Id, Task>, ids: seq<Id>) returns (tasks: seq<Task>)
    requires KeyedById(tasksByID) && Elems(ids) <= tasksByID.Keys
    ensures IdsOf(tasks) == ids
    ensures forall t :: t in tasks ==> t.id in tasksByID && t == tasksByID[t.id]
  {
    tasks := [];
    for k := 0 to |ids|
      invariant IdsOf(tasks) == ids[..k]
      invariant forall t :: t in tasks ==> t.id in tasksByID && t == tasksByID[t.id]
    {
      assert ids[k] in Elems(ids);
      tasks := tasks + [tasksByID[ids[k]]];
    }
  }

  lemma {:induction false} GreedyIsDistinct(g: Needs, done: set<Id>)
    ensures NoDup(Greedy(g, done))
    ensures Elems(Greedy(g, done)) <= g.Keys - done
    decreases |g.Keys - done|
  {
    if ReadySet(g, done) != {} {
      var x := Least(ReadySet(g, done));
      assert g.Keys - done == (g.Keys - (done + {x})) + {x};
      GreedyIsDistinct(g, done + {x});
      assert x !in Elems(Greedy(g, done + {x}));
    }
  }

  // The greedy order runs through every task exactly when there is no cycle.
  lemma GreedyCoversIffAcyclic(g: Needs)
    requires Known(g)
    ensures Elems(Greedy(g, {})) == g.Keys <==> !HasCycle(g)
  {
    if !HasCycle(g) {
      GreedyIsTopological(g, {});
      TopologicalFromFacts(g, {}, Greedy(g, {}));
    }
    if Elems(Greedy(g, {})) == g.Keys {
      GreedyPrefix(g, {});
      TopologicalIffFromNothing(g, Greedy(g, {}));
      OrderHasNoCycle(g, Greedy(g, {}));
    }
  }

  lemma {:induction false} GreedyPrefix(g: Needs, done: set<Id>)
    requires g.Keys <= done + Elems(Greedy(g, done))
    ensures TopologicalFrom(g, done, Greedy(g, done))
    decreases |g.Keys - done|
  {
    var ready := ReadySet(g, done);
    if ready != {} {
      var x := Least(ready);
      assert g.Keys - done == (g.Keys - (done + {x})) + {x};
      assert Greedy(g, done) == [x] + Greedy(g, done + {x});
      GreedyPrefix(g, done + {x});
    }
  }
}
