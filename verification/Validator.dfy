// workflow/executor.go: the dependency checks of validatePlan, ending in a
// depth-first search for cycles; and its agreement with the planner.
module Validator {
  import opened Ids
  import opened Graph
  import opened Types
  import opened Texts
  import Planner

  datatype GraphError =
    | DuplicateId(id: Id)
    | UnknownNeed(task: Id, need: Id)
    | SelfNeed(task: Id)
    | RepeatedNeed(task: Id, need: Id)
    | CycleThrough(id: Id)

  // The visiting and visited maps of validatePlan.
  class DepthFirst {
    const g: Needs
    var visiting: set<Id>
    var visited: set<Id>
    ghost var finished: seq<Id>  // the visited tasks, in the order their visits ended

    ghost predicate Valid()
      reads this
    {
      && visiting <= g.Keys
      && visited == Elems(finished) && visited <= g.Keys
      && visiting !! visited
      && NoDup(finished)
      && forall i :: 0 <= i < |finished| ==> NeedsMet(g, Elems(finished[..i]), finished[i])
    }

    constructor (g: Needs)
      ensures Valid() && this.g == g
      ensures visiting == {} && visited == {}
    {
      this.g := g;
      visiting, visited, finished := {}, {}, [];
    }

    // `stack` is the path of unfinished visits that led here.
    method Visit(id: Id, ghost stack: seq<Id>) returns (cycle: Option<Id>)
      requires Valid() && Known(g) && id in g
      requires visiting == Elems(stack) && IsPath(g, stack + [id])
      modifies this
      ensures cycle.None? ==> Valid() && visiting == old(visiting)
      ensures cycle.None? ==> id in visited && old(visited) <= visited
      ensures cycle.Some? ==> HasCycle(g)
      decreases g.Keys - visiting
    {
      if id in visiting {
        RevisitIsCycle(g, stack, id);
        return Some(id);
      }
      if id in visited {
        return None;
      }
      visiting := visiting + {id};
      ElemsSnoc(stack, id);
      var needs := g[id];
      for k := 0 to |needs|
        invariant Valid() && visiting == old(visiting) + {id}
        invariant old(visited) <= visited && Elems(needs[..k]) <= visited
      {
        PathExtends(g, stack + [id], needs[k]);
        cycle := Visit(needs[k], stack + [id]);
        if cycle.Some? {
          return;
        }
        ElemsSnoc(needs[..k], needs[k]);
        assert needs[..k + 1] == needs[..k] + [needs[k]];
      }
      assert needs[..|needs|] == needs;
      visiting := visiting - {id};
      visited := visited + {id};
      Finish(g, finished, id);
      ElemsSnoc(finished, id);
      finished := finished + [id];
      return None;
    }
  }

  lemma Finish(g: Needs, finished: seq<Id>, id: Id)
    requires id in g && id !in finished && Elems(g[id]) <= Elems(finished)
    requires NoDup(finished)
    requires forall i :: 0 <= i < |finished| ==> NeedsMet(g, Elems(finished[..i]), finished[i])
    ensures NoDup(finished + [id])
    ensures forall i :: 0 <= i < |finished + [id]| ==> NeedsMet(g, Elems((finished + [id])[..i]), (finished + [id])[i])
  {
    forall i | 0 <= i < |finished + [id]|
      ensures NeedsMet(g, Elems((finished + [id])[..i]), (finished + [id])[i])
    {
      assert (finished + [id])[..i] == finished[..i];
      if i == |finished| {
        assert finished[..i] == finished;
        assert forall n :: n in g[id] ==> n in Elems(g[id]);
      }
    }
  }

  lemma PathExtends(g: Needs, p: seq<Id>, need: Id)
    requires IsPath(g, p) && p[|p| - 1] in g && need in g[p[|p| - 1]]
    ensures IsPath(g, p + [need])
  {
    forall i: nat | i + 1 < |p + [need]| ensures StepAt(g, p + [need], i) {
      if i + 1 < |p| { assert StepAt(g, p, i); }
    }
  }

  lemma RevisitIsCycle(g: Needs, stack: seq<Id>, id: Id)
    requires IsPath(g, stack + [id]) && id in stack
    ensures HasCycle(g)
  {
    var i :| 0 <= i < |stack| && stack[i] == id;
    var p := (stack + [id])[i..];
    forall k: nat | k + 1 < |p| ensures StepAt(g, p, k) {
      assert StepAt(g, stack + [id], i + k);
    }
    assert IsCycle(g, p);
  }

  // Needs that are known, not the task itself, and not repeated.
  method CheckNeeds(g: Needs, id: Id) returns (problem: Option<GraphError>)
    requires id in g
    ensures problem.None? <==> Planner.TaskIsSound(g, id) && id !in g[id]
    ensures problem.Some? ==> Accurate(g, problem.value) && !problem.value.DuplicateId?
  {
    var needs := g[id];
    var seen: set<Id> := {};
    for k := 0 to |needs|
      invariant seen == Elems(needs[..k]) && |seen| == k && seen <= g.Keys && id !in seen
    {
      var need := needs[k];
      if need !in g {
        return Some(UnknownNeed(id, need));
      }
      if need == id {
        return Some(SelfNeed(id));
      }
      if need in seen {
        return Some(RepeatedNeed(id, need));
      }
      ElemsSnoc(needs[..k], need);
      assert needs[..k + 1] == needs[..k] + [need];
      seen := seen + {need};
    }
    assert needs[..|needs|] == needs;
    FullCardinality(needs);
    return None;
  }

  ghost predicate Accurate(g: Needs, e: GraphError) {
    match e
    case DuplicateId(id) => id in g
    case UnknownNeed(task, need) => task in g && need in g[task] && need !in g
    case SelfNeed(task) => task in g && task in g[task]
    case RepeatedNeed(task, need) => task in g && need in g[task] && !NoDup(g[task])
    case CycleThrough(id) => HasCycle(g)
  }

  function ById(tasks: seq<Task>): (r: map<Id, Task>)
    ensures KeyedById(r)
    ensures forall id :: id in r <==> id in IdsOf(tasks)
    ensures forall id :: id in r ==> r[id] in tasks
  {
    if tasks == [] then map[]
    else
      var init := ById(tasks[..|tasks| - 1]);
      var last := tasks[|tasks| - 1];
      assert IdsOf(tasks) == IdsOf(tasks[..|tasks| - 1]) + [last.id];
      init[last.id := last]
  }

  lemma {:induction false} ByIdLooksUp(tasks: seq<Task>, k: nat)
    requires NoDup(IdsOf(tasks)) && k < |tasks|
    ensures tasks[k].id in ById(tasks) && ById(tasks)[tasks[k].id] == tasks[k]
    decreases |tasks|
  {
    var init := tasks[..|tasks| - 1];
    if k < |init| {
      assert IdsOf(init) == IdsOf(tasks)[..|init|];
      assert IdsOf(tasks)[k] != IdsOf(tasks)[|init|];
      ByIdLooksUp(init, k);
    }
  }

  // What validatePlan asks of one task: a safe name, one of a command and a prompt, a model for
  // a prompt, one to five attempts, an exit code, a positive timeout.
  predicate Runnable(t: Task) {
    var work := t.work;
    && EffortOk(work.effort) && SafeName(t.id)
    && (work.run == [] <==> !Blank(work.prompt)) && (work.run != [] ==> !Blank(work.run[0]))
    && (work.run == [] ==> !Blank(work.model) && work.expectedExit == 0)
    && 1 <= t.attempts <= 5 && 0 <= work.expectedExit <= 255
    && !work.timeout.Malformed? && (work.timeout.Lasting? ==> work.timeout.nanoseconds > 0)
  }

  method CheckFields(t: Task) returns (ok: bool)
    ensures ok <==> Runnable(t)
    ensures ok <==>
      && SafeName(t.id) && t.work.effort in ["", "low", "medium", "high", "xhigh"]
      && (t.work.run != [] <==> Blank(t.work.prompt)) && (t.work.run != [] ==> !Blank(t.work.run[0]))
      && (Blank(t.work.prompt) || (t.work.expectedExit == 0 && !Blank(t.work.model)))
      && t.attempts in {1, 2, 3, 4, 5} && 0 <= t.work.expectedExit < 256
      && (t.work.timeout == NoTimeout || (t.work.timeout.Lasting? && t.work.timeout.nanoseconds >= 1))
  {
    var work := t.work;
    if !EffortOk(work.effort) || !SafeName(t.id) {
      return false;
    }
    var hasPrompt := !Blank(work.prompt);
    if (|work.run| == 0) == !hasPrompt {
      return false;
    }
    if |work.run| > 0 && Blank(work.run[0]) {
      return false;
    }
    if hasPrompt && Blank(work.model) {
      return false;
    }
    if t.attempts < 1 || t.attempts > 5 || work.expectedExit < 0 || work.expectedExit > 255 {
      return false;
    }
    if hasPrompt && work.expectedExit != 0 {
      return false;
    }
    match work.timeout
    case NoTimeout => return true;
    case Malformed => return false;
    case Lasting(nanoseconds) => return nanoseconds > 0;
  }

  ghost predicate GraphIsValid(g: Needs) {
    Known(g) && Unrepeated(g) && !HasCycle(g)
  }

  lemma ByIdSnoc(tasks: seq<Task>, k: nat)
    requires k < |tasks|
    ensures ById(tasks[..k + 1]) == ById(tasks[..k])[tasks[k].id := tasks[k]]
    ensures IdsOf(tasks[..k + 1]) == IdsOf(tasks[..k]) + [tasks[k].id]
  {
    assert tasks[..k + 1][..k] == tasks[..k];
  }

  method IndexTasks(tasks: seq<Task>) returns (byId: map<Id, Task>, duplicate: Option<Id>)
    ensures duplicate.None? <==> NoDup(IdsOf(tasks))
    ensures duplicate.None? ==> byId == ById(tasks)
  {
    byId := map[];
    for k := 0 to |tasks|
      invariant byId == ById(tasks[..k])
      invariant NoDup(IdsOf(tasks[..k]))
    {
      ByIdSnoc(tasks, k);
      if tasks[k].id in byId {
        RepeatedId(tasks, k);
        return byId, Some(tasks[k].id);
      }
      NoDupSnoc(IdsOf(tasks[..k]), tasks[k].id);
      byId := byId[tasks[k].id := tasks[k]];
    }
    assert tasks[..|tasks|] == tasks;
    return byId, None;
  }

  lemma RepeatedId(tasks: seq<Task>, k: nat)
    requires k < |tasks| && tasks[k].id in IdsOf(tasks[..k])
    ensures !NoDup(IdsOf(tasks))
  {
    var i :| 0 <= i < k && IdsOf(tasks[..k])[i] == tasks[k].id;
    assert IdsOf(tasks)[i] == IdsOf(tasks)[k];
  }

  method CheckAllNeeds(g: Needs, ids: seq<Id>) returns (problem: Option<GraphError>)
    requires forall id :: id in ids <==> id in g
    ensures problem.None? ==> Known(g) && Unrepeated(g)
    ensures problem.Some? ==> !GraphIsValid(g) && Accurate(g, problem.value) && !problem.value.DuplicateId?
  {
    for k := 0 to |ids|
      invariant forall i :: 0 <= i < k ==> Planner.TaskIsSound(g, ids[i])
    {
      assert ids[k] in g;
      problem := CheckNeeds(g, ids[k]);
      if problem.Some? {
        if ids[k] in g[ids[k]] { SelfNeedIsCycle(g, ids[k]); }
        return;
      }
    }
    forall id | id in g ensures Planner.TaskIsSound(g, id) {
      var i :| 0 <= i < |ids| && ids[i] == id;
    }
    return None;
  }

  // validatePlan, as far as it concerns the dependency graph.
  method ValidateGraph(tasks: seq<Task>) returns (problem: Option<GraphError>)
    ensures problem.None? <==> NoDup(IdsOf(tasks)) && GraphIsValid(NeedsOf(ById(tasks)))
    ensures problem.Some? && !problem.value.DuplicateId? ==> Accurate(NeedsOf(ById(tasks)), problem.value)
  {
    var byId, duplicate := IndexTasks(tasks);
    if duplicate.Some? {
      return Some(DuplicateId(duplicate.value));
    }
    problem := ValidateNeeds(tasks);
  }

  // The second and the third loop of validatePlan.
  method ValidateNeeds(tasks: seq<Task>) returns (problem: Option<GraphError>)
    requires NoDup(IdsOf(tasks))
    ensures problem.None? <==> GraphIsValid(NeedsOf(ById(tasks)))
    ensures problem.Some? ==> Accurate(NeedsOf(ById(tasks)), problem.value) && !problem.value.DuplicateId?
  {
    var g := NeedsOf(ById(tasks));
    problem := CheckAllNeeds(g, IdsOf(tasks));
    if problem.Some? {
      return;
    }
    var ids := SortStrings(IdsOf(tasks));
    PermutationFacts(IdsOf(tasks), ids);
    problem := SearchCycles(g, ids);
  }

  lemma SelfNeedIsCycle(g: Needs, id: Id)
    requires id in g && id in g[id]
    ensures HasCycle(g)
  {
    var p := [id, id];
    assert StepAt(g, p, 0);
    assert IsCycle(g, p);
  }

  method SearchCycles(g: Needs, ids: seq<Id>) returns (problem: Option<GraphError>)
    requires Known(g) && forall id :: id in ids <==> id in g
    ensures problem.None? <==> !HasCycle(g)
    ensures problem.Some? ==> problem.value.CycleThrough?
  {
    var search := new DepthFirst(g);
    for k := 0 to |ids|
      invariant search.Valid() && search.g == g && search.visiting == {}
      invariant Elems(ids[..k]) <= search.visited
    {
      assert IsPath(g, [] + [ids[k]]);
      assert ids[k] in g;
      var cycle := search.Visit(ids[k], []);
      if cycle.Some? {
        return Some(CycleThrough(cycle.value));
      }
      ElemsSnoc(ids[..k], ids[k]);
      assert ids[..k + 1] == ids[..k] + [ids[k]];
    }
    assert ids[..|ids|] == ids;
    FinishedEverything(g, ids, search.finished);
    return None;
  }

  lemma FinishedEverything(g: Needs, ids: seq<Id>, finished: seq<Id>)
    requires forall id :: id in ids <==> id in g
    requires Elems(ids) <= Elems(finished) <= g.Keys && NoDup(finished)
    requires forall i :: 0 <= i < |finished| ==> NeedsMet(g, Elems(finished[..i]), finished[i])
    ensures !HasCycle(g)
  {
    forall x ensures x in finished <==> x in g {
      assert x in finished <==> x in Elems(finished);
      assert x in ids <==> x in Elems(ids);
    }
    assert Topological(g, finished);
    OrderHasNoCycle(g, finished);
  }

  // ------------------------------------------------------------------ agreement

  // The two searches accept the same task graphs, and the validator accepts the
  // plan that the planner returns.
  method PlanThenValidate(tasksByID: map<Id, Task>, tasks: seq<Task>)
    returns (planned: Result<seq<Task>, Planner.PlanError>, direct: Option<GraphError>, replayed: Option<GraphError>)
    requires NoDup(IdsOf(tasks)) && tasksByID == ById(tasks)
    ensures planned.Ok? <==> direct.None?
    ensures planned.Ok? ==> replayed.None?
  {
    planned := Planner.TopologicalTasks(tasksByID);
    direct := ValidateGraph(tasks);
    replayed := None;
    if planned.Ok? {
      var g := NeedsOf(tasksByID);
      Planner.PlannedOrderIsLeast(g);
      SameTasksSameGraph(tasksByID, planned.value);
      replayed := ValidateGraph(planned.value);
    }
  }

  lemma SameTasksSameGraph(tasksByID: map<Id, Task>, tasks: seq<Task>)
    requires KeyedById(tasksByID)
    requires forall t :: t in tasks ==> t.id in tasksByID && t == tasksByID[t.id]
    requires forall id :: id in IdsOf(tasks) <==> id in tasksByID
    ensures ById(tasks) == tasksByID
  {
  }
}
