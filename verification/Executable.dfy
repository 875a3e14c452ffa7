// workflow/executor.go: validatePlan as a whole, and why it accepts whatever the compilers
// produce.
module Executable {
  import opened Ids
  import opened Graph
  import opened Texts
  import opened Types
  import opened Git
  import opened Snapshots
  import opened Semantics
  import opened Tracking
  import opened Incremental
  import opened Evidence
  import opened Acceptance
  import Compiler
  import Planner
  import Validator

  const PLAN_VERSION: nat := 1

  ghost predicate AllRunnable(tasks: seq<Task>) {
    forall t :: t in tasks ==> Validator.Runnable(t)
  }

  ghost predicate TasksAccepted(tasks: seq<Task>) {
    AllRunnable(tasks) && NoDup(IdsOf(tasks)) && Validator.GraphIsValid(NeedsOf(Validator.ById(tasks)))
  }

  // A plan with or without tracking that Execute takes.
  ghost predicate Accepted(h: Hashes, version: nat, tasks: seq<Task>, tracking: Option<PlanTracking>) {
    && version == PLAN_VERSION
    && (tracking.Some? ==> TrackingValid(h, TrackedPlan(tasks, tracking.value)))
    && (tasks == [] ==> tracking.Some? && tracking.value.noOp)
    && TasksAccepted(tasks)
  }

  method ValidatePlan(h: Hashes, version: nat, tasks: seq<Task>, tracking: Option<PlanTracking>) returns (ok: bool)
    ensures ok <==> Accepted(h, version, tasks, tracking)
    ensures ok <==>
      && version == 1 && (tracking.Some? ==> TrackingValid(h, TrackedPlan(tasks, tracking.value)))
      && (tasks != [] || (tracking.Some? && tracking.value.noOp))
      && (forall t :: t in tasks ==> Validator.Runnable(t)) && NoDup(IdsOf(tasks))
      && var g := NeedsOf(Validator.ById(tasks)); Known(g) && Unrepeated(g) && !HasCycle(g)
  {
    if version != PLAN_VERSION {
      return false;
    }
    if tracking.Some? {
      var tracked := ValidateTracking(h, TrackedPlan(tasks, tracking.value));
      if !tracked {
        return false;
      }
    }
    if |tasks| == 0 && (tracking.None? || !tracking.value.noOp) {
      return false;
    }
    var fine := CheckTasks(tasks);
    if !fine {
      return false;
    }
    var problem := Validator.ValidateNeeds(tasks);
    return problem.None?;
  }

  // The first loop: fields, and identifiers not seen before.
  method CheckTasks(tasks: seq<Task>) returns (ok: bool)
    ensures ok <==> AllRunnable(tasks) && NoDup(IdsOf(tasks))
  {
    var byId: map<Id, Task> := map[];
    for k := 0 to |tasks|
      invariant AllRunnable(tasks[..k]) && byId == Validator.ById(tasks[..k]) && NoDup(IdsOf(tasks[..k]))
    {
      var fine := CheckNext(tasks, k, byId);
      if !fine {
        return false;
      }
      byId := byId[tasks[k].id := tasks[k]];
    }
    assert tasks[..|tasks|] == tasks;
    return true;
  }

  // One turn of it.
  method CheckNext(tasks: seq<Task>, k: nat, byId: map<Id, Task>) returns (ok: bool)
    requires k < |tasks| && byId == Validator.ById(tasks[..k])
    requires AllRunnable(tasks[..k]) && NoDup(IdsOf(tasks[..k]))
    ensures ok ==> AllRunnable(tasks[..k + 1]) && NoDup(IdsOf(tasks[..k + 1]))
    ensures ok ==> byId[tasks[k].id := tasks[k]] == Validator.ById(tasks[..k + 1])
    ensures !ok ==> !AllRunnable(tasks) || !NoDup(IdsOf(tasks))
  {
    ok := Validator.CheckFields(tasks[k]);
    if !ok {
      assert tasks[k] in tasks;
      return;
    }
    Validator.ByIdSnoc(tasks, k);
    if tasks[k].id in byId {
      Validator.RepeatedId(tasks, k);
      return false;
    }
    NoDupSnoc(IdsOf(tasks[..k]), tasks[k].id);
    assert tasks[..k + 1] == tasks[..k] + [tasks[k]];
  }

  // ----------------------------------------------------------- what the compilers produce

  lemma OrderedIsAccepted(tasks: seq<Task>)
    requires NoDup(IdsOf(tasks)) && Topological(NeedsOf(Validator.ById(tasks)), IdsOf(tasks))
    requires forall t :: t in tasks ==> Validator.Runnable(t) && NoDup(t.needs)
    ensures TasksAccepted(tasks)
  {
    OrderHasNoCycle(GraphOf(tasks), IdsOf(tasks));
    UnrepeatedTasks(tasks);
  }

  // Whatever Compile returns, Execute accepts.
  lemma CompiledIsExecutable(h: Hashes, features: seq<Compiler.Feature>, tasks: seq<Task>)
    requires Compiler.CompiledOk(features, tasks) && tasks != []
    ensures Accepted(h, PLAN_VERSION, tasks, None)
  {
    OrderedIsAccepted(tasks);
  }

  method CompileAndValidate(h: Hashes, policy: Compiler.Policy, features: seq<Compiler.Feature>,
                            specs: seq<Compiler.TaskSpec>)
    returns (compiled: Result<seq<Task>, Compiler.CompileError>, ok: bool)
    requires forall f :: f in features ==> f.scenarios != []
    requires NoDup(Compiler.ScenarioIds(Compiler.AllScenarios(features)))
    ensures compiled.Ok? <==> Compiler.Compilable(policy, features, specs)
    ensures compiled.Ok? ==> ok
  {
    compiled := Compiler.CompileTasks(policy, features, specs);
    ok := false;
    if compiled.Ok? {
      SomethingPlanned(specs, compiled.value);
      CompiledIsExecutable(h, features, compiled.value);
      ok := ValidatePlan(h, PLAN_VERSION, compiled.value, None);
    }
  }

  lemma SomethingPlanned(specs: seq<Compiler.TaskSpec>, tasks: seq<Task>)
    requires specs != [] && NoDup(Compiler.SpecIds(specs))
    requires var g := Compiler.SpecGraph(specs); Known(g) && !HasCycle(g) && IdsOf(tasks) == Planner.Greedy(g, {})
    ensures tasks != []
  {
    var g := Compiler.SpecGraph(specs);
    Planner.PlannedOrderIsLeast(g);
    Compiler.SpecGraphAt(specs, 0);
    assert specs[0].id in IdsOf(tasks);
  }

  // So are the plans of CompileIncremental, those with nothing to do included, and of CompileFull.
  lemma IncrementalIsExecutable(h: Hashes, full: seq<Task>, semantics: seq<Semantic>, spec: Scope, policy: string,
                                head: Commit, listing: seq<Record>, plan: TrackedPlan, c: Choice)
    requires HashesOk(h) && ScopeOk(h, spec) && ValidHash(policy) && FullPlan(full, semantics)
    requires IsIncremental(h, full, semantics, spec, policy, head, listing, plan, c)
    ensures Accepted(h, PLAN_VERSION, plan.tasks, Some(plan.tracking))
  {
    IncrementalIsValid(h, full, semantics, spec, policy, head, listing, plan, c);
    IncrementalGraphIsValid(h, full, semantics, spec, policy, head, listing, plan, c);
    if !plan.tracking.noOp {
      KeptAreRunnable(full, semantics, plan, c);
    }
  }

  lemma KeptAreRunnable(full: seq<Task>, semantics: seq<Semantic>, plan: TrackedPlan, c: Choice)
    requires forall t :: t in full ==> Validator.Runnable(t)
    requires ProjectsAll(GraphOf(full), full, semantics, c.changed, c.affected, plan.tasks, plan.tracking.tasks,
                         c.origin)
    ensures forall t :: t in plan.tasks ==> Validator.Runnable(t)
  {
    forall t | t in plan.tasks ensures Validator.Runnable(t) {
      var j :| 0 <= j < |plan.tasks| && plan.tasks[j] == t;
      assert Projects(GraphOf(full), semantics, c.changed, c.affected, full[c.origin[j]], t, plan.tracking.tasks[j]);
      assert full[c.origin[j]] in full;
    }
  }

  lemma FullIsExecutable(h: Hashes, full: seq<Task>, semantics: seq<Semantic>, spec: Scope, policy: string,
                         head: Commit, plan: TrackedPlan)
    requires HashesOk(h) && ScopeOk(h, spec) && ValidHash(policy) && FullPlan(full, semantics)
    requires IsFull(h, full, semantics, spec, policy, head, plan)
    ensures Accepted(h, PLAN_VERSION, plan.tasks, Some(plan.tracking))
  {
    FullIsValid(h, full, semantics, spec, policy, head, plan);
    OrderedIsAccepted(full);
    SomeTask(full, semantics);
  }
}
