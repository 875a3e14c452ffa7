// workflow/incremental.go: buildFullTracking, with the tracking metadata that
// ValidateTracking and RecordImplementation read.
module Tracking {
  import opened Ids
  import opened Graph
  import opened Texts
  import opened Types
  import opened Git
  import opened Snapshots
  import opened Metadata
  import opened Semantics
  import Compiler
  import Planner
  import Validator

  datatype Reason = Changed | Verification | Prerequisite

  datatype IncrementalTask = IncrementalTask(id: Id, reason: Reason, keys: seq<Key>)

  // Where the specification is: its scope, and the path of one outside the repository.
  datatype Scope = Scope(name: string, path: string)

  // input and projection: what the plan was compiled from, and its tasks, as hashes.
  datatype PlanTracking = PlanTracking(
    version: nat, spec: Scope, baseline: Commit, policy: string, input: string, projection: string,
    baseRecords: seq<Record>, noOp: bool,
    scenarios: seq<ScenarioTracking>, tasks: seq<IncrementalTask>)

  datatype TrackedPlan = TrackedPlan(tasks: seq<Task>, tracking: PlanTracking)

  const TRACKING_VERSION: nat := 2

  // The hash of trackingInputFingerprint and projectionFingerprint, filepath.Clean, and the
  // hash of a path.
  datatype Hashes = Hashes(
    input: (string, seq<Input>) -> string, projection: seq<Task> -> string,
    clean: string -> string, place: string -> string)

  ghost predicate HashesOk(h: Hashes) {
    && (forall policy, inputs :: ValidHash(h.input(policy, inputs)))
    && (forall tasks :: ValidHash(h.projection(tasks)))
    && (forall path :: ValidHash(h.place(path)))
    && forall path :: h.clean(h.clean(path)) == h.clean(path) && h.clean(path) != ""
  }

  const REPO := "repo:"
  const EXTERNAL := "external:"

  predicate ValidScope(name: string) {
    (HasPrefix(name, REPO) && |name| > |REPO|) || (HasPrefix(name, EXTERNAL) && ValidHash(name[|EXTERNAL|..]))
  }

  // The scope is well formed, and agrees with the path.
  predicate ScopeOk(h: Hashes, scope: Scope) {
    && ValidScope(scope.name)
    && if HasPrefix(scope.name, EXTERNAL)
       then scope.path != "" && scope.name == EXTERNAL + h.place(h.clean(scope.path))
       else scope.path == ""
  }

  // incrementalSpecScope: `relative` is the path within the repository, if it is in it.
  method SpecScope(h: Hashes, relative: Option<string>, absolute: string) returns (scope: Scope)
    requires HashesOk(h) && (relative.Some? ==> relative.value != "")
    ensures ScopeOk(h, scope)
    ensures relative.Some? ==> scope == Scope("repo:" + relative.value, "")
    ensures relative.None? ==>
      scope.name == "external:" + h.place(h.clean(absolute)) && scope.path == h.clean(absolute)
  {
    if relative.Some? {
      scope := Scope(REPO + relative.value, "");
      assert scope.name[0] == 'r' && EXTERNAL[0] == 'e';
      return;
    }
    scope := Scope(EXTERNAL + h.place(h.clean(absolute)), h.clean(absolute));
    assert scope.name[|EXTERNAL|..] == h.place(h.clean(absolute));
  }

  // ------------------------------------------------------------------ associating

  ghost predicate HasScenario(t: Task, id: string) {
    id in Compiler.ScenarioIds(t.scenarios)
  }

  // Exactly the tasks that have the scenario, once each, in identifier order.
  ghost predicate Associated(tasks: seq<Task>, s: Semantic) {
    && s.tracking.tasks == Ascending(Elems(s.tracking.tasks))
    && forall x :: x in s.tracking.tasks <==> Carries(tasks, x, s.scenario.id)
  }

  ghost predicate Carries(tasks: seq<Task>, task: Id, scenario: string) {
    exists t :: t in tasks && t.id == task && HasScenario(t, scenario)
  }

  // The same scenarios, apart from their task lists.
  ghost predicate SameScenarios(a: seq<Semantic>, b: seq<Semantic>) {
    && |a| == |b|
    && forall i :: 0 <= i < |a| ==> b[i] == a[i].(tracking := a[i].tracking.(tasks := b[i].tracking.tasks))
  }

  // byID: the position of each scenario.
  method IndexScenarios(semantics: seq<Semantic>) returns (byId: map<string, nat>)
    requires SemanticsOk(semantics)
    ensures forall id :: id in byId ==> byId[id] < |semantics| && semantics[byId[id]].scenario.id == id
    ensures forall i :: 0 <= i < |semantics| ==> semantics[i].scenario.id in byId && byId[semantics[i].scenario.id] == i
  {
    byId := map[];
    for i := 0 to |semantics|
      invariant forall id :: id in byId ==> byId[id] < i && semantics[byId[id]].scenario.id == id
      invariant forall k :: 0 <= k < i ==> semantics[k].scenario.id in byId && byId[semantics[k].scenario.id] == k
    {
      forall k | 0 <= k < i ensures semantics[k].scenario.id != semantics[i].scenario.id {
        assert IdOfEach(Trackings(semantics))[k] != IdOfEach(Trackings(semantics))[i];
        assert SemanticOk(semantics[k]) && SemanticOk(semantics[i]);
      }
      byId := byId[semantics[i].scenario.id := i];
    }
  }

  predicate At(byId: map<string, nat>, semantics: seq<Semantic>, i: nat)
    requires i < |semantics|
  {
    semantics[i].scenario.id in byId && byId[semantics[i].scenario.id] == i
  }

  // Append a task to each of its scenarios; None when one is not tracked.
  method AssociateTask(t: Task, byId: map<string, nat>, semantics0: seq<Semantic>)
    returns (r: Option<seq<Semantic>>)
    requires NoDup(Compiler.ScenarioIds(t.scenarios))
    requires forall id :: id in byId ==> byId[id] < |semantics0| && semantics0[byId[id]].scenario.id == id
    ensures r.Some? <==> forall s :: s in t.scenarios ==> s.id in byId
    ensures r.Some? ==> SameScenarios(semantics0, r.value)
    ensures r.Some? ==> forall i :: 0 <= i < |semantics0| ==>
      r.value[i].tracking.tasks == semantics0[i].tracking.tasks +
        (if At(byId, semantics0, i) && HasScenario(t, semantics0[i].scenario.id) then [t.id] else [])
  {
    var semantics := semantics0;
    var ids := Compiler.ScenarioIds(t.scenarios);
    for k := 0 to |t.scenarios|
      invariant SameScenarios(semantics0, semantics)
      invariant forall j :: 0 <= j < k ==> ids[j] in byId
      invariant forall i :: 0 <= i < |semantics0| ==>
        semantics[i].tracking.tasks == semantics0[i].tracking.tasks +
          (if At(byId, semantics0, i) && semantics0[i].scenario.id in ids[..k] then [t.id] else [])
    {
      var id := t.scenarios[k].id;
      assert ids[..k + 1] == ids[..k] + [id];
      if id !in byId {
        return None;
      }
      var i := byId[id];
      assert id !in ids[..k];
      semantics := semantics[i :=
          semantics[i].(tracking := semantics[i].tracking.(tasks := semantics[i].tracking.tasks + [t.id]))];
    }
    assert ids[..|ids|] == ids;
    forall s | s in t.scenarios ensures s.id in byId {
      var j :| 0 <= j < |t.scenarios| && t.scenarios[j] == s;
      assert ids[j] == s.id;
    }
    return Some(semantics);
  }

  ghost predicate Collected(tasks: seq<Task>, s: Semantic) {
    && NoDup(s.tracking.tasks)
    && forall x :: x in s.tracking.tasks <==> Carries(tasks, x, s.scenario.id)
  }

  lemma CollectedGrows(tasks: seq<Task>, t: Task, before: Semantic, after: Semantic)
    requires Collected(tasks, before) && NoDup(IdsOf(tasks + [t]))
    requires after.scenario == before.scenario
    requires after.tracking.tasks == before.tracking.tasks + if HasScenario(t, before.scenario.id) then [t.id] else []
    ensures Collected(tasks + [t], after)
  {
    forall x ensures Carries(tasks + [t], x, after.scenario.id)
      <==> Carries(tasks, x, before.scenario.id) || (x == t.id && HasScenario(t, before.scenario.id))
    {
      assert t in tasks + [t];
    }
    assert t.id !in before.tracking.tasks by {
      forall u | u in tasks ensures u.id != t.id {
        var i :| 0 <= i < |tasks| && tasks[i] == u;
        assert IdsOf(tasks + [t])[i] != IdsOf(tasks + [t])[|tasks|];
      }
    }
  }

  // associateScenarioTasks
  // In ascending order, the identifiers of the tasks that have this scenario.
  ghost predicate ListsTasks(tasks: seq<Task>, s: Semantic) {
    && (forall i, j :: 0 <= i < j < |s.tracking.tasks| ==> Before(s.tracking.tasks[i], s.tracking.tasks[j]))
    && forall x :: x in s.tracking.tasks <==>
         exists t, c :: t in tasks && t.id == x && c in t.scenarios && c.id == s.scenario.id
  }

  lemma AssociatedLists(tasks: seq<Task>, s: Semantic)
    ensures Associated(tasks, s) ==> ListsTasks(tasks, s)
  {
    if Associated(tasks, s) {
      AscendingIsSorted(Elems(s.tracking.tasks));
      forall x ensures x in s.tracking.tasks <==>
        exists t, c :: t in tasks && t.id == x && c in t.scenarios && c.id == s.scenario.id
      {
        CarriesMeans(tasks, x, s.scenario.id);
      }
    }
  }

  lemma CarriesMeans(tasks: seq<Task>, x: Id, id: string)
    ensures Carries(tasks, x, id) <==> exists t, c :: t in tasks && t.id == x && c in t.scenarios && c.id == id
  {
    if Carries(tasks, x, id) {
      var t :| t in tasks && t.id == x && HasScenario(t, id);
      var ids := Compiler.ScenarioIds(t.scenarios);
      var i :| 0 <= i < |ids| && ids[i] == id;
      assert t.scenarios[i] in t.scenarios;
    }
    if exists t, c :: t in tasks && t.id == x && c in t.scenarios && c.id == id {
      var t, c :| t in tasks && t.id == x && c in t.scenarios && c.id == id;
      var i :| 0 <= i < |t.scenarios| && t.scenarios[i] == c;
      assert Compiler.ScenarioIds(t.scenarios)[i] == id;
      assert HasScenario(t, id);
    }
  }

  method AssociateScenarioTasks(tasks: seq<Task>, semantics0: seq<Semantic>) returns (r: Option<seq<Semantic>>)
    requires SemanticsOk(semantics0) && NoDup(IdsOf(tasks))
    requires forall t :: t in tasks ==> NoDup(Compiler.ScenarioIds(t.scenarios))
    requires forall s :: s in semantics0 ==> s.tracking.tasks == []
    ensures r.Some? <==> forall t, c :: t in tasks && c in t.scenarios ==>
      exists s :: s in semantics0 && s.scenario.id == c.id
    ensures r.Some? ==> SameScenarios(semantics0, r.value)
    ensures r.Some? ==> forall s :: s in r.value ==> Associated(tasks, s)
    ensures r.Some? ==> forall s :: s in r.value ==> ListsTasks(tasks, s)
  {
    forall s ensures Associated(tasks, s) ==> ListsTasks(tasks, s) {
      AssociatedLists(tasks, s);
    }
    var byId := IndexScenarios(semantics0);
    var semantics := semantics0;
    for k := 0 to |tasks|
      invariant SameScenarios(semantics0, semantics)
      invariant forall i :: 0 <= i < |semantics| ==> Collected(tasks[..k], semantics[i])
      invariant forall t, c :: t in tasks[..k] && c in t.scenarios ==> c.id in byId
    {
      var t := tasks[k];
      assert tasks[..k + 1] == tasks[..k] + [t];
      var next := AssociateTask(t, byId, semantics);
      if next.None? {
        var c :| c in t.scenarios && c.id !in byId;
        assert t in tasks;
        return None;
      }
      PrefixIdsDistinct(tasks, k + 1);
      forall i | 0 <= i < |semantics| ensures Collected(tasks[..k + 1], next.value[i]) {
        assert At(byId, semantics, i);
        CollectedGrows(tasks[..k], t, semantics[i], next.value[i]);
      }
      semantics := next.value;
    }
    assert tasks[..|tasks|] == tasks;
    forall t, c | t in tasks && c in t.scenarios ensures exists s :: s in semantics0 && s.scenario.id == c.id {
      assert semantics0[byId[c.id]] in semantics0;
    }
    semantics := SortTaskLists(tasks, semantics0, semantics);
    return Some(semantics);
  }

  lemma PrefixIdsDistinct(tasks: seq<Task>, k: nat)
    requires NoDup(IdsOf(tasks)) && k <= |tasks|
    ensures NoDup(IdsOf(tasks[..k]))
  {
    forall i, j | 0 <= i < j < k ensures IdsOf(tasks[..k])[i] != IdsOf(tasks[..k])[j] {
      assert IdsOf(tasks)[i] != IdsOf(tasks)[j];
    }
  }

  method SortTaskLists(tasks: seq<Task>, semantics0: seq<Semantic>, semantics: seq<Semantic>) returns (r: seq<Semantic>)
    requires SameScenarios(semantics0, semantics)
    requires forall i :: 0 <= i < |semantics| ==> Collected(tasks, semantics[i])
    ensures SameScenarios(semantics0, r)
    ensures forall s :: s in r ==> Associated(tasks, s)
  {
    r := semantics;
    for i := 0 to |semantics|
      invariant SameScenarios(semantics0, r)
      invariant forall k :: 0 <= k < i ==> Associated(tasks, r[k])
      invariant forall k :: i <= k < |r| ==> r[k] == semantics[k]
    {
      var s := semantics[i];
      assert Collected(tasks, s);
      var sorted := SortStrings(s.tracking.tasks);
      SortedIsAssociated(tasks, s, sorted);
      r := r[i := s.(tracking := s.tracking.(tasks := sorted))];
    }
  }

  lemma SortedIsAssociated(tasks: seq<Task>, s: Semantic, sorted: seq<Id>)
    requires Collected(tasks, s) && multiset(sorted) == multiset(s.tracking.tasks)
    requires sorted == Ascending(Elems(s.tracking.tasks))
    ensures Associated(tasks, s.(tracking := s.tracking.(tasks := sorted)))
  {
    PermutationFacts(s.tracking.tasks, sorted);
    assert Elems(sorted) == Elems(s.tracking.tasks);
  }

  // -------------------------------------------------------------- the full plan

  // What buildFullTracking hands to both compilers.
  ghost predicate FullPlan(full: seq<Task>, semantics: seq<Semantic>) {
    && NoDup(IdsOf(full)) && Topological(NeedsOf(Validator.ById(full)), IdsOf(full))
    && SemanticsOk(semantics) && semantics != []
    && (forall t :: t in full ==> Validator.Runnable(t) && NoDup(t.needs))
    && (forall t :: t in full ==> t.scenarios != [] && NoDup(Compiler.ScenarioIds(t.scenarios)))
    && (forall t, c :: t in full && c in t.scenarios ==> Tracked(semantics, c.id))
    && (forall s :: s in semantics ==> Associated(full, s) && s.tracking.tasks != [])
  }

  // buildFullTracking: compile, read the scenarios again, associate. On a compiled plan the
  // association never fails, and every scenario has a task.
  method BuildFullTracking(policy: Compiler.Policy, reading: Reading, features: seq<Compiler.Feature>,
                           specs: seq<Compiler.TaskSpec>)
    returns (r: Result<(seq<Task>, seq<Semantic>), Compiler.CompileError>)
    requires features != [] && forall f :: f in features ==> f.scenarios != []
    requires NoDup(Compiler.ScenarioIds(Compiler.AllScenarios(features)))
    requires ReadingOk(reading, Compiler.AllScenarios(features)) && Located(features)
    ensures r.Ok? <==> Compiler.Compilable(policy, features, specs)
    ensures r.Ok? ==>
      FullPlan(r.value.0, r.value.1) && ReadsWithTasks(reading, Compiler.AllScenarios(features), r.value.1)
    ensures r.Ok? ==> IdsOf(r.value.0) == Planner.Greedy(Compiler.SpecGraph(specs), {})
  {
    var compiled := Compiler.CompileTasks(policy, features, specs);
    if compiled.Err? {
      return Err(compiled.error);
    }
    var full := compiled.value;
    var semantics := CompileSemanticScenarios(reading, features);
    var associated := AssociateScenarioTasks(full, semantics);
    AssociatedIsFull(features, full, semantics, associated);
    return Ok((full, associated.value));
  }

  // The scenarios as read, apart from their task lists.
  ghost predicate ReadsWithTasks(reading: Reading, scenarios: seq<Scenario>, semantics: seq<Semantic>) {
    exists before :: ReadsAs(reading, scenarios, before) && SameScenarios(before, semantics)
  }

  lemma AssociatedIsFull(features: seq<Compiler.Feature>, full: seq<Task>, semantics0: seq<Semantic>,
                         associated: Option<seq<Semantic>>)
    requires Compiler.CompiledOk(features, full) && SameFeatures(features, semantics0)
    requires associated.Some? <==> forall t, c :: t in full && c in t.scenarios ==> Tracked(semantics0, c.id)
    requires associated.Some? ==> SameScenarios(semantics0, associated.value)
    requires associated.Some? ==> forall s :: s in associated.value ==> Associated(full, s)
    ensures associated.Some? && FullPlan(full, associated.value)
  {
    assert associated.Some?;
    var semantics := associated.value;
    SameScenariosFacts(semantics0, semantics);
    forall s | s in semantics ensures s.tracking.tasks != [] {
      assert Tracked(semantics0, s.scenario.id);
      var c :| c in Compiler.AllScenarios(features) && c.id == s.scenario.id;
      var t :| t in full && c.id in Compiler.ScenarioIds(t.scenarios);
      assert HasScenario(t, s.scenario.id);
      assert Carries(full, t.id, s.scenario.id);
    }
  }

  lemma SameTracked(a: seq<Semantic>, b: seq<Semantic>, id: Id)
    requires |a| == |b| && forall i :: 0 <= i < |a| ==> b[i].scenario == a[i].scenario
    requires Tracked(a, id)
    ensures Tracked(b, id)
  {
    var s :| s in a && s.scenario.id == id;
    var i :| 0 <= i < |a| && a[i] == s;
    assert b[i] in b && b[i].scenario.id == id;
  }

  lemma SameScenariosFacts(a: seq<Semantic>, b: seq<Semantic>)
    requires SameScenarios(a, b) && SemanticsOk(a)
    ensures SemanticsOk(b)
    ensures forall id :: Tracked(a, id) <==> Tracked(b, id)
  {
    assert IdOfEach(Trackings(a)) == IdOfEach(Trackings(b));
    assert KeyOfEach(Trackings(a)) == KeyOfEach(Trackings(b));
    forall id ensures Tracked(a, id) <==> Tracked(b, id) {
      if Tracked(a, id) { SameTracked(a, b, id); }
      if Tracked(b, id) { SameTracked(b, a, id); }
    }
    forall s | s in b ensures SemanticOk(s) {
      var i :| 0 <= i < |b| && b[i] == s;
      assert a[i] in a;
    }
  }
}
