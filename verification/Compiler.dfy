// workflow/compiler.go: selectFeatures and compileTasks, which give every task its
// scenarios and check that every scenario is assigned.
module Compiler {
  import opened Ids
  import opened Graph
  import opened Types
  import opened Texts
  import Planner
  import Validator

  datatype Feature = Feature(uri: string, scenarios: seq<Scenario>)

  // explicit: the specification has an `attempts` field for the task.
  datatype TaskSpec = TaskSpec(id: Id, needs: seq<Id>, selectors: seq<string>, attempts: int, explicit: bool,
                               work: Work)

  // The default model and effort of the specification, path.Match after cleaning the
  // selector, and the selectors refused outright (blank or absolute); matches yields None
  // for a malformed pattern.
  datatype Policy = Policy(model: string, effort: string, refused: string -> bool,
                           matches: (string, string) -> Option<bool>)

  datatype CompileError =
    | BadEffort
    | NoTasks
    | InvalidTask(id: Id)
    | DuplicateTask(id: Id)
    | BadSelector(task: Id, selector: string)
    | UnmatchedSelector(task: Id, selector: string)
    | NoScenarios(task: Id)
    | Unassigned(scenario: Scenario)
    | Ordering(problem: Planner.PlanError)

  // ------------------------------------------------------------ validateTaskSpec

  // A safe name, one of a command and a prompt, a model for a prompt, one to five attempts,
  // an exit code, which only a command may expect to be nonzero, and a positive timeout.
  predicate FieldsOk(model: string, spec: TaskSpec) {
    var work := spec.work;
    && EffortOk(work.effort) && SafeName(spec.id)
    && (work.run == [] <==> !Blank(work.prompt)) && (work.run != [] ==> !Blank(work.run[0]))
    && (work.run == [] ==> work.expectedExit == 0 && !(Blank(work.model) && Blank(model)))
    && 0 <= spec.attempts <= 5 && (spec.explicit ==> spec.attempts != 0)
    && 0 <= work.expectedExit <= 255
    && !work.timeout.Malformed? && (work.timeout.Lasting? ==> work.timeout.nanoseconds > 0)
  }

  method ValidateTaskSpec(model: string, spec: TaskSpec) returns (ok: bool)
    ensures ok <==> FieldsOk(model, spec)
    ensures ok <==>
      && SafeName(spec.id) && spec.work.effort in ["", "low", "medium", "high", "xhigh"]
      && (spec.work.run != [] <==> Blank(spec.work.prompt)) && (spec.work.run != [] ==> !Blank(spec.work.run[0]))
      && (Blank(spec.work.prompt)
          || (spec.work.expectedExit == 0 && (!Blank(spec.work.model) || !Blank(model))))
      && spec.attempts in (if spec.explicit then {1, 2, 3, 4, 5} else {0, 1, 2, 3, 4, 5})
      && 0 <= spec.work.expectedExit < 256
      && (spec.work.timeout == NoTimeout || (spec.work.timeout.Lasting? && spec.work.timeout.nanoseconds >= 1))
  {
    var work := spec.work;
    if !EffortOk(work.effort) {
      return false;
    }
    if SafeName(spec.id) { SafeIsNotBlank(spec.id); }
    if Blank(spec.id) || !SafeName(spec.id) {
      return false;
    }
    var hasRun, hasPrompt := |work.run| > 0, !Blank(work.prompt);
    if hasRun == hasPrompt {
      return false;
    }
    if hasRun && Blank(work.run[0]) {
      return false;
    }
    if hasPrompt && Blank(work.model) && Blank(model) {
      return false;
    }
    if spec.attempts < 0 || spec.attempts > 5 || (spec.explicit && spec.attempts == 0) {
      return false;
    }
    if work.expectedExit < 0 || work.expectedExit > 255 {
      return false;
    }
    if hasPrompt && work.expectedExit != 0 {
      return false;
    }
    match work.timeout
    case NoTimeout => return true;
    case Malformed => return false;
    case Lasting(nanoseconds) => return nanoseconds > 0;
  }

  // ---------------------------------------------------------------- selection

  predicate Matches(policy: Policy, selectors: seq<string>, uri: string) {
    exists s :: s in selectors && policy.matches(s, uri) == Some(true)
  }

  predicate Wanted(policy: Policy, selectors: seq<string>, uri: string) {
    selectors == [] || Matches(policy, selectors, uri)
  }

  // The features a task is about, in the order of the features.
  ghost function Chosen(policy: Policy, selectors: seq<string>, features: seq<Feature>): seq<Feature> {
    if features == [] then []
    else
      var init, last := features[..|features| - 1], features[|features| - 1];
      Chosen(policy, selectors, init) + if Wanted(policy, selectors, last.uri) then [last] else []
  }

  ghost predicate SelectorOk(policy: Policy, s: string, features: seq<Feature>) {
    && !policy.refused(s)
    && (forall f :: f in features ==> policy.matches(s, f.uri).Some?)
    && (exists f :: f in features && policy.matches(s, f.uri) == Some(true))
  }

  // One selector against every feature.
  method MatchSelector(policy: Policy, s: string, features: seq<Feature>) returns (ok: Option<bool>, uris: set<string>)
    ensures ok.Some? <==> forall f :: f in features ==> policy.matches(s, f.uri).Some?
    ensures ok.Some? ==> (ok.value <==> exists f :: f in features && policy.matches(s, f.uri) == Some(true))
    ensures ok.Some? ==>
      forall u :: u in uris <==> exists f :: f in features && f.uri == u && policy.matches(s, u) == Some(true)
  {
    uris := {};
    var matched := false;
    for i := 0 to |features|
      invariant forall f :: f in features[..i] ==> policy.matches(s, f.uri).Some?
      invariant matched <==> exists f :: f in features[..i] && policy.matches(s, f.uri) == Some(true)
      invariant forall u :: u in uris <==>
        exists f :: f in features[..i] && f.uri == u && policy.matches(s, u) == Some(true)
    {
      var f := features[i];
      assert features[..i + 1] == features[..i] + [f];
      var m := policy.matches(s, f.uri);
      if m.None? {
        return None, {};
      }
      if m.value {
        matched := true;
        uris := uris + {f.uri};
      }
    }
    assert features[..|features|] == features;
    return Some(matched), uris;
  }

  method SelectFeatures(policy: Policy, task: Id, selectors: seq<string>, features: seq<Feature>)
    returns (r: Result<seq<Feature>, CompileError>)
    ensures r.Ok? <==> forall s :: s in selectors ==> SelectorOk(policy, s, features)
    ensures r.Ok? ==> r.value == Chosen(policy, selectors, features)
    ensures r.Ok? ==> forall f :: f in r.value <==>
      f in features && (selectors == [] || exists s :: s in selectors && policy.matches(s, f.uri) == Some(true))
  {
    ChosenAreWanted(policy, selectors, features);
    if selectors == [] {
      ChosenAll(policy, features);
      return Ok(features);
    }
    var selected: set<string> := {};
    for i := 0 to |selectors|
      invariant forall s :: s in selectors[..i] ==> SelectorOk(policy, s, features)
      invariant forall f :: f in features ==> (f.uri in selected <==> Matches(policy, selectors[..i], f.uri))
    {
      var s := selectors[i];
      assert s in selectors && selectors[..i + 1] == selectors[..i] + [s];
      if policy.refused(s) {
        return Err(BadSelector(task, s));
      }
      var matched, uris := MatchSelector(policy, s, features);
      if matched.None? {
        return Err(BadSelector(task, s));
      }
      if !matched.value {
        return Err(UnmatchedSelector(task, s));
      }
      selected := selected + uris;
    }
    assert selectors[..|selectors|] == selectors;
    var result: seq<Feature> := [];
    for i := 0 to |features|
      invariant result == Chosen(policy, selectors, features[..i])
    {
      assert features[..i + 1][..i] == features[..i];
      if features[i].uri in selected {
        result := result + [features[i]];
      }
    }
    assert features[..|features|] == features;
    return Ok(result);
  }

  lemma {:induction false} ChosenAreWanted(policy: Policy, selectors: seq<string>, features: seq<Feature>)
    ensures forall f :: f in Chosen(policy, selectors, features) <==>
      f in features && (selectors == [] || exists s :: s in selectors && policy.matches(s, f.uri) == Some(true))
  {
    if features != [] {
      var init, last := features[..|features| - 1], features[|features| - 1];
      ChosenAreWanted(policy, selectors, init);
      assert features == init + [last];
    }
  }

  // They keep the order of the features: `at` gives their positions.
  lemma {:induction false} ChosenKeepOrder(policy: Policy, selectors: seq<string>, features: seq<Feature>)
    returns (at: seq<nat>)
    ensures |at| == |Chosen(policy, selectors, features)|
    ensures forall i :: 0 <= i < |at| ==>
      at[i] < |features| && Chosen(policy, selectors, features)[i] == features[at[i]]
    ensures forall i, j :: 0 <= i < j < |at| ==> at[i] < at[j]
  {
    at := [];
    if features != [] {
      var n := |features| - 1;
      at := ChosenKeepOrder(policy, selectors, features[..n]);
      if Wanted(policy, selectors, features[n].uri) { at := at + [n]; }
    }
  }

  lemma {:induction false} ChosenAll(policy: Policy, features: seq<Feature>)
    ensures Chosen(policy, [], features) == features
  {
    if features != [] {
      ChosenAll(policy, features[..|features| - 1]);
      assert features == features[..|features| - 1] + [features[|features| - 1]];
    }
  }

  // ---------------------------------------------------------------- scenarios

  function AllScenarios(features: seq<Feature>): seq<Scenario> {
    if features == [] then [] else AllScenarios(features[..|features| - 1]) + features[|features| - 1].scenarios
  }

  function ScenarioIds(scenarios: seq<Scenario>): (ids: seq<string>)
    ensures |ids| == |scenarios| && forall i :: 0 <= i < |ids| ==> ids[i] == scenarios[i].id
  {
    seq(|scenarios|, i requires 0 <= i < |scenarios| => scenarios[i].id)
  }

  // Choosing features keeps distinct scenarios distinct and adds none.
  // The scenarios of one feature after those of the other.
  lemma {:induction false} ScenariosAppend(a: seq<Feature>, b: seq<Feature>)
    ensures AllScenarios(a + b) == AllScenarios(a) + AllScenarios(b)
    ensures |a| == 1 ==> AllScenarios(a) == a[0].scenarios
  {
    if |a| == 1 { assert a[..0] == []; }
    if b == [] {
      assert a + b == a;
    } else {
      ScenariosAppend(a, b[..|b| - 1]);
      assert (a + b)[..|a + b| - 1] == a + b[..|b| - 1];
    }
  }

  lemma {:induction false} ChosenScenarios(policy: Policy, selectors: seq<string>, features: seq<Feature>)
    ensures forall s :: s in AllScenarios(Chosen(policy, selectors, features)) ==> s in AllScenarios(features)
    ensures NoDup(ScenarioIds(AllScenarios(features))) ==>
      NoDup(ScenarioIds(AllScenarios(Chosen(policy, selectors, features))))
  {
    if features != [] {
      var init, last := features[..|features| - 1], features[|features| - 1];
      ChosenScenarios(policy, selectors, init);
      ChosenScenariosSnoc(policy, selectors, features);
      if NoDup(ScenarioIds(AllScenarios(features))) {
        PrefixDistinct(AllScenarios(init), last.scenarios);
        if Wanted(policy, selectors, last.uri) {
          SwapPrefix(AllScenarios(Chosen(policy, selectors, init)), AllScenarios(init), last.scenarios);
        }
      }
    }
  }

  lemma ChosenScenariosSnoc(policy: Policy, selectors: seq<string>, features: seq<Feature>)
    requires features != []
    ensures var init, last := features[..|features| - 1], features[|features| - 1];
      AllScenarios(Chosen(policy, selectors, features))
        == AllScenarios(Chosen(policy, selectors, init))
           + if Wanted(policy, selectors, last.uri) then last.scenarios else []
  {
    var init, last := features[..|features| - 1], features[|features| - 1];
    var chosen := Chosen(policy, selectors, features);
    if Wanted(policy, selectors, last.uri) {
      assert chosen[..|chosen| - 1] == Chosen(policy, selectors, init);
    } else {
      assert chosen == Chosen(policy, selectors, init);
    }
  }

  lemma PrefixDistinct(a: seq<Scenario>, b: seq<Scenario>)
    requires NoDup(ScenarioIds(a + b))
    ensures NoDup(ScenarioIds(a))
  {
    forall i, j | 0 <= i < j < |a| ensures ScenarioIds(a)[i] != ScenarioIds(a)[j] {
      assert ScenarioIds(a + b)[i] != ScenarioIds(a + b)[j];
    }
  }

  lemma SwapPrefix(a': seq<Scenario>, a: seq<Scenario>, b: seq<Scenario>)
    requires NoDup(ScenarioIds(a + b)) && NoDup(ScenarioIds(a'))
    requires forall s :: s in a' ==> s in a
    ensures NoDup(ScenarioIds(a' + b))
  {
    var before, after := ScenarioIds(a + b), ScenarioIds(a' + b);
    forall i, j | 0 <= i < j < |after| ensures after[i] != after[j] {
      if j < |a'| {
        assert ScenarioIds(a')[i] != ScenarioIds(a')[j];
      } else if i < |a'| {
        assert a'[i] in a;
        var k :| 0 <= k < |a| && a[k] == a'[i];
        assert before[k] != before[|a| + j - |a'|];
      } else {
        assert before[|a| + i - |a'|] != before[|a| + j - |a'|];
      }
    }
  }

  lemma {:induction false} ScenarioIsIn(features: seq<Feature>, f: Feature, s: Scenario)
    requires f in features && s in f.scenarios
    ensures s in AllScenarios(features)
  {
    if f != features[|features| - 1] {
      ScenarioIsIn(features[..|features| - 1], f, s);
    }
  }

  // ------------------------------------------------------------------- compiling

  function SpecIds(specs: seq<TaskSpec>): (r: seq<Id>)
    ensures |r| == |specs| && forall i :: 0 <= i < |r| ==> r[i] == specs[i].id
  {
    seq(|specs|, i requires 0 <= i < |specs| => specs[i].id)
  }

  ghost function SpecGraph(specs: seq<TaskSpec>): Needs
    requires NoDup(SpecIds(specs))
  {
    map x | x in SpecIds(specs) :: specs[IndexOf(SpecIds(specs), x)].needs
  }

  lemma SpecGraphAt(specs: seq<TaskSpec>, i: nat)
    requires NoDup(SpecIds(specs)) && i < |specs|
    ensures specs[i].id in SpecGraph(specs) && SpecGraph(specs)[specs[i].id] == specs[i].needs
  {
    assert SpecIds(specs)[i] == specs[i].id;
    var j := IndexOf(SpecIds(specs), specs[i].id);
    assert SpecIds(specs)[j] == SpecIds(specs)[i];
  }

  ghost predicate SpecOk(policy: Policy, features: seq<Feature>, spec: TaskSpec) {
    && FieldsOk(policy.model, spec)
    && (forall s :: s in spec.selectors ==> SelectorOk(policy, s, features))
    && Chosen(policy, spec.selectors, features) != []
  }

  ghost predicate AssignedBySpec(policy: Policy, features: seq<Feature>, specs: seq<TaskSpec>, id: string) {
    exists i :: 0 <= i < |specs| && id in ScenarioIds(AllScenarios(Chosen(policy, specs[i].selectors, features)))
  }

  // The specifications that compile, stated on the specification alone.
  ghost predicate Compilable(policy: Policy, features: seq<Feature>, specs: seq<TaskSpec>) {
    && EffortOk(policy.effort) && specs != [] && NoDup(SpecIds(specs))
    && (forall i :: 0 <= i < |specs| ==> SpecOk(policy, features, specs[i]))
    && (forall s :: s in AllScenarios(features) ==> AssignedBySpec(policy, features, specs, s.id))
    && Known(SpecGraph(specs)) && Unrepeated(SpecGraph(specs)) && !HasCycle(SpecGraph(specs))
  }

  // A prompt has its own effort if it names one, and its own model, trimmed, if that is not blank;
  // otherwise those of the specification. Nothing else changes, and nothing at all of a command.
  ghost predicate Inherits(policy: Policy, was: Work, now: Work) {
    && now.run == was.run && now.prompt == was.prompt
    && now.expectedExit == was.expectedExit && now.timeout == was.timeout
    && (Blank(was.prompt) ==> now == was)
    && (!Blank(was.prompt) && was.effort != "" ==> now.effort == was.effort)
    && (!Blank(was.prompt) && was.effort == "" ==> now.effort == policy.effort)
    && (!Blank(was.prompt) && !Blank(was.model) ==> IsTrimmed(was.model, now.model))
    && (!Blank(was.prompt) && Blank(was.model) ==> IsTrimmed(policy.model, now.model))
  }

  method FillDefaults(policy: Policy, spec: Work) returns (work: Work)
    ensures Inherits(policy, spec, work)
  {
    work := spec;
    if !Blank(work.prompt) {
      if work.effort == "" {
        work := work.(effort := policy.effort);
      }
      TrimIsBlank(spec.model);
      TrimIsTrimmed(spec.model);
      TrimIsTrimmed(policy.model);
      work := work.(model := Trim(work.model));
      if work.model == "" {
        work := work.(model := Trim(policy.model));
      }
    }
  }

  // A compiled task and the specification it comes from.
  ghost predicate CompiledFrom(policy: Policy, features: seq<Feature>, spec: TaskSpec, t: Task) {
    && FieldsOk(policy.model, spec) && t.id == spec.id && t.needs == spec.needs && Inherits(policy, spec.work, t.work)
    && t.attempts == (if spec.attempts == 0 then 1 else spec.attempts)
    && t.scenarios == AllScenarios(Chosen(policy, spec.selectors, features))
  }

  ghost predicate MadeFrom(policy: Policy, features: seq<Feature>, specs: seq<TaskSpec>, t: Task) {
    t.scenarios != [] && exists i :: 0 <= i < |specs| && CompiledFrom(policy, features, specs[i], t)
  }

  ghost predicate TasksMade(policy: Policy, features: seq<Feature>, specs: seq<TaskSpec>, tasks: map<Id, Task>) {
    && KeyedById(tasks)
    && (forall i :: 0 <= i < |specs| ==> specs[i].id in tasks)
    && (forall id {:trigger tasks[id]} :: id in tasks ==> MadeFrom(policy, features, specs, tasks[id]))
  }

  ghost predicate CoveredOnly(tasks: map<Id, Task>, covered: set<string>) {
    forall c {:trigger CoveredBySome(tasks, c)} :: c in covered <==> CoveredBySome(tasks, c)
  }

  ghost predicate CoveredBySome(tasks: map<Id, Task>, c: string) {
    exists id :: id in tasks && c in ScenarioIds(tasks[id].scenarios)
  }

  method MakeTask(policy: Policy, features: seq<Feature>, spec: TaskSpec) returns (r: Result<Task, CompileError>)
    requires FieldsOk(policy.model, spec) && forall f :: f in features ==> f.scenarios != []
    ensures r.Ok? <==> SpecOk(policy, features, spec)
    ensures r.Ok? ==> CompiledFrom(policy, features, spec, r.value) && r.value.scenarios != []
    ensures r.Ok? ==>
      && r.value.id == spec.id && r.value.needs == spec.needs && Inherits(policy, spec.work, r.value.work)
      && (spec.attempts != 0 ==> r.value.attempts == spec.attempts) && (spec.attempts == 0 ==> r.value.attempts == 1)
  {
    var selected := SelectFeatures(policy, spec.id, spec.selectors, features);
    if selected.Err? {
      return Err(selected.error);
    }
    if selected.value == [] {
      return Err(NoScenarios(spec.id));
    }
    ChosenNonempty(policy, spec.selectors, features);
    var attempts := if spec.attempts == 0 then 1 else spec.attempts;
    var work := FillDefaults(policy, spec.work);
    return Ok(Task(spec.id, spec.needs, AllScenarios(selected.value), attempts, work));
  }

  ghost predicate SpecsOk(policy: Policy, features: seq<Feature>, specs: seq<TaskSpec>, n: nat)
    requires n <= |specs|
  {
    && (forall i, j :: 0 <= i < j < n ==> specs[i].id != specs[j].id)
    && forall i :: 0 <= i < n ==> SpecOk(policy, features, specs[i])
  }

  lemma SpecsOkNext(policy: Policy, features: seq<Feature>, specs: seq<TaskSpec>, k: nat, tasks: map<Id, Task>)
    requires k < |specs| && SpecsOk(policy, features, specs, k) && SpecOk(policy, features, specs[k])
    requires TasksMade(policy, features, specs[..k], tasks) && specs[k].id !in tasks
    ensures SpecsOk(policy, features, specs, k + 1)
  {
    forall i | 0 <= i < k ensures specs[i].id != specs[k].id {
      assert specs[..k][i].id in tasks;
    }
  }

  // The loop before the task at k.
  ghost predicate Making(policy: Policy, features: seq<Feature>, specs: seq<TaskSpec>, k: nat, tasks: map<Id, Task>,
                         covered: set<string>)
    requires k <= |specs|
  {
    && TasksMade(policy, features, specs[..k], tasks) && CoveredOnly(tasks, covered)
    && SpecsOk(policy, features, specs, k)
  }

  method MakeTasks(policy: Policy, features: seq<Feature>, specs: seq<TaskSpec>)
    returns (r: Result<map<Id, Task>, CompileError>, covered: set<string>)
    requires forall f :: f in features ==> f.scenarios != []
    ensures r.Ok? <==> NoDup(SpecIds(specs)) && forall i :: 0 <= i < |specs| ==> SpecOk(policy, features, specs[i])
    ensures r.Ok? ==> TasksMade(policy, features, specs, r.value) && CoveredOnly(r.value, covered)
  {
    var tasks: map<Id, Task> := map[];
    covered := {};
    for k := 0 to |specs|
      invariant Making(policy, features, specs, k, tasks, covered)
    {
      var t := MakeNext(policy, features, specs, k, tasks, covered);
      if t.Err? {
        assert !SpecsOk(policy, features, specs, k + 1);
        return Err(t.error), {};
      }
      tasks := tasks[specs[k].id := t.value];
      covered := covered + Elems(ScenarioIds(t.value.scenarios));
    }
    assert specs[..|specs|] == specs;
    return Ok(tasks), covered;
  }

  // One turn of that loop.
  method MakeNext(policy: Policy, features: seq<Feature>, specs: seq<TaskSpec>, k: nat, tasks: map<Id, Task>,
                  ghost covered: set<string>)
    returns (r: Result<Task, CompileError>)
    requires forall f :: f in features ==> f.scenarios != []
    requires k < |specs| && Making(policy, features, specs, k, tasks, covered)
    ensures r.Ok? <==> SpecsOk(policy, features, specs, k + 1)
    ensures r.Ok? ==>
      Making(policy, features, specs, k + 1, tasks[specs[k].id := r.value],
             covered + Elems(ScenarioIds(r.value.scenarios)))
  {
    var valid := ValidateTaskSpec(policy.model, specs[k]);
    if !valid {
      return Err(InvalidTask(specs[k].id));
    }
    if specs[k].id in tasks {
      RepeatedSpec(policy, features, specs, k, tasks);
      return Err(DuplicateTask(specs[k].id));
    }
    r := MakeTask(policy, features, specs[k]);
    if r.Ok? {
      MakingNext(policy, features, specs, k, tasks, covered, r.value);
    }
  }

  lemma MakingNext(policy: Policy, features: seq<Feature>, specs: seq<TaskSpec>, k: nat, tasks: map<Id, Task>,
                   covered: set<string>, t: Task)
    requires k < |specs| && Making(policy, features, specs, k, tasks, covered) && specs[k].id !in tasks
    requires SpecOk(policy, features, specs[k]) && CompiledFrom(policy, features, specs[k], t) && t.scenarios != []
    ensures SpecsOk(policy, features, specs, k + 1)
    ensures Making(policy, features, specs, k + 1, tasks[specs[k].id := t], covered + Elems(ScenarioIds(t.scenarios)))
  {
    TasksGrow(policy, features, specs[..k], specs[k], tasks, t, covered);
    SpecsOkNext(policy, features, specs, k, tasks);
    assert specs[..k + 1] == specs[..k] + [specs[k]];
  }

  lemma TasksGrow(policy: Policy, features: seq<Feature>, specs: seq<TaskSpec>, spec: TaskSpec,
                  tasks: map<Id, Task>, t: Task, covered: set<string>)
    requires TasksMade(policy, features, specs, tasks) && CoveredOnly(tasks, covered) && spec.id !in tasks
    requires CompiledFrom(policy, features, spec, t) && t.scenarios != []
    ensures TasksMade(policy, features, specs + [spec], tasks[spec.id := t])
    ensures CoveredOnly(tasks[spec.id := t], covered + Elems(ScenarioIds(t.scenarios)))
  {
    var tasks', specs' := tasks[spec.id := t], specs + [spec];
    forall id | id in tasks' ensures MadeFrom(policy, features, specs', tasks'[id]) {
      if id == spec.id {
        assert specs'[|specs|] == spec;
      } else {
        assert MadeFrom(policy, features, specs, tasks[id]);
        var i :| 0 <= i < |specs| && CompiledFrom(policy, features, specs[i], tasks[id]);
        assert specs'[i] == specs[i];
      }
    }
    CoverGrows(tasks, spec.id, t, covered);
  }

  lemma CoverGrows(tasks: map<Id, Task>, x: Id, t: Task, covered: set<string>)
    requires CoveredOnly(tasks, covered) && x !in tasks
    ensures CoveredOnly(tasks[x := t], covered + Elems(ScenarioIds(t.scenarios)))
  {
    var tasks' := tasks[x := t];
    forall c ensures c in covered + Elems(ScenarioIds(t.scenarios)) <==> CoveredBySome(tasks', c) {
      CoverOfUpdate(tasks, x, t, c);
    }
  }

  lemma CoverOfUpdate(tasks: map<Id, Task>, x: Id, t: Task, c: string)
    requires x !in tasks
    ensures CoveredBySome(tasks[x := t], c) <==> CoveredBySome(tasks, c) || c in ScenarioIds(t.scenarios)
  {
    var tasks' := tasks[x := t];
    if CoveredBySome(tasks, c) {
      var id :| id in tasks && c in ScenarioIds(tasks[id].scenarios);
      assert tasks'[id] == tasks[id];
    }
    if c in ScenarioIds(t.scenarios) {
      assert c in ScenarioIds(tasks'[x].scenarios);
    }
    if CoveredBySome(tasks', c) {
      var id :| id in tasks' && c in ScenarioIds(tasks'[id].scenarios);
      assert id != x ==> id in tasks && tasks[id] == tasks'[id];
    }
  }

  lemma RepeatedSpec(policy: Policy, features: seq<Feature>, specs: seq<TaskSpec>, k: nat, tasks: map<Id, Task>)
    requires k < |specs| && TasksMade(policy, features, specs[..k], tasks) && specs[k].id in tasks
    ensures !SpecsOk(policy, features, specs, k + 1)
  {
    assert MadeFrom(policy, features, specs[..k], tasks[specs[k].id]);
    var i :| 0 <= i < k && CompiledFrom(policy, features, specs[..k][i], tasks[specs[k].id]);
  }

  // The compiled tasks carry exactly the graph of the specification.
  lemma MadeGraph(policy: Policy, features: seq<Feature>, specs: seq<TaskSpec>, tasks: map<Id, Task>)
    requires TasksMade(policy, features, specs, tasks) && NoDup(SpecIds(specs))
    ensures NeedsOf(tasks) == SpecGraph(specs)
  {
    forall id | id in tasks ensures id in SpecGraph(specs) && SpecGraph(specs)[id] == tasks[id].needs {
      MadeNeeds(policy, features, specs, tasks[id]);
    }
    SameGraph(tasks, specs);
  }

  lemma SameGraph(tasks: map<Id, Task>, specs: seq<TaskSpec>)
    requires NoDup(SpecIds(specs)) && forall i :: 0 <= i < |specs| ==> specs[i].id in tasks
    requires forall id :: id in tasks ==> id in SpecGraph(specs) && SpecGraph(specs)[id] == tasks[id].needs
    ensures NeedsOf(tasks) == SpecGraph(specs)
  {
    forall id | id in SpecGraph(specs) ensures id in tasks {
      var i := IndexOf(SpecIds(specs), id);
      assert specs[i].id == id;
    }
  }

  lemma MadeNeeds(policy: Policy, features: seq<Feature>, specs: seq<TaskSpec>, t: Task)
    requires MadeFrom(policy, features, specs, t) && NoDup(SpecIds(specs))
    ensures t.id in SpecGraph(specs) && SpecGraph(specs)[t.id] == t.needs
  {
    var i :| 0 <= i < |specs| && CompiledFrom(policy, features, specs[i], t);
    SpecGraphAt(specs, i);
  }

  lemma MadeAt(policy: Policy, features: seq<Feature>, specs: seq<TaskSpec>, tasks: map<Id, Task>, i: nat)
    requires TasksMade(policy, features, specs, tasks) && NoDup(SpecIds(specs)) && i < |specs|
    ensures specs[i].id in tasks && CompiledFrom(policy, features, specs[i], tasks[specs[i].id])
  {
    MadeFromOwn(policy, features, specs, tasks[specs[i].id], i);
  }

  // With distinct identifiers a task comes from the specification that has its own.
  lemma MadeFromOwn(policy: Policy, features: seq<Feature>, specs: seq<TaskSpec>, t: Task, i: nat)
    requires MadeFrom(policy, features, specs, t) && NoDup(SpecIds(specs)) && i < |specs| && t.id == specs[i].id
    ensures CompiledFrom(policy, features, specs[i], t)
  {
    var j :| 0 <= j < |specs| && CompiledFrom(policy, features, specs[j], t);
    assert SpecIds(specs)[i] == SpecIds(specs)[j];
  }

  // The scenarios the compiled tasks cover are those the specification assigns.
  lemma CoverIsAssigned(policy: Policy, features: seq<Feature>, specs: seq<TaskSpec>, tasks: map<Id, Task>, c: string)
    requires TasksMade(policy, features, specs, tasks) && CoveredBySome(tasks, c)
    ensures AssignedBySpec(policy, features, specs, c)
  {
    var id :| id in tasks && c in ScenarioIds(tasks[id].scenarios);
    assert MadeFrom(policy, features, specs, tasks[id]);
  }

  lemma AssignedIsCovered(policy: Policy, features: seq<Feature>, specs: seq<TaskSpec>, tasks: map<Id, Task>, c: string)
    requires TasksMade(policy, features, specs, tasks) && NoDup(SpecIds(specs))
    requires AssignedBySpec(policy, features, specs, c)
    ensures CoveredBySome(tasks, c)
  {
    var i :| 0 <= i < |specs| && c in ScenarioIds(AllScenarios(Chosen(policy, specs[i].selectors, features)));
    MadeAt(policy, features, specs, tasks, i);
    assert c in ScenarioIds(tasks[specs[i].id].scenarios);
  }

  lemma CoveredIsAssigned(policy: Policy, features: seq<Feature>, specs: seq<TaskSpec>, tasks: map<Id, Task>,
                          covered: set<string>)
    requires TasksMade(policy, features, specs, tasks) && CoveredOnly(tasks, covered) && NoDup(SpecIds(specs))
    ensures forall c {:trigger AssignedBySpec(policy, features, specs, c)} :: c in covered <==>
      AssignedBySpec(policy, features, specs, c)
  {
    forall c ensures c in covered <==> AssignedBySpec(policy, features, specs, c) {
      assert c in covered <==> CoveredBySome(tasks, c);
      if CoveredBySome(tasks, c) {
        CoverIsAssigned(policy, features, specs, tasks, c);
      }
      if AssignedBySpec(policy, features, specs, c) {
        AssignedIsCovered(policy, features, specs, tasks, c);
      }
    }
  }

  lemma {:induction false} ChosenNonempty(policy: Policy, selectors: seq<string>, features: seq<Feature>)
    requires Chosen(policy, selectors, features) != [] && forall f :: f in features ==> f.scenarios != []
    ensures AllScenarios(Chosen(policy, selectors, features)) != []
  {
    var chosen := Chosen(policy, selectors, features);
    ChosenAreFeatures(policy, selectors, features);
    assert chosen[|chosen| - 1] in features;
  }

  lemma {:induction false} ChosenAreFeatures(policy: Policy, selectors: seq<string>, features: seq<Feature>)
    ensures forall f :: f in Chosen(policy, selectors, features) ==> f in features
  {
    if features != [] { ChosenAreFeatures(policy, selectors, features[..|features| - 1]); }
  }

  method CheckCoverage(features: seq<Feature>, covered: set<string>) returns (missing: Option<Scenario>)
    ensures missing.None? <==> forall s :: s in AllScenarios(features) ==> s.id in covered
  {
    for i := 0 to |features|
      invariant forall s :: s in AllScenarios(features[..i]) ==> s.id in covered
    {
      var scenarios := features[i].scenarios;
      assert features[..i + 1][..i] == features[..i];
      for k := 0 to |scenarios|
        invariant forall j :: 0 <= j < k ==> scenarios[j].id in covered
      {
        if scenarios[k].id !in covered {
          ScenarioIsIn(features, features[i], scenarios[k]);
          return Some(scenarios[k]);
        }
      }
    }
    assert features[..|features|] == features;
    return None;
  }

  // What a successful compilation gives: an order of tasks, each with unrepeated needs, fields
  // that the executor accepts and scenarios of the features, and every scenario of the features
  // assigned to some task.
  ghost predicate CompiledOk(features: seq<Feature>, tasks: seq<Task>) {
    && NoDup(IdsOf(tasks)) && Topological(NeedsOf(Validator.ById(tasks)), IdsOf(tasks))
    && (forall t :: t in tasks ==> Validator.Runnable(t) && NoDup(t.needs))
    && (forall t :: t in tasks ==> t.scenarios != [] && NoDup(ScenarioIds(t.scenarios)))
    && (forall t, s :: t in tasks && s in t.scenarios ==> s in AllScenarios(features))
    && (forall s :: s in AllScenarios(features) ==> exists t :: t in tasks && s.id in ScenarioIds(t.scenarios))
  }

  method CompileTasks(policy: Policy, features: seq<Feature>, specs: seq<TaskSpec>)
    returns (r: Result<seq<Task>, CompileError>)
    requires forall f :: f in features ==> f.scenarios != []
    requires NoDup(ScenarioIds(AllScenarios(features)))
    ensures r.Ok? <==> Compilable(policy, features, specs)
    ensures r.Ok? ==> CompiledOk(features, r.value) && IdsOf(r.value) == Planner.Greedy(SpecGraph(specs), {})
    ensures r.Ok? ==> forall t :: t in r.value ==> MadeFrom(policy, features, specs, t)
  {
    if !EffortOk(policy.effort) {
      return Err(BadEffort);
    }
    if specs == [] {
      return Err(NoTasks);
    }
    var made, covered := MakeTasks(policy, features, specs);
    if made.Err? {
      return Err(made.error);
    }
    var tasks := made.value;
    MadeGraph(policy, features, specs, tasks);
    CoveredIsAssigned(policy, features, specs, tasks, covered);
    var missing := CheckCoverage(features, covered);
    if missing.Some? {
      return Err(Unassigned(missing.value));
    }
    var ordered := Planner.TopologicalTasks(tasks);
    if ordered.Err? {
      return Err(Ordering(ordered.error));
    }
    OrderedIsAll(tasks, ordered.value);
    OrderedIsCompiled(policy, features, specs, tasks, covered, ordered.value);
    return Ok(ordered.value);
  }

  lemma OrderedIsAll(tasks: map<Id, Task>, ordered: seq<Task>)
    requires KeyedById(tasks)
    requires var g := NeedsOf(tasks); Known(g) && !HasCycle(g) && IdsOf(ordered) == Planner.Greedy(g, {})
    requires forall t :: t in ordered ==> t.id in tasks && t == tasks[t.id]
    ensures Topological(NeedsOf(tasks), IdsOf(ordered)) && Validator.ById(ordered) == tasks
    ensures forall id :: id in tasks ==> tasks[id] in ordered
    ensures forall id :: id in IdsOf(ordered) <==> id in tasks
  {
    Planner.PlannedOrderIsLeast(NeedsOf(tasks));
    assert forall id :: id in IdsOf(ordered) <==> id in NeedsOf(tasks);
    Validator.SameTasksSameGraph(tasks, ordered);
    forall id | id in tasks ensures tasks[id] in ordered {
      var k :| 0 <= k < |ordered| && IdsOf(ordered)[k] == id;
      assert ordered[k] == tasks[id];
    }
  }

  lemma OrderedIsCompiled(policy: Policy, features: seq<Feature>, specs: seq<TaskSpec>, tasks: map<Id, Task>,
                          covered: set<string>, ordered: seq<Task>)
    requires TasksMade(policy, features, specs, tasks) && CoveredOnly(tasks, covered)
    requires NoDup(ScenarioIds(AllScenarios(features)))
    requires forall s :: s in AllScenarios(features) ==> s.id in covered
    requires EffortOk(policy.effort) && Unrepeated(NeedsOf(tasks))
    requires Topological(NeedsOf(tasks), IdsOf(ordered)) && Validator.ById(ordered) == tasks
    requires forall id :: id in tasks ==> tasks[id] in ordered
    requires forall t :: t in ordered ==> t.id in tasks && t == tasks[t.id]
    ensures CompiledOk(features, ordered)
    ensures forall t :: t in ordered ==> MadeFrom(policy, features, specs, t)
  {
    forall t | t in ordered
      ensures MadeFrom(policy, features, specs, t) && NoDup(ScenarioIds(t.scenarios))
      ensures Validator.Runnable(t) && NoDup(t.needs)
      ensures forall s :: s in t.scenarios ==> s in AllScenarios(features)
    {
      assert MadeFrom(policy, features, specs, tasks[t.id]);
      assert t.id in NeedsOf(tasks) && NeedsOf(tasks)[t.id] == t.needs;
      MadeFacts(policy, features, specs, t);
    }
    forall s | s in AllScenarios(features) ensures exists t :: t in ordered && s.id in ScenarioIds(t.scenarios) {
      assert CoveredBySome(tasks, s.id);
      var id :| id in tasks && s.id in ScenarioIds(tasks[id].scenarios);
      assert tasks[id] in ordered;
    }
  }

  lemma MadeFacts(policy: Policy, features: seq<Feature>, specs: seq<TaskSpec>, t: Task)
    requires MadeFrom(policy, features, specs, t) && NoDup(ScenarioIds(AllScenarios(features)))
    requires EffortOk(policy.effort)
    ensures Validator.Runnable(t)
    ensures NoDup(ScenarioIds(t.scenarios)) && forall s :: s in t.scenarios ==> s in AllScenarios(features)
  {
    var i :| 0 <= i < |specs| && CompiledFrom(policy, features, specs[i], t);
    ChosenScenarios(policy, specs[i].selectors, features);
    CompiledIsRunnable(policy, features, specs[i], t);
  }

  // What validateTaskSpec lets through, with the defaults filled in, validatePlan accepts:
  // above all, a prompt always ends up with a model.
  lemma CompiledIsRunnable(policy: Policy, features: seq<Feature>, spec: TaskSpec, t: Task)
    requires CompiledFrom(policy, features, spec, t) && EffortOk(policy.effort)
    ensures Validator.Runnable(t)
  {
    if !Blank(spec.work.prompt) {
      TrimmedIsBlank(if Blank(spec.work.model) then policy.model else spec.work.model, t.work.model);
    }
  }

  // A task's own model and effort are kept, whatever the specification says.
  method RunOwnChoices() returns (work: Work)
    ensures work.model == "small" && work.effort == "high"
  {
    var policy := Policy("big", "low", (s: string) => false, (s: string, uri: string) => Some(true));
    var spec := Work([], "Do it.", "small", "high", 0, NoTimeout);
    work := FillDefaults(policy, spec);
    assert spec.prompt[0] == 'D' && spec.model[0] == 's' && spec.model[4] == 'l';
    assert spec.model == "" + spec.model + "";
    OnlyTrimmed(spec.model, work.model, spec.model);
  }
}
