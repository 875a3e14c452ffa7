// workflow/incremental.go: ValidatePlanInputs and RecordImplementation.
module Recording {
  import opened Ids
  import opened Texts
  import opened Types
  import opened Git
  import opened Snapshots
  import opened Metadata
  import opened Semantics
  import opened Registry
  import opened Tracking
  import opened Evidence
  import Compiler
  import Scheduler

  // ------------------------------------------------------------- ValidatePlanInputs

  // The repository when the plan is checked again: HEAD, the specification and its
  // scenarios if they compile, and whether nothing is uncommitted.
  datatype Present = Present(head: Commit, policy: string, semantics: Option<seq<Semantic>>, clean: bool)

  ghost predicate PresentOk(now: Present) {
    now.semantics.Some? ==> SemanticsOk(now.semantics.value)
  }

  ghost predicate InputsMatch(h: Hashes, plan: TrackedPlan, now: Present) {
    && now.head == plan.tracking.baseline && now.semantics.Some?
    && h.input(now.policy, SortedInputs(Trackings(now.semantics.value))) == plan.tracking.input
  }

  method ValidatePlanInputs(h: Hashes, plan: TrackedPlan, now: Present) returns (ok: bool)
    requires PresentOk(now)
    ensures ok <==> TrackingValid(h, plan) && InputsMatch(h, plan, now)
  {
    var valid := ValidateTracking(h, plan);
    if !valid || now.head != plan.tracking.baseline || now.semantics.None? {
      return false;
    }
    var snapshot := TakeSnapshot(Trackings(now.semantics.value));
    SnapshotInputs(Trackings(now.semantics.value), snapshot);
    var inputs := SortInputs(snapshot);
    return h.input(now.policy, inputs) == plan.tracking.input;
  }

  // A snapshot has the inputs of its scenarios.
  lemma SnapshotInputs(scenarios: seq<ScenarioTracking>, r: seq<ScenarioTracking>)
    requires NoDup(KeyOfEach(scenarios)) && NoDup(IdOfEach(scenarios)) && IsSnapshot(scenarios, r)
    ensures NoDup(KeyOfEach(r)) && SortedInputs(r) == SortedInputs(scenarios)
  {
    SnapshotIsDistinct(scenarios, r);
    SameScenariosSameInputs(r, scenarios);
    SortedInputsDecide(r, scenarios);
  }

  // The two inputs compared do not share their hash without being equal.
  ghost predicate Distinguished(h: Hashes, plan: TrackedPlan, now: Present) {
    now.semantics.Some? ==>
      var planned, inputs := SortedInputs(plan.tracking.scenarios), SortedInputs(Trackings(now.semantics.value));
      h.input(now.policy, inputs) != h.input(plan.tracking.policy, planned)
      || (now.policy == plan.tracking.policy && inputs == planned)
  }

  // A valid plan is up to date exactly when HEAD, the policy and the set of the scenarios'
  // keys, fingerprints and tasks are those it was compiled from. Their order and their
  // identifiers, which depend on lines, are nothing to it.
  lemma StaleIff(h: Hashes, plan: TrackedPlan, now: Present)
    requires TrackingValid(h, plan) && PresentOk(now) && Distinguished(h, plan, now)
    ensures InputsMatch(h, plan, now) <==>
      && now.head == plan.tracking.baseline && now.semantics.Some? && now.policy == plan.tracking.policy
      && SameInputs(Trackings(now.semantics.value), plan.tracking.scenarios)
  {
    if now.semantics.Some? {
      SortedInputsDecide(Trackings(now.semantics.value), plan.tracking.scenarios);
    }
  }

  // ----------------------------------------------------------- RecordImplementation

  datatype TaskOutcome = TaskOutcome(id: Id, status: Scheduler.Status, commit: Option<Commit>)

  datatype RecordError =
    | InvalidTracking | NothingToRecord | Unsuccessful | InputsChanged | Uncommitted | DifferentBaseline
    | NotIntegrated | NotContained | MissingCommit(id: Id) | NoEvidence

  function OutcomeIds(results: seq<TaskOutcome>): (r: seq<Id>)
    ensures |r| == |results| && forall i :: 0 <= i < |r| ==> r[i] == results[i].id
  {
    seq(|results|, i requires 0 <= i < |results| => results[i].id)
  }

  // Each planned task succeeded, once.
  ghost predicate SuccessfulResult(tasks: seq<Task>, results: seq<TaskOutcome>) {
    && |results| == |tasks| && NoDup(OutcomeIds(results)) && Elems(OutcomeIds(results)) == Elems(IdsOf(tasks))
    && forall i :: 0 <= i < |results| ==> results[i].status == Scheduler.Success
  }

  ghost predicate HasResult(results: seq<TaskOutcome>, id: Id) {
    exists r :: r in results && r.id == id
  }

  ghost predicate HasTask(tasks: seq<Task>, id: Id) {
    exists t :: t in tasks && t.id == id
  }

  // On the results alone: all are successes, of different tasks, and every task has one.
  ghost predicate EachOnce(tasks: seq<Task>, results: seq<TaskOutcome>) {
    && (forall r :: r in results ==> r.status == Scheduler.Success && HasTask(tasks, r.id))
    && (forall i, j :: 0 <= i < j < |results| ==> results[i].id != results[j].id)
    && forall t :: t in tasks ==> HasResult(results, t.id)
  }

  lemma SuccessIsEachOnce(tasks: seq<Task>, results: seq<TaskOutcome>)
    ensures SuccessfulResult(tasks, results) <==> |results| == |tasks| && EachOnce(tasks, results)
  {
    var ids, want := Elems(OutcomeIds(results)), Elems(IdsOf(tasks));
    forall x ensures x in ids <==> HasResult(results, x) { ResultHasId(results, x); }
    forall x ensures x in want <==> HasTask(tasks, x) { TaskHasId(tasks, x); }
    if forall t :: t in tasks ==> HasResult(results, t.id) { assert want <= ids; }
    if forall r :: r in results ==> HasTask(tasks, r.id) { assert ids <= want; }
    if ids == want {
      forall t | t in tasks ensures HasResult(results, t.id) { assert HasTask(tasks, t.id); }
      forall r | r in results ensures HasTask(tasks, r.id) { assert HasResult(results, r.id); }
    }
  }

  lemma ResultHasId(results: seq<TaskOutcome>, x: Id)
    ensures x in Elems(OutcomeIds(results)) <==> HasResult(results, x)
  {
    var ids := OutcomeIds(results);
    if x in ids { var i :| 0 <= i < |ids| && ids[i] == x; assert results[i] in results; }
    if HasResult(results, x) {
      var r :| r in results && r.id == x;
      var i :| 0 <= i < |results| && results[i] == r;
      assert ids[i] == x;
    }
  }

  lemma TaskHasId(tasks: seq<Task>, x: Id)
    ensures x in Elems(IdsOf(tasks)) <==> HasTask(tasks, x)
  {
    var ids := IdsOf(tasks);
    if x in ids { var i :| 0 <= i < |ids| && ids[i] == x; assert tasks[i] in tasks; }
    if HasTask(tasks, x) {
      var t :| t in tasks && t.id == x;
      var i :| 0 <= i < |tasks| && tasks[i] == t;
      assert ids[i] == x;
    }
  }

  // validateSuccessfulResult
  method ValidateSuccessfulResult(tasks: seq<Task>, results: seq<TaskOutcome>) returns (ok: bool)
    ensures ok <==> SuccessfulResult(tasks, results)
    ensures ok <==> |results| == |tasks| && EachOnce(tasks, results)
  {
    SuccessIsEachOnce(tasks, results);
    if |results| != |tasks| {
      return false;
    }
    ok := CheckOutcomes(tasks, results);
  }

  // Its loop, over the tasks without a result so far.
  method CheckOutcomes(tasks: seq<Task>, results: seq<TaskOutcome>) returns (ok: bool)
    requires |results| == |tasks|
    ensures ok <==> SuccessfulResult(tasks, results)
  {
    var all := Elems(IdsOf(tasks));
    var want := all;
    var ids := OutcomeIds(results);
    for i := 0 to |results|
      invariant want == all - Elems(ids[..i]) && NoDup(ids[..i]) && Elems(ids[..i]) <= all
      invariant forall k :: 0 <= k < i ==> results[k].status == Scheduler.Success
    {
      assert ids[..i + 1] == ids[..i] + [ids[i]];
      ElemsSnoc(ids[..i], ids[i]);
      if results[i].id !in want || results[i].status != Scheduler.Success {
        assert ids[i] in Elems(ids);
        assert ids[i] in all ==> ids[i] in ids[..i] || results[i].status != Scheduler.Success;
        return false;
      }
      NoDupSnoc(ids[..i], ids[i]);
      want := want - {results[i].id};
    }
    assert ids[..|ids|] == ids;
    assert want == all - Elems(ids);
    if want == {} {
      forall x | x in all ensures x in Elems(ids) { assert x !in want; }
    }
    return want == {};
  }

  ghost predicate CommitsContained(results: seq<TaskOutcome>, integration: Commit) {
    forall i :: 0 <= i < |results| ==> results[i].commit.Some? && Ancestor(results[i].commit.value, integration)
  }

  // When a result may be recorded.
  ghost predicate Recordable(h: Hashes, plan: TrackedPlan, results: seq<TaskOutcome>, baseline: Commit,
                             integration: Revision, now: Present, files: seq<File>)
  {
    && TrackingValid(h, plan) && !plan.tracking.noOp && plan.tasks != []
    && SuccessfulResult(plan.tasks, results) && InputsMatch(h, plan, now) && now.clean
    && baseline == plan.tracking.baseline && !Blank(integration.text)
    && Ancestor(baseline, integration.commit) && CommitsContained(results, integration.commit)
    && EvidenceAccepts(plan, files, integration.commit)
  }

  function RecordOf(plan: TrackedPlan, integration: Revision): Record {
    Record(REGISTRY_VERSION, plan.tracking.spec.name, plan.tracking.policy, integration.text, integration.commit,
           plan.tracking.scenarios)
  }

  method RecordImplementation(h: Hashes, plan: TrackedPlan, results: seq<TaskOutcome>, baseline: Commit,
                              integration: Revision, now: Present, files: seq<File>)
    returns (r: Result<Record, RecordError>)
    requires PresentOk(now)
    ensures r.Ok? <==> Recordable(h, plan, results, baseline, integration, now, files)
    ensures r.Ok? ==> r.value == RecordOf(plan, integration)
    ensures r.Ok? ==>
      && now.clean && now.head == baseline == plan.tracking.baseline && Ancestor(baseline, integration.commit)
      && plan.tasks != [] && EachOnce(plan.tasks, results)
      && (forall o :: o in results ==> o.commit.Some? && Ancestor(o.commit.value, integration.commit))
      && forall s :: s in plan.tracking.scenarios ==> CarriedOrDone(plan, s)
    ensures r.Ok? ==> r.value == Record(1, plan.tracking.spec.name, plan.tracking.policy, integration.text,
                                        integration.commit, plan.tracking.scenarios)
  {
    SuccessIsEachOnce(plan.tasks, results);
    EvidenceIs(plan, files, integration.commit);
    var problem := CheckResult(h, plan, results, integration, now);
    if problem.Some? {
      return Err(problem.value);
    }
    if !now.clean {
      return Err(Uncommitted);
    }
    if baseline != plan.tracking.baseline {
      return Err(DifferentBaseline);
    }
    if !Ancestor(baseline, integration.commit) {
      return Err(NotContained);
    }
    problem := CheckCommits(results, integration.commit);
    if problem.Some? {
      return Err(problem.value);
    }
    var evident := ValidateCarriedEvidence(plan, files, integration.commit);
    if !evident {
      return Err(NoEvidence);
    }
    return Ok(RecordOf(plan, integration));
  }

  // The checks of the plan, of its results and of the inputs.
  method CheckResult(h: Hashes, plan: TrackedPlan, results: seq<TaskOutcome>, integration: Revision, now: Present)
    returns (problem: Option<RecordError>)
    requires PresentOk(now)
    ensures problem.None? <==>
      && TrackingValid(h, plan) && !plan.tracking.noOp && plan.tasks != [] && !Blank(integration.text)
      && SuccessfulResult(plan.tasks, results) && InputsMatch(h, plan, now)
  {
    var valid := ValidateTracking(h, plan);
    if !valid {
      return Some(InvalidTracking);
    }
    if plan.tracking.noOp || |plan.tasks| == 0 {
      return Some(NothingToRecord);
    }
    if Blank(integration.text) {
      return Some(NotIntegrated);
    }
    var successful := ValidateSuccessfulResult(plan.tasks, results);
    if !successful {
      return Some(Unsuccessful);
    }
    var matching := ValidatePlanInputs(h, plan, now);
    return if matching then None else Some(InputsChanged);
  }

  method CheckCommits(results: seq<TaskOutcome>, integration: Commit) returns (problem: Option<RecordError>)
    ensures problem.None? <==> CommitsContained(results, integration)
  {
    for i := 0 to |results|
      invariant forall k :: 0 <= k < i ==> results[k].commit.Some? && Ancestor(results[k].commit.value, integration)
    {
      if results[i].commit.None? {
        return Some(MissingCommit(results[i].id));
      }
      if !Ancestor(results[i].commit.value, integration) {
        return Some(NotContained);
      }
    }
    problem := None;
  }

  // --------------------------------------------------------- what is published is readable

  lemma SafeWhenAssociated(full: seq<Task>, semantics: seq<Semantic>, s: ScenarioTracking)
    requires FullPlan(full, semantics) && s in Trackings(semantics)
    ensures SafeTasks(s)
  {
    var i :| 0 <= i < |semantics| && Trackings(semantics)[i] == s;
    assert semantics[i] in semantics && Associated(full, semantics[i]);
    forall k | 0 <= k < |s.tasks| ensures SafeName(s.tasks[k]) {
      assert s.tasks[k] in s.tasks;
      var t :| t in full && t.id == s.tasks[k] && HasScenario(t, semantics[i].scenario.id);
    }
  }

  lemma SameTasksSafe(a: seq<ScenarioTracking>, b: seq<ScenarioTracking>)
    requires SameInputs(a, b) && forall s :: s in a ==> SafeTasks(s)
    ensures AllSafe(b)
  {
    forall i | 0 <= i < |b| ensures SafeTasks(b[i]) {
      assert HasInput(b, InputOf(b[i]));
      var s :| s in a && InputOf(s) == InputOf(b[i]);
    }
  }

  // Records are published without checking all that readers will ask of them. That the tasks
  // have safe names, which no check of the plan asks, the comparison with the compiled
  // specification gives; but that the result names its commit in full, nothing does. So a
  // published record can be read exactly when it was named so.
  lemma PublishedIsReadable(h: Hashes, plan: TrackedPlan, results: seq<TaskOutcome>, baseline: Commit,
                            integration: Revision, now: Present, files: seq<File>, full: seq<Task>)
    requires PresentOk(now) && Recordable(h, plan, results, baseline, integration, now, files)
    requires Distinguished(h, plan, now) && FullPlan(full, now.semantics.value)
    ensures RecordOk(RecordOf(plan, integration), plan.tracking.spec.name) <==> ValidObjectId(integration.text)
  {
    var scenarios := Trackings(now.semantics.value);
    StaleIff(h, plan, now);
    forall s | s in scenarios ensures SafeTasks(s) {
      SafeWhenAssociated(full, now.semantics.value, s);
    }
    SameTasksSafe(scenarios, plan.tracking.scenarios);
  }

  // Publishing leaves the registry readable exactly then; otherwise nothing can be planned
  // on it any more.
  lemma RegistryStaysIntact(h: Hashes, plan: TrackedPlan, results: seq<TaskOutcome>, baseline: Commit,
                            integration: Revision, now: Present, files: seq<File>, full: seq<Task>)
    requires PresentOk(now) && Recordable(h, plan, results, baseline, integration, now, files)
    requires Distinguished(h, plan, now) && FullPlan(full, now.semantics.value)
    requires Intact(files, plan.tracking.spec.name)
    ensures Intact(files + [Holds(RecordOf(plan, integration))], plan.tracking.spec.name)
      <==> ValidObjectId(integration.text)
  {
    PublishedIsReadable(h, plan, results, baseline, integration, now, files, full);
    var x := Holds(RecordOf(plan, integration));
    assert x in files + [x];
  }

  // -------------------------------------------------------------- with the recompilation

  // The repository and the specification in it: its policy and the policy's fingerprint, its
  // parsed features and how they are read again, and its tasks.
  datatype Repository = Repository(
    head: Commit, clean: bool, policy: Compiler.Policy, fingerprint: string,
    reading: Reading, features: seq<Compiler.Feature>, specs: seq<Compiler.TaskSpec>)

  ghost predicate RepositoryOk(repo: Repository) {
    && repo.features != [] && (forall f :: f in repo.features ==> f.scenarios != [])
    && NoDup(Compiler.ScenarioIds(Compiler.AllScenarios(repo.features)))
    && ReadingOk(repo.reading, Compiler.AllScenarios(repo.features)) && Located(repo.features)
  }

  // What ValidatePlanInputs finds by compiling the specification again.
  ghost predicate Found(repo: Repository, now: Present, full: seq<Task>) {
    && PresentOk(now) && now.head == repo.head && now.policy == repo.fingerprint && now.clean == repo.clean
    && (now.semantics.Some? <==> Compiler.Compilable(repo.policy, repo.features, repo.specs))
    && (now.semantics.Some? ==>
         && FullPlan(full, now.semantics.value)
         && ReadsWithTasks(repo.reading, Compiler.AllScenarios(repo.features), now.semantics.value))
  }

  method Inspect(repo: Repository) returns (now: Present, ghost full: seq<Task>)
    requires RepositoryOk(repo)
    ensures Found(repo, now, full)
  {
    full := [];
    var compiled := BuildFullTracking(repo.policy, repo.reading, repo.features, repo.specs);
    match compiled
    case Err(_) =>
      now := Present(repo.head, repo.fingerprint, None, repo.clean);
    case Ok(tracked) =>
      full := tracked.0;
      now := Present(repo.head, repo.fingerprint, Some(tracked.1), repo.clean);
  }

  // RecordImplementation in a repository: the specification is compiled again and compared.
  method RecordIn(h: Hashes, plan: TrackedPlan, results: seq<TaskOutcome>, baseline: Commit, integration: Revision,
                  repo: Repository, files: seq<File>)
    returns (r: Result<Record, RecordError>, ghost now: Present, ghost full: seq<Task>)
    requires RepositoryOk(repo)
    ensures Found(repo, now, full)
    ensures r.Ok? <==> Recordable(h, plan, results, baseline, integration, now, files)
    ensures r.Ok? ==> r.value == RecordOf(plan, integration)
    ensures r.Ok? && Distinguished(h, plan, now) ==>
      (RecordOk(r.value, plan.tracking.spec.name) <==> ValidObjectId(integration.text))
  {
    var present;
    present, full := Inspect(repo);
    now := present;
    r := RecordImplementation(h, plan, results, baseline, integration, present, files);
    if r.Ok? && Distinguished(h, plan, now) {
      PublishedIsReadable(h, plan, results, baseline, integration, now, files, full);
    }
  }
}
