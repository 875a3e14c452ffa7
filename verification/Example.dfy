// A small specification that meets every assumption of the tracking chain: one task, and a
// feature with two scenarios of the same name, which only their numbers tell apart.
module Example {
  import opened Ids
  import opened Texts
  import opened Types
  import opened Git
  import opened Snapshots
  import opened Metadata
  import opened Semantics
  import opened Registry
  import opened Tracking
  import opened Incremental
  import opened Recording
  import opened Acceptance
  import Compiler
  import Planner
  import Scheduler

  // 64 times the same digit.
  function Digits(c: char): (s: string)
    ensures |s| == 64 && forall i :: 0 <= i < 64 ==> s[i] == c
  {
    seq(64, _ => c)
  }

  function Texting(): Hashes {
    Hashes((policy: string, inputs: seq<Input>) => Digits('a'), (tasks: seq<Task>) => Digits('b'),
           (path: string) => "/w.yaml", (path: string) => Digits('c'))
  }

  // Scenarios on these lines.
  function Scenarios(first: string, second: string): seq<Scenario> {
    [Scenario(first, "a.feature", "one", ["Given x"]), Scenario(second, "a.feature", "one", ["Given x"])]
  }

  function Features(first: string, second: string): seq<Compiler.Feature> {
    [Compiler.Feature("a.feature", Scenarios(first, second))]
  }

  // The names are the same, so the key is by the number.
  function Numbering(): Reading {
    Reading((c: Scenario) => c.uri, (base: string, n: nat) => Digits(if n == 1 then '1' else '2'),
            (c: Scenario) => Digits('f'))
  }

  function Defaults(): Compiler.Policy {
    Compiler.Policy("", "", (s: string) => false, (s: string, uri: string) => Some(true))
  }

  function Specs(): seq<Compiler.TaskSpec> {
    [Compiler.TaskSpec("build", [], [], 1, true, Work(["make"], "", "", "", 0, NoTimeout))]
  }

  lemma TextingIsOk()
    ensures HashesOk(Texting()) && ScopeOk(Texting(), Scope("repo:w.yaml", "")) && ValidHash(Digits('d'))
  {
    assert "repo:w.yaml"[0] == 'r' && EXTERNAL[0] == 'e';
    assert "repo:w.yaml"[..5] == REPO;
  }

  lemma FeaturesAre(first: string, second: string)
    ensures Compiler.AllScenarios(Features(first, second)) == Scenarios(first, second)
  {
    var features := Features(first, second);
    assert features[..0] == [];
  }

  // Readings as ReadingOk asks for them do exist.
  lemma NumberingIsOk(first: string, second: string)
    requires first != second && !Blank(first) && !Blank(second)
    ensures var all := Compiler.AllScenarios(Features(first, second));
      ReadingOk(Numbering(), all) && NoDup(Compiler.ScenarioIds(all)) && all != []
    ensures Located(Features(first, second))
  {
    FeaturesAre(first, second);
    NumbersTellApart(Scenarios(first, second));
    LinesTellApart(first, second);
    ItsOwnUri(Features(first, second)[0], first, second);
  }

  lemma LinesTellApart(first: string, second: string)
    requires first != second
    ensures NoDup(Compiler.ScenarioIds(Scenarios(first, second)))
  {
    assert Compiler.ScenarioIds(Scenarios(first, second)) == [first, second];
  }

  lemma ItsOwnUri(f: Compiler.Feature, first: string, second: string)
    requires f == Features(first, second)[0] && !Blank(first) && !Blank(second)
    ensures forall c :: c in f.scenarios ==> c.uri == f.uri && !Blank(c.id)
  {
  }

  lemma NumbersTellApart(scenarios: seq<Scenario>)
    requires |scenarios| == 2 && forall c :: c in scenarios ==> c.uri == "a.feature"
    ensures ReadingOk(Numbering(), scenarios)
  {
    var r := Numbering();
    forall c, n: nat | c in scenarios && 1 <= n <= 2 ensures ValidHash(r.key(r.identity(c), n)) {
      DigitsAreHash(if n == 1 then '1' else '2');
    }
    forall c | c in scenarios ensures ValidHash(r.fingerprint(c)) {
      DigitsAreHash('f');
    }
    forall c, d, m: nat, n: nat | (c in scenarios && d in scenarios && 1 <= m <= 2 && 1 <= n <= 2
        && r.key(r.identity(c), m) == r.key(r.identity(d), n))
      ensures r.identity(c) == r.identity(d) && m == n
    {
      DigitsDiffer(m, n);
    }
  }

  lemma DigitsAreHash(c: char)
    requires IsHexDigit(c)
    ensures ValidHash(Digits(c))
  {
  }

  lemma DigitsDiffer(m: nat, n: nat)
    requires 1 <= m <= 2 && 1 <= n <= 2
    requires Digits(if m == 1 then '1' else '2') == Digits(if n == 1 then '1' else '2')
    ensures m == n
  {
    assert Digits(if m == 1 then '1' else '2')[0] == Digits(if n == 1 then '1' else '2')[0];
  }

  // ------------------------------------------------------------------ it compiles

  lemma SpecsCompile(first: string, second: string)
    ensures Compiler.Compilable(Defaults(), Features(first, second), Specs())
    ensures Planner.Greedy(Compiler.SpecGraph(Specs()), {}) == ["build"]
  {
    var g := Compiler.SpecGraph(Specs());
    Compiler.SpecGraphAt(Specs(), 0);
    assert forall id :: id in g <==> id == "build";
    Planner.NothingNeeded(g);
    Planner.PlannedOrderIsLeast(g);
    OnlyBuild(Planner.Greedy(g, {}));
    SpecIsOk(first, second);
    AllAssigned(first, second);
  }

  lemma OnlyBuild(ids: seq<Id>)
    requires NoDup(ids) && forall id :: id in ids <==> id == "build"
    ensures ids == ["build"]
  {
    NoDupCardinality(ids);
    assert "build" in ids;
    assert Elems(ids) == {"build"};
    assert ids[0] in ids;
  }

  lemma SpecIsOk(first: string, second: string)
    ensures Compiler.SpecOk(Defaults(), Features(first, second), Specs()[0])
  {
    var runes := Runes("build");
    assert "build"[0] == 'b' && "build"[1] == 'u' && "build"[2] == 'i' && "build"[3] == 'l' && "build"[4] == 'd';
    assert SafeRunes(runes);
    assert !IsSpace("make"[0] as nat) && !Blank("make");
    Compiler.ChosenAll(Defaults(), Features(first, second));
  }

  lemma AllAssigned(first: string, second: string)
    ensures forall s :: s in Compiler.AllScenarios(Features(first, second)) ==>
      Compiler.AssignedBySpec(Defaults(), Features(first, second), Specs(), s.id)
  {
    var features := Features(first, second);
    var all := Compiler.AllScenarios(features);
    Compiler.ChosenAll(Defaults(), features);
    forall s | s in all ensures Compiler.AssignedBySpec(Defaults(), features, Specs(), s.id) {
      var i :| 0 <= i < |all| && all[i] == s;
      assert Compiler.ScenarioIds(all)[i] == s.id;
      var chosen := Compiler.Chosen(Defaults(), Specs()[0].selectors, features);
      assert s.id in Compiler.ScenarioIds(Compiler.AllScenarios(chosen));
    }
  }

  // Compile, and read the scenarios with these identifiers.
  method Compile(first: string, second: string) returns (full: seq<Task>, semantics: seq<Semantic>)
    requires first != second && !Blank(first) && !Blank(second)
    ensures FullPlan(full, semantics) && IdsOf(full) == ["build"]
    ensures ReadsWithTasks(Numbering(), Scenarios(first, second), semantics)
  {
    NumberingIsOk(first, second);
    SpecsCompile(first, second);
    FeaturesAre(first, second);
    var compiled := BuildFullTracking(Defaults(), Numbering(), Features(first, second), Specs());
    full, semantics := compiled.value.0, compiled.value.1;
  }

  // ---------------------------------------------------------------- the round trip

  // The one task is planned, as nothing was recorded yet.
  lemma EverythingIsPlanned(full: seq<Task>, semantics: seq<Semantic>, spec: Scope, policy: string, head: Commit,
                            plan: TrackedPlan, c: Choice)
    requires FullPlan(full, semantics) && IdsOf(full) == ["build"]
    requires IsIncremental(Texting(), full, semantics, spec, policy, head, [], plan, c)
    ensures !plan.tracking.noOp && IdsOf(plan.tasks) == ["build"]
  {
    NoOpIffRecorded(Texting(), full, semantics, spec, policy, head, [], plan, c);
    IncrementalGraphIsValid(Texting(), full, semantics, spec, policy, head, [], plan, c);
    ProjectedPlanIsValid(full, semantics, plan, c);
    KeptFromBuild(full, semantics, plan, c);
    assert IdsOf(plan.tasks)[0] in IdsOf(plan.tasks);
    OnlyBuild(IdsOf(plan.tasks));
  }

  lemma KeptFromBuild(full: seq<Task>, semantics: seq<Semantic>, plan: TrackedPlan, c: Choice)
    requires IdsOf(full) == ["build"]
    requires ProjectsAll(GraphOf(full), full, semantics, c.changed, c.affected, plan.tasks, plan.tracking.tasks,
                         c.origin)
    ensures forall id :: id in IdsOf(plan.tasks) ==> id == "build"
  {
    forall j | 0 <= j < |plan.tasks| ensures plan.tasks[j].id == "build" {
      assert Projects(GraphOf(full), semantics, c.changed, c.affected, full[c.origin[j]], plan.tasks[j],
                      plan.tracking.tasks[j]);
      assert IdsOf(full)[c.origin[j]] == "build";
    }
  }

  const BASE := Commit([], "base")
  const MADE := Commit([BASE], "made")

  function FullName(): string {
    seq(40, _ => 'e')
  }

  lemma MadeIsLater()
    ensures Ancestor(BASE, MADE) && Ancestor(MADE, MADE)
  {
    assert BASE in MADE.parents && Ancestor(BASE, BASE);
  }

  // Compile, record a successful run, merge and compile again, with an integration named so.
  method RunRoundTrip(text: string) returns (record: Result<Record, RecordError>, again: Option<TrackedPlan>)
    requires !Blank(text)
    ensures record.Ok? && (again.Some? <==> ValidObjectId(text))
    ensures again.Some? ==> again.value.tracking.noOp
  {
    var full, semantics := Compile("scenario-3", "scenario-7");
    TextingIsOk();
    MadeIsLater();
    var results := [TaskOutcome("build", Scheduler.Success, Some(MADE))];
    var plan;
    ghost var c;
    plan, record, again, c := PlanRecordReplan(Texting(), full, semantics, Scope("repo:w.yaml", ""), Digits('d'), BASE,
                                               [], results, Revision(text, MADE), MADE);
    EverythingIsPlanned(full, semantics, Scope("repo:w.yaml", ""), Digits('d'), BASE, plan, c);
    BuildSucceeded(plan.tasks, results);
  }

  lemma BuildSucceeded(tasks: seq<Task>, results: seq<TaskOutcome>)
    requires IdsOf(tasks) == ["build"] && results == [TaskOutcome("build", Scheduler.Success, Some(MADE))]
    ensures SuccessfulResult(tasks, results)
  {
    assert OutcomeIds(results) == ["build"];
  }

  // With the full name of its commit, as git reports it, the trip ends with nothing to do.
  method RunNamedInFull() returns (record: Result<Record, RecordError>, again: Option<TrackedPlan>)
    ensures record.Ok? && again.Some? && again.value.tracking.noOp
  {
    assert ValidObjectId(FullName());
    ObjectIdIsNotBlank(FullName());
    record, again := RunRoundTrip(FullName());
  }

  // With an abbreviated one the record is published all the same, and nothing can be compiled
  // in this scope any more.
  method RunAbbreviated() returns (record: Result<Record, RecordError>, again: Option<TrackedPlan>)
    ensures record.Ok? && again.None?
  {
    assert !IsSpace("eeeeeee"[0] as nat);
    record, again := RunRoundTrip("eeeeeee");
  }

  // ---------------------------------------------------------------- moved scenarios

  lemma TasksAre(full: seq<Task>, semantics: seq<Semantic>, s: Semantic)
    requires FullPlan(full, semantics) && IdsOf(full) == ["build"] && s in semantics
    ensures s.tracking.tasks == ["build"]
  {
    assert Associated(full, s);
    AscendingIsDistinct(Elems(s.tracking.tasks));
    forall x | x in s.tracking.tasks ensures x == "build" {
      CarrierIsBuild(full, x, s.scenario.id);
    }
    assert s.tracking.tasks[0] in s.tracking.tasks;
    OnlyBuild(s.tracking.tasks);
  }

  lemma CarrierIsBuild(full: seq<Task>, x: Id, id: string)
    requires IdsOf(full) == ["build"] && Carries(full, x, id)
    ensures x == "build"
  {
    var t :| t in full && t.id == x;
    var i :| 0 <= i < |full| && full[i] == t;
    assert IdsOf(full)[i] == x;
  }

  // What is read does not depend on the lines but for the identifier.
  lemma ReadAt(first: string, second: string, full: seq<Task>, semantics: seq<Semantic>, k: nat)
    requires FullPlan(full, semantics) && IdsOf(full) == ["build"] && k < 2
    requires ReadsWithTasks(Numbering(), Scenarios(first, second), semantics)
    ensures |semantics| == 2
    ensures semantics[k].tracking
      == ScenarioTracking(Digits(if k == 0 then '1' else '2'), Scenarios(first, second)[k].id, Digits('f'), ["build"])
  {
    var all := Scenarios(first, second);
    var before :| ReadsAs(Numbering(), all, before) && SameScenarios(before, semantics);
    assert before[k] == SemanticAt(Numbering(), all, k);
    assert all[..1] == [all[0]] && all[..1][..0] == [];
    assert all[..2] == all && all[..2][..1] == all[..1];
    assert Occurrences(Numbering(), all[..1], "a.feature") == 1;
    assert Occurrences(Numbering(), all[..2], "a.feature") == 2;
    TasksAre(full, semantics, semantics[k]);
  }

  // A blank line above both scenarios changes their identifiers, and the plan stays valid.
  method RunMoved() returns (ok: bool)
    ensures ok
  {
    var full, semantics := Compile("scenario-3", "scenario-7");
    var full', moved := Compile("scenario-4", "scenario-8");
    TextingIsOk();
    forall k | 0 <= k < 2
      ensures |semantics| == 2 && |moved| == 2
      ensures moved[k].tracking == semantics[k].tracking.(id := moved[k].tracking.id)
    {
      ReadAt("scenario-3", "scenario-7", full, semantics, k);
      ReadAt("scenario-4", "scenario-8", full', moved, k);
    }
    ReadAt("scenario-3", "scenario-7", full, semantics, 0);
    ReadAt("scenario-4", "scenario-8", full', moved, 0);
    assert Moved(semantics, moved);
    var plan;
    plan, ok := ValidateMoved(Texting(), full, semantics, Scope("repo:w.yaml", ""), Digits('d'), BASE, moved);
  }
}
