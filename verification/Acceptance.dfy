// workflow/incremental.go: why tracked plans are accepted. ValidateTracking and
// validateCarriedEvidence agree with CompileIncremental and CompileFull, and a recorded
// plan compiles to a no-op.
module Acceptance {
  import opened Ids
  import opened Graph
  import opened Texts
  import opened Types
  import opened Git
  import opened Snapshots
  import opened Metadata
  import opened Semantics
  import opened Registry
  import opened Closures
  import opened Tracking
  import opened Incremental
  import opened Evidence
  import opened Recording
  import Compiler
  import Validator

  // ------------------------------------------------------------- ValidateTracking

  lemma ScenariosAreOk(full: seq<Task>, semantics: seq<Semantic>, r: seq<ScenarioTracking>)
    requires FullPlan(full, semantics) && IsSnapshot(Trackings(semantics), r)
    ensures ScenariosOk(r)
  {
    SnapshotIsDistinct(Trackings(semantics), r);
    forall i | 0 <= i < |r| ensures ScenarioOk(r[i]) {
      assert r[i] in r;
      ScenarioIsOk(full, semantics, r[i]);
    }
  }

  lemma ScenarioIsOk(full: seq<Task>, semantics: seq<Semantic>, s: ScenarioTracking)
    requires FullPlan(full, semantics) && s in Trackings(semantics)
    ensures ScenarioOk(s)
  {
    var i :| 0 <= i < |semantics| && Trackings(semantics)[i] == s;
    assert semantics[i] in semantics && SemanticOk(semantics[i]) && Associated(full, semantics[i]);
    AscendingIsDistinct(Elems(s.tasks));
    SafeWhenAssociated(full, semantics, s);
    forall k | 0 <= k < |s.tasks| ensures !Blank(s.tasks[k]) {
      SafeIsNotBlank(s.tasks[k]);
    }
  }

  lemma TargetIsOk(semantics: seq<Semantic>, r: seq<ScenarioTracking>, s: Semantic)
    requires SemanticsOk(semantics) && IsSnapshot(Trackings(semantics), r) && s in semantics
    ensures TargetOk(r, s.tracking.key, s.scenario)
  {
    var i :| 0 <= i < |semantics| && semantics[i] == s;
    assert Trackings(semantics)[i] == s.tracking && s.tracking in r;
    var j :| 0 <= j < |r| && r[j] == s.tracking;
    assert SemanticOk(s);
  }

  // Affected tasks, and only they, have targets.
  lemma TargetsIffAffected(full: seq<Task>, semantics: seq<Semantic>, changed: set<Key>, affected: set<Id>, k: nat)
    requires NoDup(IdsOf(full)) && AffectedIs(full, semantics, changed, affected) && k < |full|
    ensures full[k].id in affected <==> Targets(semantics, changed, full[k].scenarios) != []
  {
    assert full[k] in full;
    if full[k].id in affected {
      var t :| t in full && t.id == full[k].id && IsAffected(semantics, changed, t);
      var j :| 0 <= j < |full| && full[j] == t;
      assert IdsOf(full)[j] == IdsOf(full)[k];
    }
  }

  // One task of an incremental plan, on the full plan and the scenarios alone: it keeps its name,
  // its needs, its attempts and its work, has those of its scenarios that changed with their keys,
  // and is there for these, or to verify what depends on a change, or because it is needed.
  ghost predicate KeptIs(full: seq<Task>, semantics: seq<Semantic>, changed: set<Key>, t: Task, kept: Task,
                         e: IncrementalTask)
  {
    && kept.id == t.id == e.id && kept.needs == t.needs && kept.attempts == t.attempts && kept.work == t.work
    && |e.keys| == |kept.scenarios|
    && (forall i :: 0 <= i < |e.keys| ==> ChangedAs(semantics, changed, e.keys[i], kept.scenarios[i]))
    && (forall s :: s in semantics && s.tracking.key in changed && HasScenario(t, s.scenario.id) ==>
         s.scenario in kept.scenarios && s.tracking.key in e.keys)
    && (e.reason == Changed <==> kept.scenarios != [])
    && (e.reason == Verification <==>
         kept.scenarios == [] && exists a :: HasChanges(full, semantics, changed, a) && Reaches(GraphOf(full), t.id, a))
  }

  ghost predicate ChangedAs(semantics: seq<Semantic>, changed: set<Key>, key: Key, scenario: Scenario) {
    key in changed && exists s :: s in semantics && s.tracking.key == key && s.scenario == scenario
  }

  ghost predicate HasChanges(full: seq<Task>, semantics: seq<Semantic>, changed: set<Key>, a: Id) {
    exists t, s ::
      t in full && t.id == a && s in semantics && s.tracking.key in changed && HasScenario(t, s.scenario.id)
  }

  lemma AffectedHasChanges(full: seq<Task>, semantics: seq<Semantic>, changed: set<Key>, affected: set<Id>, a: Id)
    requires SemanticsOk(semantics) && AffectedIs(full, semantics, changed, affected)
    ensures a in affected <==> HasChanges(full, semantics, changed, a)
  {
    if a in affected {
      var t :| t in full && t.id == a && IsAffected(semantics, changed, t);
      TargetsAre(semantics, changed, t.scenarios);
      assert Targets(semantics, changed, t.scenarios)[0] in Targets(semantics, changed, t.scenarios);
    }
    if HasChanges(full, semantics, changed, a) {
      var t, s :|
        t in full && t.id == a && s in semantics && s.tracking.key in changed && HasScenario(t, s.scenario.id);
      TargetsAre(semantics, changed, t.scenarios);
      assert s in Targets(semantics, changed, t.scenarios);
    }
  }

  lemma KeptTaskIs(full: seq<Task>, semantics: seq<Semantic>, plan: TrackedPlan, c: Choice, j: nat)
    requires FullPlan(full, semantics) && AffectedIs(full, semantics, c.changed, c.affected)
    requires ProjectsAll(GraphOf(full), full, semantics, c.changed, c.affected, plan.tasks, plan.tracking.tasks,
                         c.origin)
    requires j < |plan.tasks|
    ensures KeptIs(full, semantics, c.changed, full[c.origin[j]], plan.tasks[j], plan.tracking.tasks[j])
  {
    var t, e, kept := full[c.origin[j]], plan.tracking.tasks[j], plan.tasks[j];
    assert Projects(GraphOf(full), semantics, c.changed, c.affected, t, kept, e);
    TargetsIffAffected(full, semantics, c.changed, c.affected, c.origin[j]);
    ChangesAre(semantics, c.changed, t);
    ReasonIs(full, semantics, c.changed, c.affected, t.id, e.reason);
  }

  // The targets of a task are its changed scenarios, each with its key.
  lemma ChangesAre(semantics: seq<Semantic>, changed: set<Key>, t: Task)
    requires SemanticsOk(semantics)
    ensures var targets := Targets(semantics, changed, t.scenarios);
      && (forall i {:trigger KeysOf(targets)[i]} {:trigger ScenariosOf(targets)[i]} :: 0 <= i < |targets| ==>
           ChangedAs(semantics, changed, KeysOf(targets)[i], ScenariosOf(targets)[i]))
      && forall s :: s in semantics && s.tracking.key in changed && HasScenario(t, s.scenario.id) ==>
           s.scenario in ScenariosOf(targets) && s.tracking.key in KeysOf(targets)
  {
    TargetsAre(semantics, changed, t.scenarios);
    var targets := Targets(semantics, changed, t.scenarios);
    forall i | 0 <= i < |targets| ensures ChangedAs(semantics, changed, KeysOf(targets)[i], ScenariosOf(targets)[i]) {
      assert targets[i] in targets;
    }
    forall s | s in semantics && s.tracking.key in changed && HasScenario(t, s.scenario.id)
      ensures s.scenario in ScenariosOf(targets) && s.tracking.key in KeysOf(targets)
    {
      var i :| 0 <= i < |targets| && targets[i] == s;
      assert ScenariosOf(targets)[i] == s.scenario && KeysOf(targets)[i] == s.tracking.key;
    }
  }

  lemma ReasonIs(full: seq<Task>, semantics: seq<Semantic>, changed: set<Key>, affected: set<Id>, id: Id,
                 reason: Reason)
    requires SemanticsOk(semantics) && AffectedIs(full, semantics, changed, affected)
    requires reason == ReasonFor(GraphOf(full), affected, id)
    ensures reason == Changed <==> id in affected
    ensures reason == Verification <==>
      id !in affected && exists a :: HasChanges(full, semantics, changed, a) && Reaches(GraphOf(full), id, a)
  {
    forall a ensures a in affected <==> HasChanges(full, semantics, changed, a) {
      AffectedHasChanges(full, semantics, changed, affected, a);
    }
  }

  lemma ProjectedEntryOk(full: seq<Task>, semantics: seq<Semantic>, plan: TrackedPlan, c: Choice, j: nat)
    requires FullPlan(full, semantics) && AffectedIs(full, semantics, c.changed, c.affected)
    requires IsSnapshot(Trackings(semantics), plan.tracking.scenarios)
    requires ProjectsAll(GraphOf(full), full, semantics, c.changed, c.affected, plan.tasks, plan.tracking.tasks,
                         c.origin)
    requires NoDup(IdsOf(plan.tasks)) && j < |plan.tasks|
    ensures EntryOk(plan, plan.tracking.tasks[j])
  {
    var t := full[c.origin[j]];
    assert Projects(GraphOf(full), semantics, c.changed, c.affected, t, plan.tasks[j], plan.tracking.tasks[j]);
    Validator.ByIdLooksUp(plan.tasks, j);
    TargetsIffAffected(full, semantics, c.changed, c.affected, c.origin[j]);
    ProjectionOk(GraphOf(full), semantics, plan, c.changed, c.affected, t, j);
  }

  lemma ProjectionOk(g: Needs, semantics: seq<Semantic>, plan: TrackedPlan, changed: set<Key>, affected: set<Id>,
                     t: Task, j: nat)
    requires SemanticsOk(semantics) && IsSnapshot(Trackings(semantics), plan.tracking.scenarios)
    requires j < |plan.tasks| == |plan.tracking.tasks|
    requires Projects(g, semantics, changed, affected, t, plan.tasks[j], plan.tracking.tasks[j])
    requires t.id in Validator.ById(plan.tasks) && Validator.ById(plan.tasks)[t.id] == plan.tasks[j]
    requires t.id in affected <==> Targets(semantics, changed, t.scenarios) != []
    ensures EntryOk(plan, plan.tracking.tasks[j])
  {
    TargetsAreOk(semantics, plan.tracking.scenarios, changed, t.scenarios);
  }

  lemma TargetsAreOk(semantics: seq<Semantic>, scenarios: seq<ScenarioTracking>, changed: set<Key>,
                     within: seq<Scenario>)
    requires SemanticsOk(semantics) && IsSnapshot(Trackings(semantics), scenarios)
    ensures var targets := Targets(semantics, changed, within);
      forall i {:trigger KeysOf(targets)[i]} {:trigger ScenariosOf(targets)[i]} :: 0 <= i < |targets| ==>
        TargetOk(scenarios, KeysOf(targets)[i], ScenariosOf(targets)[i])
  {
    var targets := Targets(semantics, changed, within);
    TargetsAre(semantics, changed, within);
    forall i | 0 <= i < |targets| ensures TargetOk(scenarios, KeysOf(targets)[i], ScenariosOf(targets)[i]) {
      assert targets[i] in targets;
      TargetIsOk(semantics, scenarios, targets[i]);
    }
  }

  // A changed scenario belongs to a task, so a plan that is not a no-op has tasks.
  lemma SomethingKept(full: seq<Task>, semantics: seq<Semantic>, changed: set<Key>, affected: set<Id>, key: Key)
    returns (k: nat)
    requires FullPlan(full, semantics) && AffectedIs(full, semantics, changed, affected)
    requires key in changed && exists s :: s in semantics && s.tracking.key == key
    ensures k < |full| && full[k].id in affected && Kept(GraphOf(full), affected, full[k].id)
  {
    var s :| s in semantics && s.tracking.key == key;
    var task := s.tracking.tasks[0];
    assert Associated(full, s) && task in s.tracking.tasks;
    k := CarrierIsAffected(full, semantics, changed, affected, s, task);
    ReachesSelf(GraphOf(full), full[k].id);
  }

  // Every task that carries a changed scenario is affected and has it as a target.
  lemma CarrierIsAffected(full: seq<Task>, semantics: seq<Semantic>, changed: set<Key>, affected: set<Id>, s: Semantic,
                          task: Id)
    returns (k: nat)
    requires FullPlan(full, semantics) && AffectedIs(full, semantics, changed, affected)
    requires s in semantics && s.tracking.key in changed && task in s.tracking.tasks
    ensures k < |full| && full[k].id == task && task in affected
    ensures s in Targets(semantics, changed, full[k].scenarios)
  {
    assert Associated(full, s) && Carries(full, task, s.scenario.id);
    var t :| t in full && t.id == task && HasScenario(t, s.scenario.id);
    k :| 0 <= k < |full| && full[k] == t;
    TargetsAre(semantics, changed, t.scenarios);
    TargetsIffAffected(full, semantics, changed, affected, k);
  }

  // Every plan that CompileIncremental returns passes ValidateTracking.
  lemma IncrementalIsValid(h: Hashes, full: seq<Task>, semantics: seq<Semantic>, spec: Scope, policy: string,
                           head: Commit, listing: seq<Record>, plan: TrackedPlan, c: Choice)
    requires HashesOk(h) && ScopeOk(h, spec) && ValidHash(policy) && FullPlan(full, semantics)
    requires IsIncremental(h, full, semantics, spec, policy, head, listing, plan, c)
    ensures TrackingValid(h, plan)
  {
    ScenariosAreOk(full, semantics, plan.tracking.scenarios);
    if !plan.tracking.noOp {
      ProjectedPlanIsValid(full, semantics, plan, c);
    }
  }

  lemma ProjectedPlanIsValid(full: seq<Task>, semantics: seq<Semantic>, plan: TrackedPlan, c: Choice)
    requires FullPlan(full, semantics) && AffectedIs(full, semantics, c.changed, c.affected)
    requires IsSnapshot(Trackings(semantics), plan.tracking.scenarios)
    requires ProjectsAll(GraphOf(full), full, semantics, c.changed, c.affected, plan.tasks, plan.tracking.tasks,
                         c.origin)
    requires forall k: nat :: k < |full| ==> (k in c.origin <==> Kept(GraphOf(full), c.affected, full[k].id))
    requires c.changed != {} && forall key :: key in c.changed ==> exists s :: s in semantics && s.tracking.key == key
    ensures plan.tasks != [] && |plan.tracking.tasks| == |plan.tasks|
    ensures NoDup(EntryIds(plan.tracking.tasks)) && EntriesOk(plan, |plan.tracking.tasks|)
  {
    var key :| key in c.changed;
    var k := SomethingKept(full, semantics, c.changed, c.affected, key);
    assert k in c.origin;
    ProjectionKeeps(full, semantics, plan, c);
    KeptIdsDistinct(full, c.affected, plan.tasks, c.origin);
    EntriesNameTasks(full, semantics, plan, c);
    forall j | 0 <= j < |plan.tracking.tasks| ensures EntryOk(plan, plan.tracking.tasks[j]) {
      ProjectedEntryOk(full, semantics, plan, c, j);
    }
  }

  lemma EntriesNameTasks(full: seq<Task>, semantics: seq<Semantic>, plan: TrackedPlan, c: Choice)
    requires ProjectsAll(GraphOf(full), full, semantics, c.changed, c.affected, plan.tasks, plan.tracking.tasks,
                         c.origin)
    ensures EntryIds(plan.tracking.tasks) == IdsOf(plan.tasks)
  {
    forall j | 0 <= j < |plan.tasks| ensures EntryIds(plan.tracking.tasks)[j] == IdsOf(plan.tasks)[j] {
      assert Projects(GraphOf(full), semantics, c.changed, c.affected, full[c.origin[j]], plan.tasks[j],
                      plan.tracking.tasks[j]);
    }
  }

  // So does every plan of CompileFull.
  lemma FullIsValid(h: Hashes, full: seq<Task>, semantics: seq<Semantic>, spec: Scope, policy: string, head: Commit,
                    plan: TrackedPlan)
    requires HashesOk(h) && ScopeOk(h, spec) && ValidHash(policy) && FullPlan(full, semantics)
    requires IsFull(h, full, semantics, spec, policy, head, plan)
    ensures TrackingValid(h, plan)
  {
    ScenariosAreOk(full, semantics, plan.tracking.scenarios);
    FullEntryIds(full, semantics, plan.tracking.tasks);
    SomeTask(full, semantics);
    FullEntriesOk(full, semantics, plan);
  }

  lemma FullEntryIds(full: seq<Task>, semantics: seq<Semantic>, entries: seq<IncrementalTask>)
    requires FullEntries(full, semantics, entries)
    ensures EntryIds(entries) == IdsOf(full)
  {
    forall j | 0 <= j < |full| ensures EntryIds(entries)[j] == IdsOf(full)[j] {
      assert entries[j] == FullEntry(semantics, full[j]);
    }
  }

  lemma FullEntriesOk(full: seq<Task>, semantics: seq<Semantic>, plan: TrackedPlan)
    requires FullPlan(full, semantics) && plan.tasks == full && FullEntries(full, semantics, plan.tracking.tasks)
    requires IsSnapshot(Trackings(semantics), plan.tracking.scenarios)
    ensures EntriesOk(plan, |plan.tracking.tasks|)
  {
    forall j | 0 <= j < |full| ensures EntryOk(plan, plan.tracking.tasks[j]) {
      assert plan.tracking.tasks[j] == FullEntry(semantics, full[j]);
      FullEntryOk(full, semantics, plan, j);
    }
  }

  lemma FullEntryOk(full: seq<Task>, semantics: seq<Semantic>, plan: TrackedPlan, j: nat)
    requires FullPlan(full, semantics) && plan.tasks == full && j < |full|
    requires IsSnapshot(Trackings(semantics), plan.tracking.scenarios)
    ensures EntryOk(plan, FullEntry(semantics, full[j]))
  {
    Validator.ByIdLooksUp(full, j);
    var t := full[j];
    assert t in full;
    forall i | 0 <= i < |t.scenarios|
      ensures TargetOk(plan.tracking.scenarios, KeysFor(semantics, t.scenarios)[i], t.scenarios[i])
    {
      FullTargetOk(full, semantics, plan.tracking.scenarios, t, t.scenarios[i]);
    }
  }

  lemma FullTargetOk(full: seq<Task>, semantics: seq<Semantic>, r: seq<ScenarioTracking>, t: Task, c: Scenario)
    requires FullPlan(full, semantics) && IsSnapshot(Trackings(semantics), r) && t in full && c in t.scenarios
    ensures TargetOk(r, KeyFor(semantics, c.id), c)
  {
    assert Tracked(semantics, c.id);
    FindIs(semantics, c.id);
    TargetIsOk(semantics, r, Find(semantics, c.id).value);
  }

  lemma SomeTask(full: seq<Task>, semantics: seq<Semantic>)
    requires FullPlan(full, semantics)
    ensures full != []
  {
    var s := semantics[0];
    assert s in semantics && Associated(full, s) && s.tracking.tasks[0] in s.tracking.tasks;
    assert Carries(full, s.tracking.tasks[0], s.scenario.id);
  }

  // ------------------------------------------------------ validateCarriedEvidence

  lemma {:induction false} EvidenceOfPrevious(scenarios: seq<ScenarioTracking>, start: map<Key, string>, key: Key)
    requires key in Previous(scenarios)
    ensures key in ScenarioEvidence(scenarios, start)
    ensures ScenarioEvidence(scenarios, start)[key] == Previous(scenarios)[key].fingerprint
  {
    if key != scenarios[|scenarios| - 1].key {
      EvidenceOfPrevious(scenarios[..|scenarios| - 1], start, key);
    }
  }

  // An unchanged scenario is carried by the single base record.
  lemma UnchangedIsCarried(plan: TrackedPlan, s: ScenarioTracking)
    requires Unchanged(plan.tracking.policy, plan.tracking.baseRecords, s)
    ensures Carried(plan, s)
  {
    var base := plan.tracking.baseRecords[0];
    assert plan.tracking.baseRecords == [base] && plan.tracking.baseRecords[..0] == [];
    EvidenceOfPrevious(base.scenarios, map[], s.key);
  }

  // The registry still holds the base records, intact, when the result is recorded.
  ghost predicate BasesReadable(plan: TrackedPlan, files: seq<File>) {
    forall r :: r in plan.tracking.baseRecords ==> Holds(r) in files && RecordOk(r, plan.tracking.spec.name)
  }

  // It did when the plan was compiled, so it does if nothing is removed.
  lemma BasesWereReadable(files: seq<File>, head: Commit, plan: TrackedPlan, later: seq<File>)
    requires Intact(files, plan.tracking.spec.name) && forall f :: f in files ==> f in later
    requires BasesAre(Listing(files), head, plan.tracking.policy, plan.tracking.baseRecords)
    ensures BasesReadable(plan, later)
  {
    forall r | r in plan.tracking.baseRecords ensures Holds(r) in later && RecordOk(r, plan.tracking.spec.name) {
      assert plan.tracking.baseRecords == [r];
      TrustedMultiplicity(Listing(files), head, r);
      ListingHas(files, r);
      assert r in Listing(files);
      assert FileOk(Holds(r), plan.tracking.spec.name);
    }
  }

  lemma BasesAreAncestors(listing: seq<Record>, head: Commit, plan: TrackedPlan, files: seq<File>, integration: Commit)
    requires BasesAre(listing, head, plan.tracking.policy, plan.tracking.baseRecords) && Ancestor(head, integration)
    requires BasesReadable(plan, files)
    ensures BasesOk(plan, files, integration)
  {
    forall r | r in plan.tracking.baseRecords ensures BaseOk(plan, files, integration, r) {
      assert plan.tracking.baseRecords == [r];
      TrustedMultiplicity(listing, head, r);
      AncestorIsTransitive(r.commit, head, integration);
    }
  }

  lemma ChangedIsTargeted(full: seq<Task>, semantics: seq<Semantic>, plan: TrackedPlan, c: Choice, s: Semantic,
                          task: Id)
    requires FullPlan(full, semantics) && AffectedIs(full, semantics, c.changed, c.affected)
    requires ProjectsAll(GraphOf(full), full, semantics, c.changed, c.affected, plan.tasks, plan.tracking.tasks,
                         c.origin)
    requires forall k: nat :: k < |full| ==> (k in c.origin <==> Kept(GraphOf(full), c.affected, full[k].id))
    requires s in semantics && s.tracking.key in c.changed && task in s.tracking.tasks
    ensures Targeted(plan, s.tracking.key, task)
  {
    var k := CarrierIsAffected(full, semantics, c.changed, c.affected, s, task);
    ReachesSelf(GraphOf(full), task);
    assert k in c.origin;
    var j :| 0 <= j < |c.origin| && c.origin[j] == k;
    assert Projects(GraphOf(full), semantics, c.changed, c.affected, full[k], plan.tasks[j], plan.tracking.tasks[j]);
    var targets := Targets(semantics, c.changed, full[k].scenarios);
    var i :| 0 <= i < |targets| && targets[i] == s;
    assert KeysOf(targets)[i] == s.tracking.key;
    assert plan.tracking.tasks[j] in plan.tracking.tasks;
  }

  // Evidence completeness: once its commit contains the baseline, the evidence of an
  // incremental plan is complete. Every scenario is unchanged in the base record or a
  // target of every task that carries it.
  lemma IncrementalEvidence(h: Hashes, full: seq<Task>, semantics: seq<Semantic>, spec: Scope, policy: string,
                            head: Commit, listing: seq<Record>, plan: TrackedPlan, c: Choice, integration: Commit,
                            files: seq<File>)
    requires FullPlan(full, semantics) && IsIncremental(h, full, semantics, spec, policy, head, listing, plan, c)
    requires Ancestor(head, integration) && BasesReadable(plan, files)
    ensures EvidenceAccepts(plan, files, integration)
  {
    BasesAreAncestors(listing, head, plan, files, integration);
    forall st | st in plan.tracking.scenarios
      ensures Carried(plan, st) || forall t :: t in st.tasks ==> Targeted(plan, st.key, t)
    {
      assert st in Trackings(semantics);
      var i :| 0 <= i < |semantics| && Trackings(semantics)[i] == st;
      var s := semantics[i];
      assert s in semantics;
      if Unchanged(policy, plan.tracking.baseRecords, st) {
        UnchangedIsCarried(plan, st);
      } else {
        assert st.key in c.changed;
        forall t | t in st.tasks ensures Targeted(plan, st.key, t) {
          ChangedIsTargeted(full, semantics, plan, c, s, t);
        }
      }
    }
  }

  lemma FullEvidence(h: Hashes, full: seq<Task>, semantics: seq<Semantic>, spec: Scope, policy: string, head: Commit,
                     plan: TrackedPlan, integration: Commit, files: seq<File>)
    requires FullPlan(full, semantics) && IsFull(h, full, semantics, spec, policy, head, plan)
    ensures EvidenceAccepts(plan, files, integration)
  {
    forall st, task | st in plan.tracking.scenarios && task in st.tasks ensures Targeted(plan, st.key, task) {
      assert st in Trackings(semantics);
      var i :| 0 <= i < |semantics| && Trackings(semantics)[i] == st;
      FullTargets(full, semantics, plan, semantics[i], task);
    }
  }

  lemma FullTargets(full: seq<Task>, semantics: seq<Semantic>, plan: TrackedPlan, s: Semantic, task: Id)
    requires FullPlan(full, semantics) && FullEntries(full, semantics, plan.tracking.tasks)
    requires s in semantics && task in s.tracking.tasks
    ensures Targeted(plan, s.tracking.key, task)
  {
    var k := CarrierAt(full, s, task);
    KeyAmongTargets(semantics, s, full[k]);
    assert plan.tracking.tasks[k] == FullEntry(semantics, full[k]);
    assert plan.tracking.tasks[k] in plan.tracking.tasks;
  }

  lemma CarrierAt(full: seq<Task>, s: Semantic, task: Id) returns (k: nat)
    requires Associated(full, s) && task in s.tracking.tasks
    ensures k < |full| && full[k].id == task && HasScenario(full[k], s.scenario.id)
  {
    assert Carries(full, task, s.scenario.id);
    var t :| t in full && t.id == task && HasScenario(t, s.scenario.id);
    k :| 0 <= k < |full| && full[k] == t;
  }

  lemma KeyAmongTargets(semantics: seq<Semantic>, s: Semantic, t: Task)
    requires SemanticsOk(semantics) && s in semantics && HasScenario(t, s.scenario.id)
    ensures s.tracking.key in KeysFor(semantics, t.scenarios)
  {
    var j :| 0 <= j < |t.scenarios| && Compiler.ScenarioIds(t.scenarios)[j] == s.scenario.id;
    FindUnique(semantics, s);
    assert KeysFor(semantics, t.scenarios)[j] == s.tracking.key;
  }

  // ---------------------------------------------------------------- round trip

  // The scenario stands in the record with this fingerprint and these tasks.
  ghost predicate Recorded(x: Record, s: ScenarioTracking) {
    var previous := Previous(x.scenarios);
    s.key in previous && previous[s.key].fingerprint == s.fingerprint && previous[s.key].tasks == s.tasks
  }

  // The greatest trusted record has this policy and records every scenario as it is.
  ghost predicate RecordsAsIs(listing: seq<Record>, head: Commit, policy: string, semantics: seq<Semantic>, x: Record) {
    && Greatest(multiset(Trusted(listing, head)), x) && x.policy == policy
    && forall s :: s in semantics ==> Recorded(x, s.tracking)
  }

  // An incremental plan is a no-op exactly when the greatest trusted record has the
  // current policy and records every current scenario as it is.
  lemma NoOpIffRecorded(h: Hashes, full: seq<Task>, semantics: seq<Semantic>, spec: Scope, policy: string,
                        head: Commit, listing: seq<Record>, plan: TrackedPlan, c: Choice)
    requires FullPlan(full, semantics) && IsIncremental(h, full, semantics, spec, policy, head, listing, plan, c)
    ensures plan.tracking.noOp <==> exists x :: RecordsAsIs(listing, head, policy, semantics, x)
  {
    if plan.tracking.noOp {
      NoOpIsRecorded(semantics, policy, head, listing, plan.tracking.baseRecords, c.changed);
    }
    if exists x :: RecordsAsIs(listing, head, policy, semantics, x) {
      var x :| RecordsAsIs(listing, head, policy, semantics, x);
      assert plan.tracking.baseRecords == [x];
      forall s | s in semantics ensures Unchanged(policy, plan.tracking.baseRecords, s.tracking) {
        assert Recorded(x, s.tracking);
      }
      assert c.changed == {};
    }
  }

  lemma NoOpIsRecorded(semantics: seq<Semantic>, policy: string, head: Commit, listing: seq<Record>, bases: seq<Record>,
                       changed: set<Key>)
    requires semantics != [] && BasesAre(listing, head, policy, bases)
    requires ChangedIs(semantics, policy, bases, changed) && changed == {}
    ensures bases != [] && RecordsAsIs(listing, head, policy, semantics, bases[0])
  {
    forall s | s in semantics ensures Unchanged(policy, bases, s.tracking) {
      assert s.tracking.key !in changed;
    }
    assert semantics[0] in semantics;
    assert bases == [bases[0]];
  }

  // Scenarios read again later: same keys, fingerprints and tasks, whatever their lines.
  ghost predicate SameSemantics(before: seq<Semantic>, after: seq<Semantic>) {
    forall s :: s in after ==> Persists(before, s.tracking)
  }

  ghost predicate Persists(before: seq<Semantic>, s: ScenarioTracking) {
    exists i :: 0 <= i < |before| && before[i].tracking == s.(id := before[i].tracking.id)
  }

  lemma SnapshotRecords(semantics: seq<Semantic>, r: seq<ScenarioTracking>, i: nat)
    requires SemanticsOk(semantics) && IsSnapshot(Trackings(semantics), r) && i < |semantics|
    ensures semantics[i].tracking.key in Previous(r) && Previous(r)[semantics[i].tracking.key] == semantics[i].tracking
  {
    SnapshotIsDistinct(Trackings(semantics), r);
    assert Trackings(semantics)[i] in r;
    var k :| 0 <= k < |r| && r[k] == semantics[i].tracking;
    PreviousKeepsDistinct(r, k);
  }

  // Plan, record, merge, plan again: nothing is left to do once HEAD contains the
  // recorded commit and every other trusted record is older.
  lemma RecordedPlanIsNoOp(h: Hashes, full: seq<Task>, semantics: seq<Semantic>, plan: TrackedPlan,
                           integration: Revision, full': seq<Task>, semantics': seq<Semantic>, head': Commit,
                           listing': seq<Record>, plan': TrackedPlan, c': Choice)
    requires FullPlan(full, semantics) && IsSnapshot(Trackings(semantics), plan.tracking.scenarios)
    requires FullPlan(full', semantics') && SameSemantics(semantics, semantics')
    requires IsIncremental(h, full', semantics', plan.tracking.spec, plan.tracking.policy, head', listing', plan', c')
    requires var x := RecordOf(plan, integration);
      && multiset(listing')[x] == 1 && Ancestor(x.commit, head')
      && forall y :: y in listing' && y != x && Ancestor(y.commit, head') ==>
        y.commit != x.commit && Ancestor(y.commit, x.commit)
    ensures plan'.tracking.noOp && plan'.tasks == []
  {
    var x := RecordOf(plan, integration);
    var trusted := multiset(Trusted(listing', head'));
    assert Greatest(trusted, x) by {
      TrustedMultiplicity(listing', head', x);
      forall y | y in trusted && y != x ensures y.commit != x.commit && Ancestor(y.commit, x.commit) {
        TrustedMultiplicity(listing', head', y);
        assert y in multiset(listing');
      }
    }
    forall s | s in semantics' ensures Recorded(x, s.tracking) {
      assert Persists(semantics, s.tracking);
      var i :| 0 <= i < |semantics| && semantics[i].tracking == s.tracking.(id := semantics[i].tracking.id);
      SnapshotRecords(semantics, plan.tracking.scenarios, i);
    }
    NoOpIffRecorded(h, full', semantics', plan.tracking.spec, plan.tracking.policy, head', listing', plan', c');
  }

  // What the other records must be once `integration` is merged into `later`: older.
  ghost predicate OthersOlder(files: seq<File>, integration: Commit, later: Commit) {
    forall y :: Holds(y) in files && Ancestor(y.commit, later) ==>
      y.commit != integration && Ancestor(y.commit, integration)
  }

  // The whole round trip through the compilers and the registry: compile, record what a run
  // made of it while HEAD is still the baseline, merge, and compile again. The plan is
  // recorded unless it had nothing to do or was not carried out; compiling again then finds
  // nothing left to do, unless the integration was not named in full, when it fails.
  method PlanRecordReplan(h: Hashes, full: seq<Task>, semantics: seq<Semantic>, spec: Scope, policy: string,
                          head: Commit, files: seq<File>, results: seq<TaskOutcome>, integration: Revision,
                          later: Commit)
    returns (plan: TrackedPlan, record: Result<Record, RecordError>, again: Option<TrackedPlan>, ghost c: Choice)
    requires HashesOk(h) && ScopeOk(h, spec) && ValidHash(policy) && FullPlan(full, semantics)
    requires Intact(files, spec.name) && !Blank(integration.text) && OthersOlder(files, integration.commit, later)
    requires Ancestor(head, integration.commit) && Ancestor(integration.commit, later)
    requires CommitsContained(results, integration.commit)
    ensures IsIncremental(h, full, semantics, spec, policy, head, Listing(files), plan, c)
    ensures TrackingValid(h, plan) && EvidenceAccepts(plan, files, integration.commit)
    ensures record.Ok? <==> !plan.tracking.noOp && SuccessfulResult(plan.tasks, results)
    ensures record.Ok? ==> (again.Some? <==> ValidObjectId(integration.text))
    ensures record.Ok? && again.Some? ==> again.value.tracking.noOp
  {
    var compiled;
    compiled, c := CompileIncremental(h, full, semantics, spec, policy, head, files);
    plan := compiled.value;
    IncrementalIsValid(h, full, semantics, spec, policy, head, Listing(files), plan, c);
    BasesWereReadable(files, head, plan, files);
    IncrementalEvidence(h, full, semantics, spec, policy, head, Listing(files), plan, c, integration.commit, files);
    var now := Present(head, policy, Some(semantics), true);
    InputsStillMatch(h, full, semantics, spec, policy, head, Listing(files), plan, c, now);
    record := RecordImplementation(h, plan, results, head, integration, now, files);
    again := None;
    if record.Ok? {
      RegistryStaysIntact(h, plan, results, head, integration, now, files, full);
      again := Replan(h, full, semantics, plan, integration, later, files);
    }
  }

  lemma InputsStillMatch(h: Hashes, full: seq<Task>, semantics: seq<Semantic>, spec: Scope, policy: string,
                         head: Commit, listing: seq<Record>, plan: TrackedPlan, c: Choice, now: Present)
    requires IsIncremental(h, full, semantics, spec, policy, head, listing, plan, c)
    requires now.head == head && now.policy == policy && now.semantics == Some(semantics)
    requires SemanticsOk(semantics)
    ensures InputsMatch(h, plan, now) && Distinguished(h, plan, now)
  {
    SnapshotInputs(Trackings(semantics), plan.tracking.scenarios);
  }

  // The second compilation.
  method Replan(h: Hashes, full: seq<Task>, semantics: seq<Semantic>, plan: TrackedPlan, integration: Revision,
                later: Commit, files: seq<File>)
    returns (again: Option<TrackedPlan>)
    requires FullPlan(full, semantics) && IsSnapshot(Trackings(semantics), plan.tracking.scenarios)
    requires Ancestor(integration.commit, later) && OthersOlder(files, integration.commit, later)
    ensures again.Some? <==> Intact(files + [Holds(RecordOf(plan, integration))], plan.tracking.spec.name)
    ensures again.Some? ==> again.value.tracking.noOp
  {
    var x := RecordOf(plan, integration);
    ghost var c;
    again, c := CompileIncremental(h, full, semantics, plan.tracking.spec, plan.tracking.policy, later,
                                   files + [Holds(x)]);
    if again.None? {
      return;
    }
    assert (files + [Holds(x)])[..|files|] == files;
    forall y ensures y in Listing(files) <==> Holds(y) in files {
      ListingHas(files, y);
    }
    NewRecordIsGreatest(Listing(files), x, later);
    SameAsBefore(semantics);
    RecordedPlanIsNoOp(h, full, semantics, plan, integration, full, semantics, later, Listing(files) + [x],
                       again.value, c);
  }

  lemma NewRecordIsGreatest(listing: seq<Record>, x: Record, later: Commit)
    requires Ancestor(x.commit, later)
    requires forall y :: y in listing && Ancestor(y.commit, later) ==>
      y.commit != x.commit && Ancestor(y.commit, x.commit)
    ensures multiset(listing + [x])[x] == 1
    ensures forall y :: y in listing + [x] && y != x && Ancestor(y.commit, later) ==>
      y.commit != x.commit && Ancestor(y.commit, x.commit)
  {
    assert x !in listing;
    assert x !in multiset(listing);
  }

  lemma SameAsBefore(semantics: seq<Semantic>)
    ensures SameSemantics(semantics, semantics)
  {
    forall s | s in semantics ensures Persists(semantics, s.tracking) {
      var i :| 0 <= i < |semantics| && semantics[i] == s;
    }
  }

  // ------------------------------------------------------------------ moved scenarios

  // The same scenarios on other lines: only their identifiers differ.
  ghost predicate Moved(before: seq<Semantic>, after: seq<Semantic>) {
    && |after| == |before|
    && forall i {:trigger after[i]} :: 0 <= i < |before| ==>
      after[i].tracking == before[i].tracking.(id := after[i].tracking.id)
  }

  lemma MovedSameInputs(before: seq<Semantic>, after: seq<Semantic>)
    requires Moved(before, after)
    ensures SameInputs(Trackings(after), Trackings(before))
  {
    var a, b := Trackings(after), Trackings(before);
    forall x ensures HasInput(a, x) <==> HasInput(b, x) {
      if HasInput(a, x) {
        var i :| 0 <= i < |a| && InputOf(a[i]) == x;
        assert after[i].tracking == before[i].tracking.(id := after[i].tracking.id);
        assert b[i] in b && InputOf(b[i]) == x;
      }
      if HasInput(b, x) {
        var i :| 0 <= i < |b| && InputOf(b[i]) == x;
        assert after[i].tracking == before[i].tracking.(id := after[i].tracking.id);
        assert a[i] in a && InputOf(a[i]) == x;
      }
    }
  }

  // A plan outlives moving its scenarios to other lines, although it names them by their
  // old identifiers.
  method ValidateMoved(h: Hashes, full: seq<Task>, semantics: seq<Semantic>, spec: Scope, policy: string, head: Commit,
                       moved: seq<Semantic>)
    returns (plan: TrackedPlan, ok: bool)
    requires HashesOk(h) && ScopeOk(h, spec) && ValidHash(policy) && FullPlan(full, semantics)
    requires SemanticsOk(moved) && Moved(semantics, moved)
    ensures ok && plan.tasks == full && IsSnapshot(Trackings(semantics), plan.tracking.scenarios)
  {
    plan := CompileFull(h, full, semantics, spec, policy, head);
    FullIsValid(h, full, semantics, spec, policy, head, plan);
    ok := ValidatePlanInputs(h, plan, Present(head, policy, Some(moved), true));
    SnapshotInputs(Trackings(semantics), plan.tracking.scenarios);
    MovedSameInputs(semantics, moved);
    SortedInputsDecide(Trackings(moved), Trackings(semantics));
  }
}
