// workflow/incremental.go: CompileIncremental and CompileFull on a full tracked plan.
module Incremental {
  import opened Ids
  import opened Graph
  import opened Types
  import opened Git
  import opened Snapshots
  import opened Metadata
  import opened Semantics
  import opened Registry
  import opened Closures
  import opened Tracking
  import Compiler
  import Planner
  import Validator

  // -------------------------------------------------------------------- targets

  function Find(semantics: seq<Semantic>, id: string): Option<Semantic> {
    if semantics == [] then None
    else if semantics[|semantics| - 1].scenario.id == id then Some(semantics[|semantics| - 1])
    else Find(semantics[..|semantics| - 1], id)
  }

  lemma {:induction false} FindIs(semantics: seq<Semantic>, id: string)
    ensures Find(semantics, id).Some? <==> Tracked(semantics, id)
    ensures Find(semantics, id).Some? ==>
      Find(semantics, id).value in semantics && Find(semantics, id).value.scenario.id == id
  {
    if semantics != [] {
      var init, last := semantics[..|semantics| - 1], semantics[|semantics| - 1];
      FindIs(init, id);
      assert semantics == init + [last];
      assert last in semantics;
      if last.scenario.id != id && Tracked(semantics, id) {
        var s :| s in semantics && s.scenario.id == id;
        assert s in init;
      }
    }
  }

  lemma FindUnique(semantics: seq<Semantic>, s: Semantic)
    requires SemanticsOk(semantics) && s in semantics
    ensures Find(semantics, s.scenario.id) == Some(s)
  {
    FindIs(semantics, s.scenario.id);
    assert Tracked(semantics, s.scenario.id);
    var other := Find(semantics, s.scenario.id).value;
    var i :| 0 <= i < |semantics| && semantics[i] == s;
    var j :| 0 <= j < |semantics| && semantics[j] == other;
    assert IdOfEach(Trackings(semantics))[i] == IdOfEach(Trackings(semantics))[j];
  }

  predicate IsTarget(semantics: seq<Semantic>, changed: set<Key>, c: Scenario) {
    Find(semantics, c.id).Some? && Find(semantics, c.id).value.tracking.key in changed
  }

  // The changed scenarios among these, in order.
  function Targets(semantics: seq<Semantic>, changed: set<Key>, scenarios: seq<Scenario>): seq<Semantic> {
    if scenarios == [] then []
    else
      var init, last := scenarios[..|scenarios| - 1], scenarios[|scenarios| - 1];
      Targets(semantics, changed, init)
      + if IsTarget(semantics, changed, last) then [Find(semantics, last.id).value] else []
  }

  lemma {:induction false} TargetsAre(semantics: seq<Semantic>, changed: set<Key>, scenarios: seq<Scenario>)
    requires SemanticsOk(semantics)
    ensures forall s :: s in Targets(semantics, changed, scenarios) <==>
      s in semantics && s.tracking.key in changed && s.scenario.id in Compiler.ScenarioIds(scenarios)
  {
    if scenarios != [] {
      var init, last := scenarios[..|scenarios| - 1], scenarios[|scenarios| - 1];
      TargetsAre(semantics, changed, init);
      assert Compiler.ScenarioIds(scenarios) == Compiler.ScenarioIds(init) + [last.id];
      FindIs(semantics, last.id);
      forall s | s in semantics && s.scenario.id == last.id ensures Find(semantics, last.id) == Some(s) {
        FindUnique(semantics, s);
      }
    }
  }

  function KeysOf(semantics: seq<Semantic>): (r: seq<Key>)
    ensures |r| == |semantics| && forall i :: 0 <= i < |r| ==> r[i] == semantics[i].tracking.key
  {
    seq(|semantics|, i requires 0 <= i < |semantics| => semantics[i].tracking.key)
  }

  function ScenariosOf(semantics: seq<Semantic>): (r: seq<Scenario>)
    ensures |r| == |semantics| && forall i :: 0 <= i < |r| ==> r[i] == semantics[i].scenario
  {
    seq(|semantics|, i requires 0 <= i < |semantics| => semantics[i].scenario)
  }

  method SelectTargets(semantics: seq<Semantic>, changed: set<Key>, scenarios: seq<Scenario>) returns (r: seq<Semantic>)
    ensures r == Targets(semantics, changed, scenarios)
  {
    r := [];
    for i := 0 to |scenarios|
      invariant r == Targets(semantics, changed, scenarios[..i])
    {
      assert scenarios[..i + 1][..i] == scenarios[..i];
      var found := Find(semantics, scenarios[i].id);
      if found.Some? && found.value.tracking.key in changed {
        r := r + [found.value];
      }
    }
    assert scenarios[..|scenarios|] == scenarios;
  }

  // -------------------------------------------------------------- specification

  ghost function GraphOf(full: seq<Task>): Needs {
    NeedsOf(Validator.ById(full))
  }

  ghost predicate IsAffected(semantics: seq<Semantic>, changed: set<Key>, t: Task) {
    Targets(semantics, changed, t.scenarios) != []
  }

  // Why a task is kept: it is affected, or downstream of an affected task, or needed.
  ghost function ReasonFor(g: Needs, affected: set<Id>, id: Id): Reason {
    if id in affected then Changed
    else if exists a :: a in affected && Reaches(g, id, a) then Verification
    else Prerequisite
  }

  // A kept task: its own needs, its changed scenarios only, and its reason.
  ghost predicate Projects(g: Needs, semantics: seq<Semantic>, changed: set<Key>, affected: set<Id>, t: Task,
                           kept: Task, e: IncrementalTask)
  {
    && kept == t.(scenarios := ScenariosOf(Targets(semantics, changed, t.scenarios)))
    && e == IncrementalTask(t.id, ReasonFor(g, affected, t.id), KeysOf(Targets(semantics, changed, t.scenarios)))
  }

  // The two lists of the plan against the full plan: `origin` gives, in order, the
  // positions of the kept tasks.
  ghost predicate ProjectsAll(g: Needs, full: seq<Task>, semantics: seq<Semantic>, changed: set<Key>, affected: set<Id>,
                              tasks: seq<Task>, entries: seq<IncrementalTask>, origin: seq<nat>) {
    && |tasks| == |entries| == |origin|
    && (forall j :: 0 <= j < |origin| ==> origin[j] < |full|)
    && (forall i, j :: 0 <= i < j < |origin| ==> origin[i] < origin[j])
    && (forall j :: 0 <= j < |origin| ==>
         Projects(g, semantics, changed, affected, full[origin[j]], tasks[j], entries[j]))
  }

  ghost predicate AffectedIs(full: seq<Task>, semantics: seq<Semantic>, changed: set<Key>, affected: set<Id>) {
    forall id :: id in affected <==> exists t :: t in full && t.id == id && IsAffected(semantics, changed, t)
  }

  ghost predicate ChangedIs(semantics: seq<Semantic>, policy: string, bases: seq<Record>, changed: set<Key>) {
    forall key :: key in changed <==>
      exists s :: s in semantics && s.tracking.key == key && !Unchanged(policy, bases, s.tracking)
  }

  // The base records: the greatest trusted record, if it has this policy.
  ghost predicate BasesAre(listing: seq<Record>, head: Commit, policy: string, bases: seq<Record>) {
    && |bases| <= 1
    && forall x :: bases == [x] <==> Greatest(multiset(Trusted(listing, head)), x) && x.policy == policy
  }

  ghost predicate TrackingIs(h: Hashes, plan: TrackedPlan, semantics: seq<Semantic>, spec: Scope, policy: string,
                             head: Commit)
  {
    var t := plan.tracking;
    && t.version == TRACKING_VERSION && t.spec == spec && t.policy == policy && t.baseline == head
    && IsSnapshot(Trackings(semantics), t.scenarios)
    && t.input == h.input(policy, SortedInputs(t.scenarios)) && t.projection == h.projection(plan.tasks)
  }

  datatype Choice = Choice(changed: set<Key>, affected: set<Id>, origin: seq<nat>)

  // What CompileIncremental promises of its plan.
  ghost predicate IsIncremental(h: Hashes, full: seq<Task>, semantics: seq<Semantic>, spec: Scope, policy: string,
                                head: Commit, listing: seq<Record>, plan: TrackedPlan, c: Choice)
  {
    && TrackingIs(h, plan, semantics, spec, policy, head)
    && BasesAre(listing, head, policy, plan.tracking.baseRecords)
    && ChangedIs(semantics, policy, plan.tracking.baseRecords, c.changed)
    && AffectedIs(full, semantics, c.changed, c.affected)
    && (plan.tracking.noOp <==> c.changed == {})
    && (plan.tracking.noOp ==> plan.tasks == [] && plan.tracking.tasks == [])
    && (!plan.tracking.noOp ==>
         && ProjectsAll(GraphOf(full), full, semantics, c.changed, c.affected, plan.tasks, plan.tracking.tasks,
                        c.origin)
         && forall k: nat :: k < |full| ==> (k in c.origin <==> Kept(GraphOf(full), c.affected, full[k].id)))
  }

  // ----------------------------------------------------------------- the method

  method ChooseBases(files: seq<File>, spec: Scope, head: Commit, policy: string)
    returns (r: Option<(seq<Record>, seq<Record>)>)
    ensures r.Some? <==> Intact(files, spec.name)
    ensures r.Some? ==> BasesAre(Listing(files), head, policy, r.value.1)
    ensures r.Some? ==> forall s :: Unchanged(policy, r.value.0, s) <==> Unchanged(policy, r.value.1, s)
  {
    var latest := LatestTrusted(files, spec.name, head);
    if latest.None? {
      return None;
    }
    var bases: seq<Record> := [];
    if |latest.value| == 1 && latest.value[0].policy == policy {
      bases := latest.value;
      assert latest.value == [latest.value[0]];
    }
    forall x ensures bases == [x] <==> Greatest(multiset(Trusted(Listing(files), head)), x) && x.policy == policy {
      assert latest.value == [x] <==> Greatest(multiset(Trusted(Listing(files), head)), x);
    }
    return Some((latest.value, bases));
  }

  method FindAffected(full: seq<Task>, semantics: seq<Semantic>, changed: set<Key>)
    returns (affected: set<Id>, changedForTask: map<Id, seq<Semantic>>)
    requires NoDup(IdsOf(full))
    ensures AffectedIs(full, semantics, changed, affected)
    ensures forall t :: t in full ==>
      t.id in changedForTask && changedForTask[t.id] == Targets(semantics, changed, t.scenarios)
  {
    affected, changedForTask := {}, map[];
    for i := 0 to |full|
      invariant AffectedIs(full[..i], semantics, changed, affected)
      invariant forall k :: 0 <= k < i ==>
        full[k].id in changedForTask && changedForTask[full[k].id] == Targets(semantics, changed, full[k].scenarios)
    {
      var t := full[i];
      assert full[..i + 1] == full[..i] + [t];
      assert forall k :: 0 <= k < i ==> IdsOf(full)[k] != IdsOf(full)[i];
      var selected := SelectTargets(semantics, changed, t.scenarios);
      if selected != [] {
        affected := affected + {t.id};
      }
      changedForTask := changedForTask[t.id := selected];
    }
    assert full[..|full|] == full;
  }

  method CollectDependents(full: seq<Task>) returns (dependents: map<Id, seq<Id>>)
    requires NoDup(IdsOf(full))
    ensures forall d, x {:trigger x in Planner.Listed(dependents, d)} :: x in Planner.Listed(dependents, d) <==>
      x in GraphOf(full) && d in GraphOf(full)[x]
  {
    dependents := map[];
    for i := 0 to |full|
      invariant forall d, x {:trigger x in Planner.Listed(dependents, d)} ::
        x in Planner.Listed(dependents, d) <==> exists k :: 0 <= k < i && full[k].id == x && d in full[k].needs
    {
      var t := full[i];
      ghost var before := dependents;
      for k := 0 to |t.needs|
        invariant forall d, x {:trigger x in Planner.Listed(dependents, d)} ::
          x in Planner.Listed(dependents, d) <==> x in Planner.Listed(before, d) || (x == t.id && d in t.needs[..k])
      {
        assert t.needs[..k + 1] == t.needs[..k] + [t.needs[k]];
        dependents := Planner.Extend(dependents, t.needs[k], t.id);
      }
      assert t.needs[..|t.needs|] == t.needs;
    }
    GraphLooksUp(full);
    forall d, x ensures x in Planner.Listed(dependents, d) <==> x in GraphOf(full) && d in GraphOf(full)[x] {
      assert x in Planner.Listed(dependents, d) <==>
        exists k :: 0 <= k < |full| && full[k].id == x && d in full[k].needs;
    }
  }

  lemma GraphLooksUp(full: seq<Task>)
    requires NoDup(IdsOf(full))
    ensures forall k :: 0 <= k < |full| ==> full[k].id in GraphOf(full) && GraphOf(full)[full[k].id] == full[k].needs
    ensures forall x :: x in GraphOf(full) ==> exists k :: 0 <= k < |full| && full[k].id == x
  {
    var byId := Validator.ById(full);
    forall k | 0 <= k < |full| ensures full[k].id in byId && byId[full[k].id] == full[k] {
      Validator.ByIdLooksUp(full, k);
    }
    forall x | x in GraphOf(full) ensures exists k :: 0 <= k < |full| && full[k].id == x {
      var k :| 0 <= k < |full| && IdsOf(full)[k] == x;
      assert full[k].id == x;
    }
  }

  method ReasonOf(g: Needs, affected: set<Id>, id: Id) returns (reason: Reason)
    requires id in g && Known(g)
    ensures reason == ReasonFor(g, affected, id)
    ensures reason == Changed <==> id in affected
    ensures reason == Verification <==> id !in affected && exists a :: a in affected && Reaches(g, id, a)
  {
    if id in affected {
      return Changed;
    }
    var downstream := IsDownstreamOf(g, id, affected);
    return if downstream then Verification else Prerequisite;
  }

  lemma ProjectsSnoc(g: Needs, full: seq<Task>, semantics: seq<Semantic>, changed: set<Key>, affected: set<Id>,
                     tasks: seq<Task>, entries: seq<IncrementalTask>, origin: seq<nat>, i: nat, kept: Task,
                     entry: IncrementalTask)
    requires ProjectsAll(g, full, semantics, changed, affected, tasks, entries, origin)
    requires i < |full| && Projects(g, semantics, changed, affected, full[i], kept, entry)
    requires forall j :: 0 <= j < |origin| ==> origin[j] < i
    ensures ProjectsAll(g, full, semantics, changed, affected, tasks + [kept], entries + [entry], origin + [i])
    ensures forall k :: k in origin + [i] <==> k in origin || k == i
  {
  }

  // The closing loop: project the kept tasks, in the order of the full plan.
  method ProjectTasks(g: Needs, full: seq<Task>, semantics: seq<Semantic>, changed: set<Key>, affected: set<Id>,
                      changedForTask: map<Id, seq<Semantic>>, included: set<Id>)
    returns (tasks: seq<Task>, entries: seq<IncrementalTask>, ghost origin: seq<nat>)
    requires Known(g) && forall t :: t in full ==> t.id in g
    requires forall t :: t in full ==>
      t.id in changedForTask && changedForTask[t.id] == Targets(semantics, changed, t.scenarios)
    ensures ProjectsAll(g, full, semantics, changed, affected, tasks, entries, origin)
    ensures forall k: nat :: k < |full| ==> (k in origin <==> full[k].id in included)
  {
    tasks, entries, origin := [], [], [];
    for i := 0 to |full|
      invariant ProjectsAll(g, full, semantics, changed, affected, tasks, entries, origin)
      invariant forall j :: 0 <= j < |origin| ==> origin[j] < i
      invariant forall k: nat :: k < i ==> (k in origin <==> full[k].id in included)
    {
      var t := full[i];
      assert t in full;
      if t.id in included {
        var selected := changedForTask[t.id];
        var reason := ReasonOf(g, affected, t.id);
        var kept, entry := t.(scenarios := ScenariosOf(selected)), IncrementalTask(t.id, reason, KeysOf(selected));
        ProjectsSnoc(g, full, semantics, changed, affected, tasks, entries, origin, i, kept, entry);
        tasks, entries, origin := tasks + [kept], entries + [entry], origin + [i];
      }
    }
  }

  // It fails on a damaged registry and on nothing else.
  method CompileIncremental(h: Hashes, full: seq<Task>, semantics: seq<Semantic>, spec: Scope, policy: string,
                            head: Commit, files: seq<File>)
    returns (r: Option<TrackedPlan>, ghost choice: Choice)
    requires FullPlan(full, semantics)
    ensures r.Some? <==> Intact(files, spec.name)
    ensures r.Some? ==> IsIncremental(h, full, semantics, spec, policy, head, Listing(files), r.value, choice)
  {
    choice := Choice({}, {}, []);
    var chosen := ChooseBases(files, spec, head, policy);
    if chosen.None? {
      return None, choice;
    }
    var (latest, bases) := chosen.value;
    var scenarios := TakeSnapshot(Trackings(semantics));
    var input := InputFingerprint(h, policy, Trackings(semantics), scenarios);
    var tracking := PlanTracking(TRACKING_VERSION, spec, head, policy, input, "", bases, false, scenarios, []);
    var changed := ChangedKeys(Trackings(semantics), policy, latest);
    ChangedAgrees(semantics, policy, latest, bases, changed);
    var plan;
    if changed == {} {
      plan := TrackedPlan([], tracking.(noOp := true, projection := h.projection([])));
      NothingAffected(full, semantics, changed);
      choice := Choice(changed, {}, []);
    } else {
      plan, choice := Project(h, full, semantics, changed, tracking);
    }
    return Some(plan), choice;
  }

  // trackingInputFingerprint of a snapshot.
  method InputFingerprint(h: Hashes, policy: string, ghost scenarios: seq<ScenarioTracking>,
                          snapshot: seq<ScenarioTracking>)
    returns (input: string)
    requires NoDup(KeyOfEach(scenarios)) && NoDup(IdOfEach(scenarios)) && IsSnapshot(scenarios, snapshot)
    ensures input == h.input(policy, SortedInputs(snapshot))
  {
    SnapshotIsDistinct(scenarios, snapshot);
    var inputs := SortInputs(snapshot);
    input := h.input(policy, inputs);
  }

  method Project(h: Hashes, full: seq<Task>, semantics: seq<Semantic>, changed: set<Key>, tracking: PlanTracking)
    returns (plan: TrackedPlan, ghost choice: Choice)
    requires FullPlan(full, semantics)
    ensures plan.tracking == tracking.(tasks := plan.tracking.tasks, projection := h.projection(plan.tasks))
    ensures choice.changed == changed && AffectedIs(full, semantics, changed, choice.affected)
    ensures ProjectsAll(GraphOf(full), full, semantics, changed, choice.affected, plan.tasks, plan.tracking.tasks,
                        choice.origin)
    ensures forall k: nat :: k < |full| ==> (k in choice.origin <==> Kept(GraphOf(full), choice.affected, full[k].id))
  {
    var affected, changedForTask := FindAffected(full, semantics, changed);
    var tasks, entries;
    ghost var origin;
    tasks, entries, origin := KeepAndProject(full, semantics, changed, affected, changedForTask);
    plan := TrackedPlan(tasks, tracking.(tasks := entries, projection := h.projection(tasks)));
    choice := Choice(changed, affected, origin);
  }

  method KeepAndProject(full: seq<Task>, semantics: seq<Semantic>, changed: set<Key>, affected: set<Id>,
                        changedForTask: map<Id, seq<Semantic>>)
    returns (tasks: seq<Task>, entries: seq<IncrementalTask>, ghost origin: seq<nat>)
    requires FullPlan(full, semantics) && AffectedIs(full, semantics, changed, affected)
    requires forall t :: t in full ==>
      t.id in changedForTask && changedForTask[t.id] == Targets(semantics, changed, t.scenarios)
    ensures ProjectsAll(GraphOf(full), full, semantics, changed, affected, tasks, entries, origin)
    ensures forall k: nat :: k < |full| ==> (k in origin <==> Kept(GraphOf(full), affected, full[k].id))
  {
    var g := NeedsOf(Validator.ById(full));
    var dependents := CollectDependents(full);
    GraphLooksUp(full);
    OrderHasNoCycle(g, IdsOf(full));
    FullIds(full);
    var selection := new Selection(g, IdsOf(full), dependents);
    assert affected <= g.Keys;
    selection.IncludeAll(affected);
    tasks, entries, origin := ProjectTasks(g, full, semantics, changed, affected, changedForTask, selection.included);
  }

  lemma FullIds(full: seq<Task>)
    requires NoDup(IdsOf(full))
    ensures forall t :: t in full ==> t.id in GraphOf(full)
  {
    forall t | t in full ensures t.id in GraphOf(full) {
      var k :| 0 <= k < |full| && full[k] == t;
      assert IdsOf(full)[k] == t.id;
    }
  }

  lemma ChangedAgrees(semantics: seq<Semantic>, policy: string, latest: seq<Record>, bases: seq<Record>,
                      changed: set<Key>)
    requires forall s :: Unchanged(policy, latest, s) <==> Unchanged(policy, bases, s)
    requires forall key :: key in changed <==>
      exists i :: 0 <= i < |Trackings(semantics)| && Trackings(semantics)[i].key == key &&
        !Unchanged(policy, latest, Trackings(semantics)[i])
    ensures ChangedIs(semantics, policy, bases, changed)
  {
    forall key
      ensures key in changed <==>
        exists s :: s in semantics && s.tracking.key == key && !Unchanged(policy, bases, s.tracking)
    {
      if key in changed {
        var i :| 0 <= i < |Trackings(semantics)| && Trackings(semantics)[i].key == key &&
          !Unchanged(policy, latest, Trackings(semantics)[i]);
        assert semantics[i] in semantics;
      }
      if s :| s in semantics && s.tracking.key == key && !Unchanged(policy, bases, s.tracking) {
        var i :| 0 <= i < |semantics| && semantics[i] == s;
        assert Trackings(semantics)[i] == s.tracking;
      }
    }
  }

  lemma NothingAffected(full: seq<Task>, semantics: seq<Semantic>, changed: set<Key>)
    requires changed == {}
    ensures AffectedIs(full, semantics, changed, {})
  {
    forall t | t in full ensures !IsAffected(semantics, changed, t) {
      NoTargets(semantics, t.scenarios);
    }
  }

  lemma {:induction false} NoTargets(semantics: seq<Semantic>, scenarios: seq<Scenario>)
    ensures Targets(semantics, {}, scenarios) == []
  {
    if scenarios != [] { NoTargets(semantics, scenarios[..|scenarios| - 1]); }
  }

  // ------------------------------------------------------------------ CompileFull

  ghost predicate IsFull(h: Hashes, full: seq<Task>, semantics: seq<Semantic>, spec: Scope, policy: string,
                         head: Commit, plan: TrackedPlan)
  {
    && TrackingIs(h, plan, semantics, spec, policy, head)
    && plan.tracking.baseRecords == [] && !plan.tracking.noOp && plan.tasks == full
    && FullEntries(full, semantics, plan.tracking.tasks)
  }

  // Every task, with the keys of all its scenarios.
  ghost predicate FullEntries(full: seq<Task>, semantics: seq<Semantic>, entries: seq<IncrementalTask>) {
    && |entries| == |full|
    && forall i {:trigger entries[i]} :: 0 <= i < |full| ==> entries[i] == FullEntry(semantics, full[i])
  }

  function FullEntry(semantics: seq<Semantic>, t: Task): IncrementalTask {
    IncrementalTask(t.id, Changed, KeysFor(semantics, t.scenarios))
  }

  // keyByID applied to each scenario.
  function KeysFor(semantics: seq<Semantic>, scenarios: seq<Scenario>): (r: seq<Key>)
    ensures |r| == |scenarios|
    ensures forall i :: 0 <= i < |r| ==> r[i] == KeyFor(semantics, scenarios[i].id)
  {
    seq(|scenarios|, i requires 0 <= i < |scenarios| => KeyFor(semantics, scenarios[i].id))
  }

  function KeyFor(semantics: seq<Semantic>, id: string): Key {
    if Find(semantics, id).Some? then Find(semantics, id).value.tracking.key else ""
  }

  method CompileFull(h: Hashes, full: seq<Task>, semantics: seq<Semantic>, spec: Scope, policy: string, head: Commit)
    returns (plan: TrackedPlan)
    requires SemanticsOk(semantics)
    ensures IsFull(h, full, semantics, spec, policy, head, plan)
  {
    var entries: seq<IncrementalTask> := [];
    for i := 0 to |full|
      invariant |entries| == i
      invariant forall k :: 0 <= k < i ==> entries[k] == FullEntry(semantics, full[k])
    {
      var keys: seq<Key> := [];
      for j := 0 to |full[i].scenarios|
        invariant keys == KeysFor(semantics, full[i].scenarios)[..j]
      {
        keys := keys + [KeyFor(semantics, full[i].scenarios[j].id)];
      }
      entries := entries + [IncrementalTask(full[i].id, Changed, keys)];
    }
    var scenarios := TakeSnapshot(Trackings(semantics));
    var input := InputFingerprint(h, policy, Trackings(semantics), scenarios);
    var tracking := PlanTracking(TRACKING_VERSION, spec, head, policy, input, h.projection(full), [], false,
                                 scenarios, entries);
    plan := TrackedPlan(full, tracking);
  }

  // --------------------------------------------------- the incremental plan's graph

  // A kept task's needs are kept, so the plan is closed.
  lemma KeptIsClosed(g: Needs, affected: set<Id>, x: Id, n: Id)
    requires x in g && n in g[x] && Kept(g, affected, x)
    ensures Kept(g, affected, n)
  {
    var a, d :| a in affected && Reaches(g, d, a) && Reaches(g, d, x);
    ReachesSelf(g, n);
    ReachesStep(g, x, n, n);
    ReachesTransitive(g, d, x, n);
  }

  // The kept tasks, in their old order, are a valid plan by themselves: their needs
  // are among them and come before them, so validatePlan accepts their graph.
  lemma IncrementalGraphIsValid(h: Hashes, full: seq<Task>, semantics: seq<Semantic>, spec: Scope, policy: string,
                                head: Commit, listing: seq<Record>, plan: TrackedPlan, c: Choice)
    requires FullPlan(full, semantics) && IsIncremental(h, full, semantics, spec, policy, head, listing, plan, c)
    ensures NoDup(IdsOf(plan.tasks)) && Topological(GraphOf(plan.tasks), IdsOf(plan.tasks))
    ensures Validator.GraphIsValid(GraphOf(plan.tasks))
  {
    if plan.tracking.noOp {
      assert GraphOf(plan.tasks) == map[];
      OrderHasNoCycle(GraphOf(plan.tasks), IdsOf(plan.tasks));
    } else {
      ProjectionKeeps(full, semantics, plan, c);
      KeptGraphIsValid(full, c.affected, plan.tasks, c.origin);
    }
  }

  lemma ProjectionKeeps(full: seq<Task>, semantics: seq<Semantic>, plan: TrackedPlan, c: Choice)
    requires ProjectsAll(GraphOf(full), full, semantics, c.changed, c.affected, plan.tasks, plan.tracking.tasks,
                         c.origin)
    requires forall k: nat :: k < |full| ==> (k in c.origin <==> Kept(GraphOf(full), c.affected, full[k].id))
    ensures KeptFrom(full, c.affected, plan.tasks, c.origin)
  {
  }

  lemma KeptGraphIsValid(full: seq<Task>, affected: set<Id>, tasks: seq<Task>, origin: seq<nat>)
    requires NoDup(IdsOf(full)) && Topological(GraphOf(full), IdsOf(full))
    requires KeptFrom(full, affected, tasks, origin)
    requires forall t :: t in full ==> NoDup(t.needs)
    ensures NoDup(IdsOf(tasks)) && Topological(GraphOf(tasks), IdsOf(tasks))
    ensures Validator.GraphIsValid(GraphOf(tasks))
  {
    KeptIdsDistinct(full, affected, tasks, origin);
    KeptOrder(full, affected, tasks, origin);
    OrderHasNoCycle(GraphOf(tasks), IdsOf(tasks));
    forall t | t in tasks ensures NoDup(t.needs) {
      var j :| 0 <= j < |tasks| && tasks[j] == t;
      assert KeptAt(full, tasks, origin, j) && full[origin[j]] in full;
    }
    UnrepeatedTasks(tasks);
  }

  lemma UnrepeatedTasks(tasks: seq<Task>)
    requires NoDup(IdsOf(tasks)) && forall t :: t in tasks ==> NoDup(t.needs)
    ensures Unrepeated(GraphOf(tasks))
  {
    GraphLooksUp(tasks);
    forall id | id in GraphOf(tasks) ensures NoDup(GraphOf(tasks)[id]) {
      var k :| 0 <= k < |tasks| && tasks[k].id == id;
      assert tasks[k] in tasks;
    }
  }

  // Tasks kept from the full plan at the positions of `origin`.
  ghost predicate KeptFrom(full: seq<Task>, affected: set<Id>, tasks: seq<Task>, origin: seq<nat>) {
    && |tasks| == |origin|
    && (forall j {:trigger KeptAt(full, tasks, origin, j)} :: 0 <= j < |origin| ==> KeptAt(full, tasks, origin, j))
    && (forall i, j :: 0 <= i < j < |origin| ==> origin[i] < origin[j])
    && (forall k: nat :: k < |full| ==> (k in origin <==> Kept(GraphOf(full), affected, full[k].id)))
  }

  ghost predicate KeptAt(full: seq<Task>, tasks: seq<Task>, origin: seq<nat>, j: int)
    requires |tasks| == |origin| && 0 <= j < |origin|
  {
    origin[j] < |full| && tasks[j].id == full[origin[j]].id && tasks[j].needs == full[origin[j]].needs
  }

  lemma KeptIdsDistinct(full: seq<Task>, affected: set<Id>, tasks: seq<Task>, origin: seq<nat>)
    requires NoDup(IdsOf(full)) && KeptFrom(full, affected, tasks, origin)
    ensures NoDup(IdsOf(tasks))
  {
    forall i, j | 0 <= i < j < |tasks| ensures IdsOf(tasks)[i] != IdsOf(tasks)[j] {
      assert KeptAt(full, tasks, origin, i) && KeptAt(full, tasks, origin, j);
      assert IdsOf(full)[origin[i]] != IdsOf(full)[origin[j]];
    }
  }

  lemma KeptOrder(full: seq<Task>, affected: set<Id>, tasks: seq<Task>, origin: seq<nat>)
    requires NoDup(IdsOf(full)) && Topological(GraphOf(full), IdsOf(full))
    requires KeptFrom(full, affected, tasks, origin) && NoDup(IdsOf(tasks))
    ensures Topological(GraphOf(tasks), IdsOf(tasks))
  {
    var g, ids := GraphOf(tasks), IdsOf(tasks);
    assert forall x :: x in ids <==> x in g;
    forall j | 0 <= j < |ids| ensures NeedsMet(g, Elems(ids[..j]), ids[j]) {
      KeptNeedsMet(full, affected, tasks, origin, j);
    }
  }

  lemma KeptNeedsMet(full: seq<Task>, affected: set<Id>, tasks: seq<Task>, origin: seq<nat>, j: nat)
    requires NoDup(IdsOf(full)) && Topological(GraphOf(full), IdsOf(full))
    requires KeptFrom(full, affected, tasks, origin) && NoDup(IdsOf(tasks)) && j < |tasks|
    ensures NeedsMet(GraphOf(tasks), Elems(IdsOf(tasks)[..j]), tasks[j].id)
  {
    GraphLooksUp(tasks);
    forall n | n in tasks[j].needs ensures n in IdsOf(tasks)[..j] {
      var i := NeedIsEarlier(full, affected, tasks, origin, j, n);
      assert IdsOf(tasks)[..j][i] == n;
    }
  }

  lemma NeedIsEarlier(full: seq<Task>, affected: set<Id>, tasks: seq<Task>, origin: seq<nat>, j: nat, n: Id)
    returns (i: nat)
    requires NoDup(IdsOf(full)) && Topological(GraphOf(full), IdsOf(full))
    requires KeptFrom(full, affected, tasks, origin) && j < |tasks| && n in tasks[j].needs
    ensures i < j && tasks[i].id == n
  {
    var k := NeedIsKept(full, affected, tasks, origin, j, n);
    i :| 0 <= i < |origin| && origin[i] == k;
    assert KeptAt(full, tasks, origin, i);
    AscendingReflects(origin, i, j);
  }

  lemma NeedIsKept(full: seq<Task>, affected: set<Id>, tasks: seq<Task>, origin: seq<nat>, j: nat, n: Id)
    returns (k: nat)
    requires NoDup(IdsOf(full)) && Topological(GraphOf(full), IdsOf(full))
    requires KeptFrom(full, affected, tasks, origin) && j < |tasks| && n in tasks[j].needs
    ensures k in origin && k < origin[j] && k < |full| && full[k].id == n
  {
    var at := origin[j];
    assert KeptAt(full, tasks, origin, j) && at in origin;
    k := NeedPosition(full, at, n);
    KeptIsClosed(GraphOf(full), affected, full[at].id, n);
  }

  lemma AscendingReflects(origin: seq<nat>, i: nat, j: nat)
    requires forall a, b :: 0 <= a < b < |origin| ==> origin[a] < origin[b]
    requires i < |origin| && j < |origin| && origin[i] < origin[j]
    ensures i < j
  {
  }

  lemma NeedPosition(full: seq<Task>, at: nat, n: Id) returns (k: nat)
    requires NoDup(IdsOf(full)) && Topological(GraphOf(full), IdsOf(full))
    requires at < |full| && n in full[at].needs
    ensures k < at && full[k].id == n
    ensures full[at].id in GraphOf(full) && n in GraphOf(full)[full[at].id]
  {
    GraphLooksUp(full);
    k := PositionBefore(GraphOf(full), IdsOf(full), at, n);
  }

  lemma PositionBefore(g: Needs, ids: seq<Id>, at: nat, n: Id) returns (k: nat)
    requires Topological(g, ids) && at < |ids| && ids[at] in g && n in g[ids[at]]
    ensures k < at && ids[k] == n
  {
    assert NeedsMet(g, Elems(ids[..at]), ids[at]);
    k :| 0 <= k < at && ids[k] == n;
  }
}
