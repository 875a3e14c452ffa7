// workflow/incremental.go: ValidateTracking and validateCarriedEvidence.
module Evidence {
  import opened Ids
  import opened Texts
  import opened Types
  import opened Git
  import opened Snapshots
  import opened Metadata
  import opened Registry
  import opened Tracking
  import Validator

  // ------------------------------------------------------------ ValidateTracking

  // The key is tracked, for this scenario.
  ghost predicate TargetOk(scenarios: seq<ScenarioTracking>, key: Key, c: Scenario) {
    exists i :: 0 <= i < |scenarios| && scenarios[i].key == key && scenarios[i].id == c.id
  }

  ghost predicate EntryOk(plan: TrackedPlan, e: IncrementalTask) {
    var tasks := Validator.ById(plan.tasks);
    && e.id in tasks
    && (e.reason != Changed ==> e.keys == [] && tasks[e.id].scenarios == [])
    && (e.reason == Changed ==> e.keys != [])
    && |e.keys| == |tasks[e.id].scenarios|
    && forall i :: 0 <= i < |e.keys| ==> TargetOk(plan.tracking.scenarios, e.keys[i], tasks[e.id].scenarios[i])
  }

  function EntryIds(entries: seq<IncrementalTask>): (r: seq<Id>)
    ensures |r| == |entries| && forall i :: 0 <= i < |r| ==> r[i] == entries[i].id
  {
    seq(|entries|, i requires 0 <= i < |entries| => entries[i].id)
  }

  ghost predicate EntriesOk(plan: TrackedPlan, n: nat)
    requires n <= |plan.tracking.tasks|
  {
    forall i {:trigger EntryOk(plan, plan.tracking.tasks[i])} :: 0 <= i < n ==> EntryOk(plan, plan.tracking.tasks[i])
  }

  // Version, scope and hashes are well formed, and the projection is that of these tasks.
  predicate HeaderOk(h: Hashes, plan: TrackedPlan) {
    var t := plan.tracking;
    && t.version == TRACKING_VERSION && ScopeOk(h, t.spec)
    && ValidHash(t.policy) && ValidHash(t.input) && ValidHash(t.projection)
    && t.projection == h.projection(plan.tasks)
  }

  ghost predicate TrackingValid(h: Hashes, plan: TrackedPlan) {
    && HeaderOk(h, plan) && ScenariosOk(plan.tracking.scenarios)
    && plan.tracking.input == h.input(plan.tracking.policy, SortedInputs(plan.tracking.scenarios))
    && if plan.tracking.noOp then plan.tasks == [] && plan.tracking.tasks == []
       else
         && plan.tasks != [] && |plan.tracking.tasks| == |plan.tasks|
         && NoDup(EntryIds(plan.tracking.tasks))
         && EntriesOk(plan, |plan.tracking.tasks|)
  }

  // What the header of a valid plan says: this version, hashes of 64 digits, a scope that agrees
  // with the path, and the fingerprints of its own tasks and scenarios.
  ghost predicate Stated(h: Hashes, plan: TrackedPlan) {
    var t := plan.tracking;
    && t.version == 2 && |t.policy| == |t.input| == |t.projection| == 64
    && AllHex(t.policy) && AllHex(t.input) && AllHex(t.projection)
    && (t.spec.path == "" ==> "repo:" < t.spec.name)
    && (t.spec.path != "" ==> t.spec.name == "external:" + h.place(h.clean(t.spec.path)))
    && t.projection == h.projection(plan.tasks) && t.input == h.input(t.policy, SortedInputs(t.scenarios))
  }

  ghost predicate NothingListed(plan: TrackedPlan) {
    plan.tasks == [] && plan.tracking.tasks == []
  }

  // Every task is listed once: with scenarios, each under its key, if it is there for its changes,
  // and without any otherwise.
  ghost predicate AllListed(plan: TrackedPlan) {
    var entries := plan.tracking.tasks;
    && 0 < |entries| == |plan.tasks|
    && (forall i, j :: 0 <= i < j < |entries| ==> entries[i].id != entries[j].id)
    && forall i :: 0 <= i < |entries| ==> ListedAt(plan, i)
  }

  ghost predicate ListedAt(plan: TrackedPlan, i: nat)
    requires i < |plan.tracking.tasks|
  {
    var e := plan.tracking.tasks[i];
    exists k :: 0 <= k < |plan.tasks| && plan.tasks[k].id == e.id && Lists(plan, e, plan.tasks[k].scenarios)
  }

  ghost predicate Lists(plan: TrackedPlan, e: IncrementalTask, scenarios: seq<Scenario>) {
    && |e.keys| == |scenarios| && (e.reason == Changed <==> e.keys != [])
    && forall i :: 0 <= i < |scenarios| ==> Tracks(plan, e.keys[i], scenarios[i].id)
  }

  ghost predicate Tracks(plan: TrackedPlan, key: Key, id: string) {
    exists s :: s in plan.tracking.scenarios && s.key == key && s.id == id
  }

  lemma ValidIsStated(h: Hashes, plan: TrackedPlan)
    ensures TrackingValid(h, plan) ==> Stated(h, plan)
    ensures TrackingValid(h, plan) ==> if plan.tracking.noOp then NothingListed(plan) else AllListed(plan)
  {
    if TrackingValid(h, plan) {
      ScopeIsStated(h, plan.tracking.spec);
      if !plan.tracking.noOp {
        forall i: nat | i < |plan.tracking.tasks| ensures ListedAt(plan, i) {
          EntryIsListed(plan, i);
        }
        var ids := EntryIds(plan.tracking.tasks);
        assert forall i :: 0 <= i < |ids| ==> ids[i] == plan.tracking.tasks[i].id;
      }
    }
  }

  lemma ScopeIsStated(h: Hashes, scope: Scope)
    requires ScopeOk(h, scope)
    ensures scope.path == "" ==> "repo:" < scope.name
    ensures scope.path != "" ==> scope.name == "external:" + h.place(h.clean(scope.path))
  {
  }

  lemma EntryIsListed(plan: TrackedPlan, i: nat)
    requires i < |plan.tracking.tasks| && EntryOk(plan, plan.tracking.tasks[i])
    ensures ListedAt(plan, i)
  {
    var e := plan.tracking.tasks[i];
    var k := FoundById(plan.tasks, e.id);
    forall m | 0 <= m < |e.keys| ensures Tracks(plan, e.keys[m], plan.tasks[k].scenarios[m].id) {
      var j :| 0 <= j < |plan.tracking.scenarios| && plan.tracking.scenarios[j].key == e.keys[m]
        && plan.tracking.scenarios[j].id == plan.tasks[k].scenarios[m].id;
      assert plan.tracking.scenarios[j] in plan.tracking.scenarios;
    }
    assert Lists(plan, e, plan.tasks[k].scenarios);
  }

  lemma {:induction false} FoundById(tasks: seq<Task>, id: Id) returns (k: nat)
    requires id in Validator.ById(tasks)
    ensures k < |tasks| && tasks[k].id == id && Validator.ById(tasks)[id] == tasks[k]
  {
    k := |tasks| - 1;
    if tasks[k].id != id { k := FoundById(tasks[..k], id); }
  }

  // The map byKey: each key's scenario.
  ghost predicate Keyed(scenarios: seq<ScenarioTracking>, byKey: map<Key, string>) {
    && (forall key :: key in byKey <==> key in KeyOfEach(scenarios))
    && forall i :: 0 <= i < |scenarios| ==> scenarios[i].key in byKey && byKey[scenarios[i].key] == scenarios[i].id
  }

  method CheckEntry(plan: TrackedPlan, tasks: map<Id, Task>, byKey: map<Key, string>, e: IncrementalTask)
    returns (ok: bool)
    requires tasks == Validator.ById(plan.tasks)
    requires Keyed(plan.tracking.scenarios, byKey)
    ensures ok <==> EntryOk(plan, e)
  {
    if e.id !in tasks {
      return false;
    }
    var task := tasks[e.id];
    if e.reason != Changed && (|e.keys| != 0 || |task.scenarios| != 0) {
      return false;
    }
    if e.reason == Changed && |e.keys| == 0 {
      return false;
    }
    if |e.keys| != |task.scenarios| {
      return false;
    }
    for i := 0 to |e.keys|
      invariant forall k :: 0 <= k < i ==> TargetOk(plan.tracking.scenarios, e.keys[k], task.scenarios[k])
    {
      var key := e.keys[i];
      KeyedTarget(plan.tracking.scenarios, byKey, key, task.scenarios[i]);
      if key !in byKey || byKey[key] != task.scenarios[i].id {
        return false;
      }
    }
    return true;
  }

  lemma KeyedTarget(scenarios: seq<ScenarioTracking>, byKey: map<Key, string>, key: Key, c: Scenario)
    requires Keyed(scenarios, byKey)
    ensures TargetOk(scenarios, key, c) <==> key in byKey && byKey[key] == c.id
  {
    if key in byKey {
      var i :| 0 <= i < |scenarios| && KeyOfEach(scenarios)[i] == key;
      assert scenarios[i].key == key;
    }
  }

  method CheckEntries(plan: TrackedPlan, byKey: map<Key, string>) returns (ok: bool)
    requires Keyed(plan.tracking.scenarios, byKey)
    ensures ok <==> NoDup(EntryIds(plan.tracking.tasks)) && EntriesOk(plan, |plan.tracking.tasks|)
  {
    var entries, ids := plan.tracking.tasks, EntryIds(plan.tracking.tasks);
    var tasks := Validator.ById(plan.tasks);
    var seen: set<Id> := {};
    for i := 0 to |entries|
      invariant seen == Elems(ids[..i]) && NoDup(ids[..i]) && EntriesOk(plan, i)
    {
      var fine := CheckNextEntry(plan, tasks, byKey, seen, i);
      if !fine {
        return false;
      }
      seen := seen + {entries[i].id};
    }
    assert ids[..|ids|] == ids;
    return true;
  }

  // One turn of that loop.
  method CheckNextEntry(plan: TrackedPlan, tasks: map<Id, Task>, byKey: map<Key, string>, seen: set<Id>, i: nat)
    returns (ok: bool)
    requires tasks == Validator.ById(plan.tasks) && Keyed(plan.tracking.scenarios, byKey)
    requires i < |plan.tracking.tasks| && NoDup(EntryIds(plan.tracking.tasks)[..i])
    requires seen == Elems(EntryIds(plan.tracking.tasks)[..i])
    ensures ok ==> EntryOk(plan, plan.tracking.tasks[i]) && NoDup(EntryIds(plan.tracking.tasks)[..i + 1])
    ensures ok ==> seen + {plan.tracking.tasks[i].id} == Elems(EntryIds(plan.tracking.tasks)[..i + 1])
    ensures !ok ==> !EntryOk(plan, plan.tracking.tasks[i]) || !NoDup(EntryIds(plan.tracking.tasks))
  {
    NextElement(EntryIds(plan.tracking.tasks), i);
    if plan.tracking.tasks[i].id in seen {
      return false;
    }
    ok := CheckEntry(plan, tasks, byKey, plan.tracking.tasks[i]);
  }

  method ValidateTracking(h: Hashes, plan: TrackedPlan) returns (ok: bool)
    ensures ok <==> TrackingValid(h, plan)
    ensures ok ==> Stated(h, plan) && (if plan.tracking.noOp then NothingListed(plan) else AllListed(plan))
  {
    ValidIsStated(h, plan);
    var t := plan.tracking;
    if t.version != TRACKING_VERSION {
      return false;
    }
    if !ValidScope(t.spec.name) || !ValidHash(t.policy) || !ValidHash(t.input) || !ValidHash(t.projection) {
      return false;
    }
    if h.projection(plan.tasks) != t.projection {
      return false;
    }
    if HasPrefix(t.spec.name, EXTERNAL) {
      if t.spec.path == "" || EXTERNAL + h.place(h.clean(t.spec.path)) != t.spec.name {
        return false;
      }
    } else if t.spec.path != "" {
      return false;
    }
    var fine, byKey := CheckScenarios(t.scenarios);
    if !fine {
      return false;
    }
    var inputs := SortInputs(t.scenarios);
    if h.input(t.policy, inputs) != t.input {
      return false;
    }
    if t.noOp {
      return |plan.tasks| == 0 && |t.tasks| == 0;
    }
    if |plan.tasks| == 0 || |t.tasks| != |plan.tasks| {
      return false;
    }
    ok := CheckEntries(plan, byKey);
  }

  // ---------------------------------------------------- validateCarriedEvidence

  function ScenarioEvidence(scenarios: seq<ScenarioTracking>, start: map<Key, string>): map<Key, string> {
    if scenarios == [] then start
    else
      var last := scenarios[|scenarios| - 1];
      ScenarioEvidence(scenarios[..|scenarios| - 1], start)[last.key := last.fingerprint]
  }

  // The fingerprint that the base records carry for each scenario; later ones win.
  function RecordEvidence(records: seq<Record>): map<Key, string> {
    if records == [] then map[]
    else ScenarioEvidence(records[|records| - 1].scenarios, RecordEvidence(records[..|records| - 1]))
  }

  predicate Targeted(plan: TrackedPlan, key: Key, task: Id) {
    exists e :: e in plan.tracking.tasks && e.id == task && key in e.keys
  }

  predicate Carried(plan: TrackedPlan, s: ScenarioTracking) {
    var evidence := RecordEvidence(plan.tracking.baseRecords);
    s.key in evidence && evidence[s.key] == s.fingerprint
  }

  // The base record is still in the registry and stands for this integration.
  ghost predicate BaseOk(plan: TrackedPlan, files: seq<File>, integration: Commit, r: Record) {
    && Holds(r) in files && RecordOk(r, plan.tracking.spec.name)
    && r.policy == plan.tracking.policy && Ancestor(r.commit, integration)
  }

  ghost predicate BasesOk(plan: TrackedPlan, files: seq<File>, integration: Commit) {
    forall r :: r in plan.tracking.baseRecords ==> BaseOk(plan, files, integration, r)
  }

  ghost predicate EvidenceAccepts(plan: TrackedPlan, files: seq<File>, integration: Commit) {
    && BasesOk(plan, files, integration)
    && (forall s :: s in plan.tracking.scenarios ==>
         Carried(plan, s) || forall t :: t in s.tasks ==> Targeted(plan, s.key, t))
  }

  // Scenario j of record i is the last one with this key.
  ghost predicate LastAt(records: seq<Record>, i: nat, j: nat, key: Key) {
    && i < |records| && j < |records[i].scenarios| && records[i].scenarios[j].key == key
    && (forall k :: j < k < |records[i].scenarios| ==> records[i].scenarios[k].key != key)
    && forall m, k :: i < m < |records| && 0 <= k < |records[m].scenarios| ==> records[m].scenarios[k].key != key
  }

  // The last of these scenarios with this key, if any, decides; otherwise what was there before.
  lemma {:induction false} ScenarioEvidenceIs(scenarios: seq<ScenarioTracking>, start: map<Key, string>, key: Key)
    returns (j: Option<nat>)
    ensures j.Some? ==> j.value < |scenarios| && scenarios[j.value].key == key
    ensures j.Some? ==> forall k :: j.value < k < |scenarios| ==> scenarios[k].key != key
    ensures j.None? ==> forall k :: 0 <= k < |scenarios| ==> scenarios[k].key != key
    ensures var evidence := ScenarioEvidence(scenarios, start);
      if j.Some? then key in evidence && evidence[key] == scenarios[j.value].fingerprint
      else (key in evidence <==> key in start) && (key in start ==> evidence[key] == start[key])
  {
    j := None;
    if scenarios != [] {
      var n := |scenarios| - 1;
      if scenarios[n].key == key {
        j := Some(n);
      } else {
        j := ScenarioEvidenceIs(scenarios[..n], start, key);
        assert forall k :: 0 <= k < n ==> scenarios[..n][k] == scenarios[k];
      }
    }
  }

  lemma {:induction false} RecordEvidenceIs(records: seq<Record>, key: Key) returns (at: Option<(nat, nat)>)
    ensures at.Some? ==> LastAt(records, at.value.0, at.value.1, key) && key in RecordEvidence(records)
    ensures at.Some? ==>
      RecordEvidence(records)[key] == records[at.value.0].scenarios[at.value.1].fingerprint
    ensures at.None? ==> key !in RecordEvidence(records) && forall i: nat, j: nat :: !LastAt(records, i, j, key)
  {
    at := None;
    if records != [] {
      var n := |records| - 1;
      var j := ScenarioEvidenceIs(records[n].scenarios, RecordEvidence(records[..n]), key);
      if j.Some? {
        at := Some((n, j.value));
      } else {
        at := RecordEvidenceIs(records[..n], key);
        forall i: nat, j: nat ensures LastAt(records, i, j, key) <==> LastAt(records[..n], i, j, key) {
          LastInFront(records, i, j, key);
        }
      }
    }
  }

  lemma LastInFront(records: seq<Record>, i: nat, j: nat, key: Key)
    requires records != []
    requires var last := records[|records| - 1].scenarios; forall k :: 0 <= k < |last| ==> last[k].key != key
    ensures LastAt(records, i, j, key) <==> LastAt(records[..|records| - 1], i, j, key)
  {
    assert forall m :: 0 <= m < |records| - 1 ==> records[..|records| - 1][m] == records[m];
  }

  lemma LastIsUnique(records: seq<Record>, i: nat, j: nat, m: nat, k: nat, key: Key)
    requires LastAt(records, i, j, key) && LastAt(records, m, k, key)
    ensures i == m && j == k
  {
  }

  // On records, entries and scenarios alone: the last base record that knows a scenario knows it
  // with this fingerprint, or every task of the scenario is to do it.
  ghost predicate CarriedOrDone(plan: TrackedPlan, s: ScenarioTracking) {
    var records := plan.tracking.baseRecords;
    || (exists i: nat, j: nat :: LastAt(records, i, j, s.key) && records[i].scenarios[j].fingerprint == s.fingerprint)
    || forall t :: t in s.tasks ==> exists e :: e in plan.tracking.tasks && e.id == t && s.key in e.keys
  }

  lemma CarriedIs(plan: TrackedPlan, s: ScenarioTracking)
    ensures Carried(plan, s) <==> exists i: nat, j: nat ::
      LastAt(plan.tracking.baseRecords, i, j, s.key)
      && plan.tracking.baseRecords[i].scenarios[j].fingerprint == s.fingerprint
  {
    var records := plan.tracking.baseRecords;
    var at := RecordEvidenceIs(records, s.key);
    forall i: nat, j: nat | LastAt(records, i, j, s.key) ensures at == Some((i, j)) {
      if at.Some? { LastIsUnique(records, i, j, at.value.0, at.value.1, s.key); }
    }
  }

  lemma CarriedOrDoneIs(plan: TrackedPlan, s: ScenarioTracking)
    ensures CarriedOrDone(plan, s) <==> Carried(plan, s) || forall t :: t in s.tasks ==> Targeted(plan, s.key, t)
  {
    CarriedIs(plan, s);
  }

  method GatherEvidence(plan: TrackedPlan, files: seq<File>, integration: Commit)
    returns (evidence: Option<map<Key, string>>)
    ensures evidence.Some? <==> BasesOk(plan, files, integration)
    ensures evidence.Some? ==> evidence.value == RecordEvidence(plan.tracking.baseRecords)
  {
    var records := plan.tracking.baseRecords;
    var gathered: map<Key, string> := map[];
    for i := 0 to |records|
      invariant forall r :: r in records[..i] ==> BaseOk(plan, files, integration, r)
      invariant gathered == RecordEvidence(records[..i])
    {
      var record := records[i];
      assert records[..i + 1] == records[..i] + [record] && records[..i + 1][..i] == records[..i];
      var readable := ReadImplementationRecord(files, plan.tracking.spec.name, record);
      if !readable || record.policy != plan.tracking.policy || !Ancestor(record.commit, integration) {
        assert record in records && !BaseOk(plan, files, integration, record);
        return None;
      }
      ghost var before := gathered;
      for k := 0 to |record.scenarios|
        invariant gathered == ScenarioEvidence(record.scenarios[..k], before)
      {
        assert record.scenarios[..k + 1][..k] == record.scenarios[..k];
        gathered := gathered[record.scenarios[k].key := record.scenarios[k].fingerprint];
      }
      assert record.scenarios[..|record.scenarios|] == record.scenarios;
    }
    assert records[..|records|] == records;
    return Some(gathered);
  }

  lemma EvidenceIs(plan: TrackedPlan, files: seq<File>, integration: Commit)
    ensures EvidenceAccepts(plan, files, integration) <==>
      && (forall r :: r in plan.tracking.baseRecords ==>
           Holds(r) in files && Readable(r, plan.tracking.spec.name) && r.policy == plan.tracking.policy
           && Ancestor(r.commit, integration))
      && forall s :: s in plan.tracking.scenarios ==> CarriedOrDone(plan, s)
  {
    forall r ensures RecordOk(r, plan.tracking.spec.name) <==> Readable(r, plan.tracking.spec.name) {
      ReadableIs(r, plan.tracking.spec.name);
    }
    forall s
      ensures CarriedOrDone(plan, s) <==> Carried(plan, s) || forall t :: t in s.tasks ==> Targeted(plan, s.key, t)
    {
      CarriedOrDoneIs(plan, s);
    }
  }

  // targeted: which tasks have which keys.
  method GatherTargets(plan: TrackedPlan) returns (targeted: set<(Key, Id)>)
    ensures forall key, task :: (key, task) in targeted <==> Targeted(plan, key, task)
  {
    targeted := {};
    var entries := plan.tracking.tasks;
    for i := 0 to |entries|
      invariant forall key, task :: (key, task) in targeted <==>
        exists j :: 0 <= j < i && entries[j].id == task && key in entries[j].keys
    {
      var e := entries[i];
      ghost var before := targeted;
      for k := 0 to |e.keys|
        invariant forall key, task :: (key, task) in targeted <==>
          (key, task) in before || (task == e.id && key in e.keys[..k])
      {
        assert e.keys[..k + 1] == e.keys[..k] + [e.keys[k]];
        targeted := targeted + {(e.keys[k], e.id)};
      }
      assert e.keys[..|e.keys|] == e.keys;
    }
    forall key, task ensures (key, task) in targeted <==> Targeted(plan, key, task) {
      if Targeted(plan, key, task) {
        var e :| e in entries && e.id == task && key in e.keys;
        var j :| 0 <= j < |entries| && entries[j] == e;
      }
    }
  }

  method ValidateCarriedEvidence(plan: TrackedPlan, files: seq<File>, integration: Commit) returns (ok: bool)
    ensures ok <==> EvidenceAccepts(plan, files, integration)
    ensures ok <==>
      && (forall r :: r in plan.tracking.baseRecords ==>
           Holds(r) in files && Readable(r, plan.tracking.spec.name) && r.policy == plan.tracking.policy
           && Ancestor(r.commit, integration))
      && forall s :: s in plan.tracking.scenarios ==> CarriedOrDone(plan, s)
  {
    EvidenceIs(plan, files, integration);
    var evidence := GatherEvidence(plan, files, integration);
    if evidence.None? {
      return false;
    }
    var targeted := GatherTargets(plan);
    var scenarios := plan.tracking.scenarios;
    for i := 0 to |scenarios|
      invariant forall k :: 0 <= k < i ==> Carried(plan, scenarios[k]) || forall t :: t in scenarios[k].tasks ==>
        Targeted(plan, scenarios[k].key, t)
    {
      var s := scenarios[i];
      if s.key !in evidence.value || evidence.value[s.key] != s.fingerprint {
        for k := 0 to |s.tasks|
          invariant forall j :: 0 <= j < k ==> Targeted(plan, s.key, s.tasks[j])
        {
          if (s.key, s.tasks[k]) !in targeted {
            assert s in scenarios && s.tasks[k] in s.tasks && !Targeted(plan, s.key, s.tasks[k]) && !Carried(plan, s);
            return false;
          }
        }
      }
    }
    return true;
  }
}
