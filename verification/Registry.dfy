// workflow/incremental.go: the files of the registry, which hold implementation records
// under the hash of their content, and what is refused when they are read.
module Registry {
  import opened Ids
  import opened Texts
  import opened Git
  import opened Snapshots
  import opened Metadata

  // A file of the scope's directory: nothing when it cannot be read, is not named by its
  // content or does not decode.
  datatype File = Damaged | Holds(record: Record)

  predicate SafeTasks(s: ScenarioTracking) {
    forall i :: 0 <= i < |s.tasks| ==> SafeName(s.tasks[i])
  }

  ghost predicate AllSafe(scenarios: seq<ScenarioTracking>) {
    forall i :: 0 <= i < |scenarios| ==> SafeTasks(scenarios[i])
  }

  const REGISTRY_VERSION: nat := 1

  ghost predicate RecordOk(x: Record, scope: string) {
    && x.version == REGISTRY_VERSION && x.spec == scope && ValidHash(x.policy) && ValidObjectId(x.revision)
    && ScenariosOk(x.scenarios) && AllSafe(x.scenarios)
  }

  // On the fields of a record alone.
  ghost predicate Readable(x: Record, scope: string) {
    && x.version == 1 && x.spec == scope && |x.policy| == 64 && AllHex(x.policy)
    && |x.revision| in {40, 64} && AllHex(x.revision) && ScenariosOk(x.scenarios)
    && forall s, t :: s in x.scenarios && t in s.tasks ==> SafeName(t)
  }

  lemma ReadableIs(x: Record, scope: string)
    ensures RecordOk(x, scope) <==> Readable(x, scope)
  {
    SafeTasksAre(x.scenarios);
  }

  lemma SafeTasksAre(scenarios: seq<ScenarioTracking>)
    ensures AllSafe(scenarios) <==> forall s, t :: s in scenarios && t in s.tasks ==> SafeName(t)
  {
    if AllSafe(scenarios) {
      forall s, t | s in scenarios && t in s.tasks ensures SafeName(t) {
        var i :| 0 <= i < |scenarios| && scenarios[i] == s;
        assert SafeTasks(scenarios[i]);
      }
    }
  }

  method ValidateImplementationRecord(x: Record, scope: string) returns (ok: bool)
    ensures ok <==> RecordOk(x, scope)
    ensures ok <==> Readable(x, scope)
  {
    ReadableIs(x, scope);
    if x.version != REGISTRY_VERSION || x.spec != scope || !ValidHash(x.policy) || !ValidObjectId(x.revision) {
      return false;
    }
    var byKey;
    ok, byKey := CheckScenarios(x.scenarios);
    if !ok {
      return;
    }
    ok := CheckSafe(x.scenarios);
  }

  method CheckSafe(scenarios: seq<ScenarioTracking>) returns (ok: bool)
    ensures ok <==> AllSafe(scenarios)
  {
    for i := 0 to |scenarios|
      invariant AllSafe(scenarios[..i])
    {
      assert scenarios[..i + 1] == scenarios[..i] + [scenarios[i]];
      if !SafeTasks(scenarios[i]) {
        return false;
      }
    }
    assert scenarios[..|scenarios|] == scenarios;
    return true;
  }

  ghost predicate FileOk(f: File, scope: string) {
    f.Holds? && RecordOk(f.record, scope)
  }

  ghost predicate Intact(files: seq<File>, scope: string) {
    forall f :: f in files ==> FileOk(f, scope)
  }

  function Listing(files: seq<File>): seq<Record> {
    if files == [] then []
    else
      var last := files[|files| - 1];
      Listing(files[..|files| - 1]) + if last.Holds? then [last.record] else []
  }

  lemma {:induction false} ListingHas(files: seq<File>, x: Record)
    ensures x in Listing(files) <==> Holds(x) in files
    ensures multiset(Listing(files))[x] == multiset(files)[Holds(x)]
  {
    if files != [] {
      var init, last := files[..|files| - 1], files[|files| - 1];
      ListingHas(init, x);
      assert files == init + [last];
      assert last.Holds? ==> Listing(files) == Listing(init) + [last.record];
    }
  }

  // One damaged or invalid file, trusted or not, and nothing is read at all.
  method TrustedRecords(files: seq<File>, scope: string, head: Commit) returns (r: Option<seq<Record>>)
    ensures r.Some? <==> Intact(files, scope)
    ensures r.Some? ==> r.value == Trusted(Listing(files), head)
  {
    var records: seq<Record> := [];
    for i := 0 to |files|
      invariant Intact(files[..i], scope) && records == Trusted(Listing(files[..i]), head)
    {
      assert files[..i + 1] == files[..i] + [files[i]] && files[..i + 1][..i] == files[..i];
      var next := ReadTrusted(files[i], scope, head);
      if next.None? {
        assert files[i] in files;
        return None;
      }
      TrustedSnoc(files[..i], files[i], head);
      records := records + next.value;
    }
    assert files[..|files|] == files;
    return Some(records);
  }

  // One file: none, or the record if HEAD contains its commit.
  method ReadTrusted(f: File, scope: string, head: Commit) returns (r: Option<seq<Record>>)
    ensures r.Some? <==> FileOk(f, scope)
    ensures r.Some? ==> r.value == if Ancestor(f.record.commit, head) then [f.record] else []
  {
    if f.Damaged? {
      return None;
    }
    var valid := ValidateImplementationRecord(f.record, scope);
    if !valid {
      return None;
    }
    return Some(if Ancestor(f.record.commit, head) then [f.record] else []);
  }

  lemma TrustedSnoc(files: seq<File>, f: File, head: Commit)
    requires f.Holds?
    ensures Trusted(Listing(files + [f]), head) ==
      Trusted(Listing(files), head) + if Ancestor(f.record.commit, head) then [f.record] else []
  {
    assert (files + [f])[..|files|] == files;
    var listing := Listing(files + [f]);
    assert listing[..|listing| - 1] == Listing(files);
  }

  // latestTrustedSnapshots: the greatest trusted record, if there is one.
  method LatestTrusted(files: seq<File>, scope: string, head: Commit) returns (latest: Option<seq<Record>>)
    ensures latest.Some? <==> Intact(files, scope)
    ensures latest.Some? ==> |latest.value| <= 1
    ensures latest.Some? ==> forall x :: latest.value == [x] <==> Greatest(multiset(Trusted(Listing(files), head)), x)
  {
    var records := TrustedRecords(files, scope, head);
    if records.None? {
      return None;
    }
    var chosen := ChooseLatest(records.value);
    return Some(chosen);
  }

  // readImplementationRecord: the record under this name.
  method ReadImplementationRecord(files: seq<File>, scope: string, x: Record) returns (ok: bool)
    ensures ok <==> Holds(x) in files && RecordOk(x, scope)
  {
    if Holds(x) !in files {
      return false;
    }
    ok := ValidateImplementationRecord(x, scope);
  }
}
