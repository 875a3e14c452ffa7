// workflow/incremental.go: the registry of implementation records, the choice of the
// latest trusted one, and the scenarios that have changed since.
module Snapshots {
  import opened Ids
  import opened Git

  type Key = string

  datatype ScenarioTracking = ScenarioTracking(key: Key, id: string, fingerprint: string, tasks: seq<Id>)

  // A commit as a text names it.
  datatype Revision = Revision(text: string, commit: Commit)

  // A record's file name is the hash of its content, so the record stands for its name. It
  // names its commit by `revision`.
  datatype Record = Record(version: nat, spec: string, policy: string, revision: string, commit: Commit,
                           scenarios: seq<ScenarioTracking>)

  // trustedRecords: the listed records of this scope whose commit HEAD contains.
  function Trusted(listing: seq<Record>, head: Commit): (trusted: seq<Record>) {
    if listing == [] then []
    else
      var init, last := listing[..|listing| - 1], listing[|listing| - 1];
      Trusted(init, head) + if Ancestor(last.commit, head) then [last] else []
  }

  lemma {:induction false} TrustedMultiplicity(listing: seq<Record>, head: Commit, x: Record)
    ensures multiset(Trusted(listing, head))[x] == if Ancestor(x.commit, head) then multiset(listing)[x] else 0
  {
    if listing != [] {
      var init, last := listing[..|listing| - 1], listing[|listing| - 1];
      TrustedMultiplicity(init, head, x);
      assert listing == init + [last];
    }
  }

  // Every other record's commit is a proper ancestor of this one's.
  ghost predicate Greatest(records: multiset<Record>, x: Record) {
    && records[x] == 1
    && forall y :: y in records && y != x ==> y.commit != x.commit && Ancestor(y.commit, x.commit)
  }

  ghost predicate Below(records: seq<Record>, i: nat, j: nat)
    requires i < |records| && j < |records|
  {
    records[i].commit != records[j].commit && Ancestor(records[i].commit, records[j].commit)
  }

  // No record lies strictly above this one.
  ghost predicate Maximal(records: seq<Record>, i: nat)
    requires i < |records|
  {
    forall j: nat :: j < |records| ==> !Below(records, i, j)
  }

  ghost function Above(records: seq<Record>, i: nat): set<nat>
    requires i < |records|
  {
    set j: nat | j < |records| && Below(records, i, j)
  }

  // Above every record there is a maximal one.
  lemma {:induction false} MaximalAbove(records: seq<Record>, i: nat) returns (m: nat)
    requires i < |records|
    ensures m < |records| && Maximal(records, m)
    ensures m == i || Below(records, i, m)
    decreases |Above(records, i)|
  {
    if Maximal(records, i) {
      m := i;
    } else {
      var j: nat :| j < |records| && Below(records, i, j);
      forall k | k in Above(records, j) ensures k in Above(records, i) {
        BelowIsTransitive(records, i, j, k);
      }
      assert j in Above(records, i) && j !in Above(records, j);
      assert Above(records, j) < Above(records, i);
      SubsetCardinality(Above(records, j), Above(records, i) - {j});
      m := MaximalAbove(records, j);
      if m != j { BelowIsTransitive(records, i, j, m); }
    }
  }

  lemma BelowIsTransitive(records: seq<Record>, i: nat, j: nat, k: nat)
    requires i < |records| && j < |records| && k < |records|
    requires Below(records, i, j) && Below(records, j, k)
    ensures Below(records, i, k)
  {
    AncestorIsTransitive(records[i].commit, records[j].commit, records[k].commit);
    if records[i].commit == records[k].commit {
      AncestorIsAntisymmetric(records[i].commit, records[j].commit);
    }
  }

  // A record with no maximal rival is the greatest.
  lemma OnlyMaximalIsGreatest(records: seq<Record>, i: nat)
    requires i < |records| && Maximal(records, i)
    requires forall j: nat :: j < |records| && Maximal(records, j) ==> j == i
    ensures Greatest(multiset(records), records[i])
  {
    forall j: nat | j < |records| && j != i ensures Below(records, j, i) {
      var m := MaximalAbove(records, j);
    }
    SingleOccurrence(records, i);
    forall y | y in multiset(records) && y != records[i]
      ensures y.commit != records[i].commit && Ancestor(y.commit, records[i].commit)
    {
      assert y in records;
      var j: nat :| j < |records| && records[j] == y;
      assert Below(records, j, i);
    }
  }

  lemma SingleOccurrence(records: seq<Record>, i: nat)
    requires i < |records| && forall j: nat :: j < |records| && j != i ==> Below(records, j, i)
    ensures multiset(records)[records[i]] == 1
  {
    var rest := records[..i] + records[i + 1..];
    assert records == records[..i] + [records[i]] + records[i + 1..];
    forall k | 0 <= k < |rest| ensures rest[k] != records[i] {
      assert Below(records, if k < i then k else k + 1, i);
    }
    assert multiset(records) == multiset(rest) + multiset{records[i]};
  }

  lemma GreatestIsOnlyMaximal(records: seq<Record>, i: nat, j: nat)
    requires i < |records| && j < |records| && Greatest(multiset(records), records[i])
    requires Maximal(records, j)
    ensures j == i && Maximal(records, i)
  {
    GreatestTops(records, i, j);
    if j != i && records[j] == records[i] {
      TwoOccurrences(records, i, j);
    }
  }

  lemma GreatestTops(records: seq<Record>, i: nat, j: nat)
    requires i < |records| && j < |records| && Greatest(multiset(records), records[i])
    ensures records[j] == records[i] || Below(records, j, i)
  {
    assert records[j] in multiset(records);
  }

  lemma TwoOccurrences(records: seq<Record>, i: nat, j: nat)
    requires i < |records| && j < |records| && i != j && records[i] == records[j]
    ensures multiset(records)[records[i]] >= 2
  {
    var a, b := if i < j then i else j, if i < j then j else i;
    assert records == records[..a] + [records[a]] + records[a + 1..b] + [records[b]] + records[b + 1..];
  }

  // The selection fails on a nonempty list exactly when two records are maximal:
  // incomparable, or sharing a commit.
  lemma NoneGreatestIffRivals(records: seq<Record>)
    requires records != []
    ensures (forall x :: !Greatest(multiset(records), x))
      <==> exists i: nat, j: nat :: i < j < |records| && Maximal(records, i) && Maximal(records, j)
    ensures forall i: nat, j: nat :: i < j < |records| && Maximal(records, i) && Maximal(records, j) ==>
      records[i].commit == records[j].commit
      || (!Ancestor(records[i].commit, records[j].commit) && !Ancestor(records[j].commit, records[i].commit))
  {
    var m := MaximalAbove(records, 0);
    if forall i: nat :: i < |records| && Maximal(records, i) ==> i == m {
      OnlyMaximalIsGreatest(records, m);
    } else {
      var i: nat :| i < |records| && Maximal(records, i) && i != m;
      forall x ensures !Greatest(multiset(records), x) {
        if Greatest(multiset(records), x) {
          assert x in multiset(records) && x in records;
          var k: nat :| k < |records| && records[k] == x;
          GreatestIsOnlyMaximal(records, k, i);
          GreatestIsOnlyMaximal(records, k, m);
        }
      }
    }
    forall i: nat, j: nat | i < j < |records| && Maximal(records, i) && Maximal(records, j)
      ensures records[i].commit == records[j].commit
        || (!Ancestor(records[i].commit, records[j].commit) && !Ancestor(records[j].commit, records[i].commit))
    {
      assert !Below(records, i, j) && !Below(records, j, i);
    }
  }

  // The double loop over the `maximal` flags.
  method MarkMaximal(records: seq<Record>) returns (maximal: array<bool>)
    ensures fresh(maximal) && maximal.Length == |records|
    ensures forall i: nat :: i < |records| ==> (maximal[i] <==> Maximal(records, i))
  {
    maximal := new bool[|records|](_ => true);
    for i := 0 to |records|
      invariant forall k: nat :: k < i ==> (maximal[k] <==> Maximal(records, k))
      invariant forall k: nat :: i <= k < |records| ==> maximal[k]
    {
      for j := 0 to |records|
        invariant forall k: nat :: k < i ==> (maximal[k] <==> Maximal(records, k))
        invariant forall k: nat :: i <= k < |records| ==> maximal[k]
        invariant forall k: nat :: k < j ==> !Below(records, i, k)
      {
        if i != j && records[i].commit != records[j].commit {
          if Ancestor(records[i].commit, records[j].commit) {
            assert Below(records, i, j);
            maximal[i] := false;
            break;
          }
        }
      }
    }
  }

  // The greatest of the trusted records, if there is one. The answer depends on which
  // records there are, not on their order.
  method ChooseLatest(records: seq<Record>) returns (latest: seq<Record>)
    ensures |latest| <= 1
    ensures forall x :: latest == [x] <==> Greatest(multiset(records), x)
  {
    if |records| < 2 {
      if |records| == 1 { assert records == [records[0]]; }
      return records;
    }
    var maximal := MarkMaximal(records);
    var found: seq<Record> := [];
    ghost var where: seq<nat> := [];
    for i := 0 to |records|
      invariant |found| == |where| && forall k :: 0 <= k < |where| ==>
        where[k] < i && found[k] == records[where[k]] && Maximal(records, where[k])
      invariant forall k: nat :: k < i && Maximal(records, k) ==> k in where
      invariant forall a, b :: 0 <= a < b < |where| ==> where[a] < where[b]
    {
      if maximal[i] {
        found := found + [records[i]];
        where := where + [i];
      }
    }
    Selected(records, where);
    if |found| != 1 {
      return [];
    }
    return found;
  }

  lemma Selected(records: seq<Record>, where: seq<nat>)
    requires records != []
    requires forall k :: 0 <= k < |where| ==> where[k] < |records| && Maximal(records, where[k])
    requires forall k: nat :: k < |records| && Maximal(records, k) ==> k in where
    requires forall a, b :: 0 <= a < b < |where| ==> where[a] < where[b]
    ensures |where| == 1 ==> Greatest(multiset(records), records[where[0]])
    ensures |where| == 1 ==> forall x :: Greatest(multiset(records), x) ==> x == records[where[0]]
    ensures |where| != 1 ==> forall x :: !Greatest(multiset(records), x)
  {
    if |where| == 1 {
      OnlyMaximalIsGreatest(records, where[0]);
    }
    forall x | Greatest(multiset(records), x) ensures |where| == 1 && x == records[where[0]] {
      assert x in multiset(records) && x in records;
      var k: nat :| k < |records| && records[k] == x;
      var m := MaximalAbove(records, 0);
      GreatestIsOnlyMaximal(records, k, m);
      assert m in where;
      if |where| > 1 {
        GreatestIsOnlyMaximal(records, k, where[0]);
        GreatestIsOnlyMaximal(records, k, where[1]);
      }
    }
  }

  // ------------------------------------------------------------ changed scenarios

  function Previous(scenarios: seq<ScenarioTracking>): map<Key, ScenarioTracking> {
    if scenarios == [] then map[]
    else Previous(scenarios[..|scenarios| - 1])[scenarios[|scenarios| - 1].key := scenarios[|scenarios| - 1]]
  }

  // The last scenario with the key.
  lemma {:induction false} PreviousIs(scenarios: seq<ScenarioTracking>, key: Key, x: ScenarioTracking)
    ensures (key in Previous(scenarios) && Previous(scenarios)[key] == x) <==>
      exists i :: 0 <= i < |scenarios| && scenarios[i] == x && x.key == key && LaterDiffer(scenarios, i, key)
  {
    if scenarios != [] {
      var n := |scenarios| - 1;
      PreviousIs(scenarios[..n], key, x);
      assert LaterDiffer(scenarios, n, key);
      forall i | 0 <= i < n
        ensures LaterDiffer(scenarios, i, key) <==> LaterDiffer(scenarios[..n], i, key) && scenarios[n].key != key
      {
        assert forall k :: 0 <= k < n ==> scenarios[..n][k] == scenarios[k];
      }
    }
  }

  ghost predicate LaterDiffer(scenarios: seq<ScenarioTracking>, i: int, key: Key) {
    forall k :: 0 <= i < k < |scenarios| ==> scenarios[k].key != key
  }

  predicate Unchanged(policy: string, bases: seq<Record>, s: ScenarioTracking) {
    && |bases| == 1 && bases[0].policy == policy
    && var previous := Previous(bases[0].scenarios);
       s.key in previous && previous[s.key].fingerprint == s.fingerprint && previous[s.key].tasks == s.tasks
  }

  // changedScenarioKeys
  method ChangedKeys(current: seq<ScenarioTracking>, policy: string, bases: seq<Record>) returns (changed: set<Key>)
    ensures forall key :: key in changed <==>
      exists i :: 0 <= i < |current| && current[i].key == key && !Unchanged(policy, bases, current[i])
  {
    changed := {};
    if |bases| != 1 || bases[0].policy != policy {
      for i := 0 to |current|
        invariant forall key :: key in changed <==>
          exists k :: 0 <= k < i && current[k].key == key && !Unchanged(policy, bases, current[k])
      {
        changed := changed + {current[i].key};
      }
      return;
    }
    var base := bases[0].scenarios;
    var previous: map<Key, ScenarioTracking> := map[];
    for i := 0 to |base|
      invariant previous == Previous(base[..i])
    {
      assert base[..i + 1][..i] == base[..i];
      previous := previous[base[i].key := base[i]];
    }
    assert base[..|base|] == base;
    for i := 0 to |current|
      invariant forall key :: key in changed <==>
        exists k :: 0 <= k < i && current[k].key == key && !Unchanged(policy, bases, current[k])
    {
      var s := current[i];
      if s.key !in previous || previous[s.key].fingerprint != s.fingerprint || previous[s.key].tasks != s.tasks {
        changed := changed + {s.key};
      }
    }
  }
}
