// workflow/incremental.go: the metadata kept of each scenario, in plans and in records;
// its checks, and its order.
module Metadata {
  import opened Ids
  import opened Texts
  import opened Snapshots

  function IdOfEach(scenarios: seq<ScenarioTracking>): (r: seq<string>)
    ensures |r| == |scenarios| && forall i :: 0 <= i < |r| ==> r[i] == scenarios[i].id
  {
    seq(|scenarios|, i requires 0 <= i < |scenarios| => scenarios[i].id)
  }

  function KeyOfEach(scenarios: seq<ScenarioTracking>): (r: seq<Key>)
    ensures |r| == |scenarios| && forall i :: 0 <= i < |r| ==> r[i] == scenarios[i].key
  {
    seq(|scenarios|, i requires 0 <= i < |scenarios| => scenarios[i].key)
  }

  predicate ScenarioOk(s: ScenarioTracking) {
    && ValidHash(s.key) && ValidHash(s.fingerprint) && !Blank(s.id)
    && s.tasks != [] && NoDup(s.tasks) && forall i :: 0 <= i < |s.tasks| ==> !Blank(s.tasks[i])
  }

  ghost predicate ScenariosOk(scenarios: seq<ScenarioTracking>) {
    && NoDup(KeyOfEach(scenarios)) && NoDup(IdOfEach(scenarios))
    && forall i :: 0 <= i < |scenarios| ==> ScenarioOk(scenarios[i])
  }

  method CheckScenario(s: ScenarioTracking) returns (ok: bool)
    ensures ok <==> ScenarioOk(s)
    ensures ok <==>
      && |s.key| == 64 == |s.fingerprint| && AllHex(s.key) && AllHex(s.fingerprint) && !Blank(s.id)
      && s.tasks != [] && NoDup(s.tasks) && forall x :: x in s.tasks ==> !Blank(x)
  {
    if !ValidHash(s.key) || !ValidHash(s.fingerprint) || Blank(s.id) {
      return false;
    }
    ok := CheckTaskList(s);
  }

  // Its tasks: at least one, none blank and none twice.
  method CheckTaskList(s: ScenarioTracking) returns (ok: bool)
    ensures ok <==> s.tasks != [] && NoDup(s.tasks) && forall i :: 0 <= i < |s.tasks| ==> !Blank(s.tasks[i])
  {
    var seen: set<Id> := {};
    for i := 0 to |s.tasks|
      invariant seen == Elems(s.tasks[..i]) && NoDup(s.tasks[..i]) && (seen == {} <==> i == 0)
      invariant forall k :: 0 <= k < i ==> !Blank(s.tasks[k])
    {
      NextElement(s.tasks, i);
      if Blank(s.tasks[i]) || s.tasks[i] in seen {
        return false;
      }
      seen := seen + {s.tasks[i]};
    }
    assert s.tasks[..|s.tasks|] == s.tasks;
    return seen != {};
  }

  lemma NextElement(ids: seq<Id>, i: nat)
    requires i < |ids| && NoDup(ids[..i])
    ensures Elems(ids[..i + 1]) == Elems(ids[..i]) + {ids[i]}
    ensures if ids[i] in Elems(ids[..i]) then !NoDup(ids) else NoDup(ids[..i + 1])
  {
    assert ids[..i + 1] == ids[..i] + [ids[i]];
    ElemsSnoc(ids[..i], ids[i]);
    if ids[i] in ids[..i] {
      var k :| 0 <= k < i && ids[..i][k] == ids[i];
      assert ids[k] == ids[i];
    } else {
      NoDupSnoc(ids[..i], ids[i]);
    }
  }

  // The maps byKey and byID over the scenarios before n.
  ghost predicate Indexed(scenarios: seq<ScenarioTracking>, n: nat, byKey: map<Key, string>, ids: set<string>)
    requires n <= |scenarios|
  {
    && byKey.Keys == Elems(KeyOfEach(scenarios)[..n]) && ids == Elems(IdOfEach(scenarios)[..n])
    && LooksUp(scenarios, n, byKey)
  }

  lemma IndexedNext(scenarios: seq<ScenarioTracking>, n: nat, byKey: map<Key, string>, ids: set<string>)
    requires n < |scenarios| && Indexed(scenarios, n, byKey, ids) && ScenariosOk(scenarios[..n])
    requires scenarios[n].key !in byKey && scenarios[n].id !in ids && ScenarioOk(scenarios[n])
    ensures Indexed(scenarios, n + 1, byKey[scenarios[n].key := scenarios[n].id], ids + {scenarios[n].id})
    ensures ScenariosOk(scenarios[..n + 1])
  {
    IndexGrows(scenarios, n, byKey, ids);
    OkGrows(scenarios, n);
  }

  lemma IndexGrows(scenarios: seq<ScenarioTracking>, n: nat, byKey: map<Key, string>, ids: set<string>)
    requires n < |scenarios| && Indexed(scenarios, n, byKey, ids) && scenarios[n].key !in byKey
    requires NoDup(KeyOfEach(scenarios[..n])) && NoDup(IdOfEach(scenarios[..n]))
    ensures Indexed(scenarios, n + 1, byKey[scenarios[n].key := scenarios[n].id], ids + {scenarios[n].id})
  {
    KeyNext(scenarios, n);
    IdNext(scenarios, n);
    MapGrows(byKey, scenarios[n].key, scenarios[n].id);
    LooksUpNext(scenarios, n, byKey);
  }

  lemma MapGrows(byKey: map<Key, string>, key: Key, id: string)
    ensures byKey[key := id].Keys == byKey.Keys + {key}
  {
  }

  // Each of the first n scenarios is found under its key.
  ghost predicate LooksUp(scenarios: seq<ScenarioTracking>, n: nat, byKey: map<Key, string>)
    requires n <= |scenarios|
  {
    forall k :: 0 <= k < n ==> scenarios[k].key in byKey && byKey[scenarios[k].key] == scenarios[k].id
  }

  lemma LooksUpNext(scenarios: seq<ScenarioTracking>, n: nat, byKey: map<Key, string>)
    requires n < |scenarios| && LooksUp(scenarios, n, byKey) && scenarios[n].key !in byKey
    ensures LooksUp(scenarios, n + 1, byKey[scenarios[n].key := scenarios[n].id])
  {
  }

  lemma OkGrows(scenarios: seq<ScenarioTracking>, n: nat)
    requires n < |scenarios| && ScenariosOk(scenarios[..n]) && ScenarioOk(scenarios[n])
    requires scenarios[n].key !in Elems(KeyOfEach(scenarios)[..n])
    requires scenarios[n].id !in Elems(IdOfEach(scenarios)[..n])
    ensures ScenariosOk(scenarios[..n + 1])
  {
    KeyNext(scenarios, n);
    IdNext(scenarios, n);
    assert scenarios[..n + 1] == scenarios[..n] + [scenarios[n]];
  }

  lemma KeyNext(scenarios: seq<ScenarioTracking>, n: nat)
    requires n < |scenarios| && NoDup(KeyOfEach(scenarios[..n]))
    ensures KeyOfEach(scenarios)[..n + 1] == KeyOfEach(scenarios[..n + 1])
    ensures Elems(KeyOfEach(scenarios)[..n + 1]) == Elems(KeyOfEach(scenarios)[..n]) + {scenarios[n].key}
    ensures scenarios[n].key !in Elems(KeyOfEach(scenarios)[..n]) ==> NoDup(KeyOfEach(scenarios[..n + 1]))
  {
    var keys := KeyOfEach(scenarios);
    assert KeyOfEach(scenarios[..n]) == keys[..n];
    assert KeyOfEach(scenarios[..n + 1]) == keys[..n + 1];
    NextElement(keys[..n + 1], n);
    assert keys[..n + 1][..n] == keys[..n] && keys[..n + 1][..n + 1] == keys[..n + 1];
  }

  lemma IdNext(scenarios: seq<ScenarioTracking>, n: nat)
    requires n < |scenarios| && NoDup(IdOfEach(scenarios[..n]))
    ensures IdOfEach(scenarios)[..n + 1] == IdOfEach(scenarios[..n + 1])
    ensures Elems(IdOfEach(scenarios)[..n + 1]) == Elems(IdOfEach(scenarios)[..n]) + {scenarios[n].id}
    ensures scenarios[n].id !in Elems(IdOfEach(scenarios)[..n]) ==> NoDup(IdOfEach(scenarios[..n + 1]))
  {
    var ids := IdOfEach(scenarios);
    assert IdOfEach(scenarios[..n]) == ids[..n];
    assert IdOfEach(scenarios[..n + 1]) == ids[..n + 1];
    NextElement(ids[..n + 1], n);
    assert ids[..n + 1][..n] == ids[..n] && ids[..n + 1][..n + 1] == ids[..n + 1];
  }

  lemma RepeatedTracking(scenarios: seq<ScenarioTracking>, n: nat, byKey: map<Key, string>, ids: set<string>)
    requires n < |scenarios| && Indexed(scenarios, n, byKey, ids)
    ensures scenarios[n].key in byKey || scenarios[n].id in ids ==> !ScenariosOk(scenarios)
  {
    var keys, texts := KeyOfEach(scenarios), IdOfEach(scenarios);
    if scenarios[n].key in byKey {
      var k :| 0 <= k < n && keys[k] == keys[n];
    } else if scenarios[n].id in ids {
      var k :| 0 <= k < n && texts[k] == texts[n];
    }
  }

  method CheckScenarios(scenarios: seq<ScenarioTracking>) returns (ok: bool, byKey: map<Key, string>)
    ensures ok <==> ScenariosOk(scenarios)
    ensures ok ==> forall i, j :: 0 <= i < j < |scenarios| ==>
      scenarios[i].key != scenarios[j].key && scenarios[i].id != scenarios[j].id
    ensures ok ==> forall i :: 0 <= i < |scenarios| ==>
      && |scenarios[i].key| == 64 == |scenarios[i].fingerprint|
      && AllHex(scenarios[i].key) && AllHex(scenarios[i].fingerprint) && !Blank(scenarios[i].id)
      && scenarios[i].tasks != [] && NoDup(scenarios[i].tasks) && forall x :: x in scenarios[i].tasks ==> !Blank(x)
    ensures ok ==> forall key :: key in byKey <==> key in KeyOfEach(scenarios)
    ensures ok ==> forall i :: 0 <= i < |scenarios| ==> byKey[scenarios[i].key] == scenarios[i].id
  {
    byKey := map[];
    var ids: set<string> := {};
    for i := 0 to |scenarios|
      invariant Indexed(scenarios, i, byKey, ids) && ScenariosOk(scenarios[..i])
    {
      var s := scenarios[i];
      RepeatedTracking(scenarios, i, byKey, ids);
      if s.key in byKey {
        return false, byKey;
      }
      if s.id in ids {
        return false, byKey;
      }
      var fine := CheckScenario(s);
      if !fine {
        return false, byKey;
      }
      IndexedNext(scenarios, i, byKey, ids);
      byKey := byKey[s.key := s.id];
      ids := ids + {s.id};
    }
    assert scenarios[..|scenarios|] == scenarios;
    assert KeyOfEach(scenarios)[..|scenarios|] == KeyOfEach(scenarios);
    return true, byKey;
  }

  // ------------------------------------------------------------ scenarioTrackingSnapshot

  // With distinct keys, every scenario is found under its own.
  lemma {:induction false} PreviousKeepsDistinct(scenarios: seq<ScenarioTracking>, i: nat)
    requires NoDup(KeyOfEach(scenarios)) && i < |scenarios|
    ensures scenarios[i].key in Previous(scenarios) && Previous(scenarios)[scenarios[i].key] == scenarios[i]
    decreases |scenarios|
  {
    if i < |scenarios| - 1 {
      var init := scenarios[..|scenarios| - 1];
      assert KeyOfEach(init) == KeyOfEach(scenarios)[..|scenarios| - 1];
      assert KeyOfEach(scenarios)[i] != KeyOfEach(scenarios)[|scenarios| - 1];
      PreviousKeepsDistinct(init, i);
    }
  }

  // Where a key is.
  lemma KeyIsAt(scenarios: seq<ScenarioTracking>, key: Key) returns (i: nat)
    requires NoDup(KeyOfEach(scenarios)) && key in Elems(KeyOfEach(scenarios))
    ensures i < |scenarios| && scenarios[i].key == key
    ensures key in Previous(scenarios) && Previous(scenarios)[key] == scenarios[i]
  {
    i :| 0 <= i < |scenarios| && KeyOfEach(scenarios)[i] == key;
    PreviousKeepsDistinct(scenarios, i);
  }

  // The scenarios, whose keys are distinct, in the order of their keys.
  ghost predicate IsSnapshot(scenarios: seq<ScenarioTracking>, r: seq<ScenarioTracking>) {
    KeyOfEach(r) == Ascending(Elems(KeyOfEach(scenarios))) && forall s :: s in r <==> s in scenarios
  }

  lemma InSnapshot(scenarios: seq<ScenarioTracking>, keys: seq<Key>, at: map<Key, ScenarioTracking>,
                   r: seq<ScenarioTracking>, i: nat)
    requires i < |scenarios| && scenarios[i].key in keys
    requires |r| == |keys| && forall k :: 0 <= k < |r| ==> keys[k] in at && r[k] == at[keys[k]]
    requires scenarios[i].key in at && at[scenarios[i].key] == scenarios[i]
    ensures scenarios[i] in r
  {
    var k :| 0 <= k < |keys| && keys[k] == scenarios[i].key;
    assert r[k] == scenarios[i];
  }

  // Each key looked up gives the snapshot.
  lemma LookedUpIsSnapshot(scenarios: seq<ScenarioTracking>, keys: seq<Key>, r: seq<ScenarioTracking>)
    requires NoDup(KeyOfEach(scenarios)) && keys == Ascending(Elems(KeyOfEach(scenarios)))
    requires |r| == |keys| && forall k :: 0 <= k < |r| ==>
      keys[k] in Previous(scenarios) && r[k] == Previous(scenarios)[keys[k]]
    ensures IsSnapshot(scenarios, r)
  {
    forall k | 0 <= k < |r| ensures r[k].key == keys[k] && r[k] in scenarios {
      var i := KeyIsAt(scenarios, keys[k]);
    }
    forall s | s in scenarios ensures s in r {
      var i :| 0 <= i < |scenarios| && scenarios[i] == s;
      assert KeyOfEach(scenarios)[i] == s.key;
      PreviousKeepsDistinct(scenarios, i);
      InSnapshot(scenarios, keys, Previous(scenarios), r, i);
    }
  }

  // There is only one: the order in which the scenarios were read does not show in it.
  lemma SnapshotIgnoresOrder(a: seq<ScenarioTracking>, x: seq<ScenarioTracking>, b: seq<ScenarioTracking>,
                             y: seq<ScenarioTracking>)
    requires NoDup(KeyOfEach(a)) && IsSnapshot(a, x) && IsSnapshot(b, y) && forall s :: s in a <==> s in b
    ensures x == y
  {
    SameKeys(a, b);
    assert KeyOfEach(x) == KeyOfEach(y);
    forall i | 0 <= i < |x| ensures x[i] == y[i] {
      assert KeyOfEach(x)[i] == KeyOfEach(y)[i];
      assert x[i] in x && y[i] in y;
      KeyDecides(a, x[i], y[i]);
    }
  }

  lemma KeyDecides(a: seq<ScenarioTracking>, s: ScenarioTracking, t: ScenarioTracking)
    requires NoDup(KeyOfEach(a)) && s in a && t in a && s.key == t.key
    ensures s == t
  {
    var j :| 0 <= j < |a| && a[j] == s;
    var k :| 0 <= k < |a| && a[k] == t;
    assert KeyOfEach(a)[j] == KeyOfEach(a)[k];
  }

  lemma SameKeys(a: seq<ScenarioTracking>, b: seq<ScenarioTracking>)
    requires forall s :: s in a <==> s in b
    ensures Elems(KeyOfEach(a)) == Elems(KeyOfEach(b))
  {
    forall key ensures key in KeyOfEach(a) <==> key in KeyOfEach(b) {
      if key in KeyOfEach(a) { HasKey(a, b, key); }
      if key in KeyOfEach(b) { HasKey(b, a, key); }
    }
  }

  lemma HasKey(a: seq<ScenarioTracking>, b: seq<ScenarioTracking>, key: Key)
    requires (forall s :: s in a ==> s in b) && key in KeyOfEach(a)
    ensures key in KeyOfEach(b)
  {
    var i :| 0 <= i < |a| && KeyOfEach(a)[i] == key;
    assert a[i] in b;
    var j :| 0 <= j < |b| && b[j] == a[i];
    assert KeyOfEach(b)[j] == key;
  }

  // It repeats neither keys nor identifiers.
  lemma SnapshotIsDistinct(scenarios: seq<ScenarioTracking>, r: seq<ScenarioTracking>)
    requires NoDup(KeyOfEach(scenarios)) && NoDup(IdOfEach(scenarios)) && IsSnapshot(scenarios, r)
    ensures NoDup(KeyOfEach(r)) && NoDup(IdOfEach(r))
  {
    AscendingIsDistinct(Elems(KeyOfEach(scenarios)));
    forall i, j | 0 <= i < j < |r| ensures r[i].id != r[j].id {
      assert KeyOfEach(r)[i] != KeyOfEach(r)[j];
      assert r[i] in scenarios && r[j] in scenarios;
      var a :| 0 <= a < |scenarios| && scenarios[a] == r[i];
      var b :| 0 <= b < |scenarios| && scenarios[b] == r[j];
      assert IdOfEach(scenarios)[a] != IdOfEach(scenarios)[b];
    }
  }

  // The sort: the keys sorted, and each scenario under its key.
  method TakeSnapshot(scenarios: seq<ScenarioTracking>) returns (r: seq<ScenarioTracking>)
    requires NoDup(KeyOfEach(scenarios))
    ensures IsSnapshot(scenarios, r)
    ensures forall s :: s in r <==> s in scenarios
    ensures forall i, j :: 0 <= i < j < |r| ==> Before(r[i].key, r[j].key)
  {
    var keys := SortStrings(KeyOfEach(scenarios));
    var at := Previous(scenarios);
    r := [];
    for k := 0 to |keys|
      invariant |r| == k && forall i :: 0 <= i < k ==> keys[i] in at && r[i] == at[keys[i]]
    {
      ghost var i := KeyIsAt(scenarios, keys[k]);
      r := r + [at[keys[k]]];
    }
    LookedUpIsSnapshot(scenarios, keys, r);
    SnapshotIsSorted(scenarios, r);
  }

  lemma SnapshotIsSorted(scenarios: seq<ScenarioTracking>, r: seq<ScenarioTracking>)
    requires IsSnapshot(scenarios, r)
    ensures forall i, j :: 0 <= i < j < |r| ==> Before(r[i].key, r[j].key)
  {
    AscendingIsSorted(Elems(KeyOfEach(scenarios)));
    assert forall i :: 0 <= i < |r| ==> KeyOfEach(r)[i] == r[i].key;
  }

  // ---------------------------------------------------------- trackingInputFingerprint

  // What the input fingerprint is about; identifiers, which depend on lines, are not.
  datatype Input = Input(key: Key, fingerprint: string, tasks: seq<Id>)

  function InputOf(s: ScenarioTracking): Input {
    Input(s.key, s.fingerprint, s.tasks)
  }

  lemma {:induction false} KeyFound(scenarios: seq<ScenarioTracking>, key: Key)
    requires key in KeyOfEach(scenarios)
    ensures key in Previous(scenarios)
  {
    var n := |scenarios| - 1;
    assert KeyOfEach(scenarios) == KeyOfEach(scenarios[..n]) + [scenarios[n].key];
    if key != scenarios[n].key { KeyFound(scenarios[..n], key); }
  }

  // The inputs of the scenarios, sorted by key.
  ghost function SortedInputs(scenarios: seq<ScenarioTracking>): (r: seq<Input>)
    ensures |r| == |Ascending(Elems(KeyOfEach(scenarios)))|
  {
    var keys := Ascending(Elems(KeyOfEach(scenarios)));
    seq(|keys|, i requires 0 <= i < |keys| =>
      assert keys[i] in keys; KeyFound(scenarios, keys[i]);
      InputOf(Previous(scenarios)[keys[i]]))
  }

  ghost predicate HasInput(scenarios: seq<ScenarioTracking>, x: Input) {
    exists s :: s in scenarios && InputOf(s) == x
  }

  // Key, fingerprint and tasks of every scenario of either are those of one of the other.
  ghost predicate SameInputs(a: seq<ScenarioTracking>, b: seq<ScenarioTracking>) {
    forall x :: HasInput(a, x) <==> HasInput(b, x)
  }

  lemma SortedInputAt(scenarios: seq<ScenarioTracking>, i: nat) returns (s: ScenarioTracking)
    requires NoDup(KeyOfEach(scenarios)) && i < |SortedInputs(scenarios)|
    ensures s in scenarios && SortedInputs(scenarios)[i] == InputOf(s)
    ensures s.key == Ascending(Elems(KeyOfEach(scenarios)))[i]
  {
    var keys := Ascending(Elems(KeyOfEach(scenarios)));
    assert keys[i] in keys;
    var k := KeyIsAt(scenarios, keys[i]);
    s := scenarios[k];
  }

  lemma HasSortedInput(scenarios: seq<ScenarioTracking>, s: ScenarioTracking) returns (i: nat)
    requires NoDup(KeyOfEach(scenarios)) && s in scenarios
    ensures i < |SortedInputs(scenarios)| && SortedInputs(scenarios)[i] == InputOf(s)
  {
    var keys := Ascending(Elems(KeyOfEach(scenarios)));
    var k :| 0 <= k < |scenarios| && scenarios[k] == s;
    assert KeyOfEach(scenarios)[k] == s.key;
    assert s.key in Elems(KeyOfEach(scenarios)) && s.key in keys;
    i :| 0 <= i < |keys| && keys[i] == s.key;
    var t := SortedInputAt(scenarios, i);
    KeyDecides(scenarios, s, t);
  }

  lemma InputsHaveKeys(a: seq<ScenarioTracking>, b: seq<ScenarioTracking>)
    requires SameInputs(a, b)
    ensures Elems(KeyOfEach(a)) == Elems(KeyOfEach(b))
  {
    forall key ensures key in KeyOfEach(a) <==> key in KeyOfEach(b) {
      if key in KeyOfEach(a) { InputHasKey(a, b, key); }
      if key in KeyOfEach(b) { InputHasKey(b, a, key); }
    }
  }

  lemma InputHasKey(a: seq<ScenarioTracking>, b: seq<ScenarioTracking>, key: Key)
    requires (forall x :: HasInput(a, x) ==> HasInput(b, x)) && key in KeyOfEach(a)
    ensures key in KeyOfEach(b)
  {
    var i :| 0 <= i < |a| && KeyOfEach(a)[i] == key;
    assert HasInput(a, InputOf(a[i]));
    var s :| s in b && InputOf(s) == InputOf(a[i]);
    var j :| 0 <= j < |b| && b[j] == s;
    assert KeyOfEach(b)[j] == key;
  }

  // The sorted inputs tell apart exactly the sets of inputs.
  lemma SortedInputsDecide(a: seq<ScenarioTracking>, b: seq<ScenarioTracking>)
    requires NoDup(KeyOfEach(a)) && NoDup(KeyOfEach(b))
    ensures SortedInputs(a) == SortedInputs(b) <==> SameInputs(a, b)
  {
    if SortedInputs(a) == SortedInputs(b) {
      forall x ensures HasInput(a, x) <==> HasInput(b, x) {
        if HasInput(a, x) { InputCarries(a, b, x); }
        if HasInput(b, x) { InputCarries(b, a, x); }
      }
    }
    if SameInputs(a, b) {
      InputsHaveKeys(a, b);
      forall i | 0 <= i < |SortedInputs(a)| ensures SortedInputs(a)[i] == SortedInputs(b)[i] {
        SameInputAt(a, b, i);
      }
    }
  }

  lemma InputCarries(a: seq<ScenarioTracking>, b: seq<ScenarioTracking>, x: Input)
    requires NoDup(KeyOfEach(a)) && NoDup(KeyOfEach(b)) && SortedInputs(a) == SortedInputs(b) && HasInput(a, x)
    ensures HasInput(b, x)
  {
    var s :| s in a && InputOf(s) == x;
    var i := HasSortedInput(a, s);
    var t := SortedInputAt(b, i);
  }

  lemma SameInputAt(a: seq<ScenarioTracking>, b: seq<ScenarioTracking>, i: nat)
    requires NoDup(KeyOfEach(a)) && NoDup(KeyOfEach(b)) && Elems(KeyOfEach(a)) == Elems(KeyOfEach(b))
    requires SameInputs(a, b) && i < |SortedInputs(a)|
    ensures i < |SortedInputs(b)| && SortedInputs(a)[i] == SortedInputs(b)[i]
  {
    var s := SortedInputAt(a, i);
    var t := SortedInputAt(b, i);
    assert HasInput(a, InputOf(s));
    var u :| u in b && InputOf(u) == InputOf(s);
    KeyDecides(b, t, u);
  }

  // The same scenarios have the same inputs, whatever their order.
  lemma SameScenariosSameInputs(a: seq<ScenarioTracking>, b: seq<ScenarioTracking>)
    requires forall s :: s in a <==> s in b
    ensures SameInputs(a, b)
  {
  }

  lemma SortedInputIs(scenarios: seq<ScenarioTracking>, k: nat)
    requires k < |SortedInputs(scenarios)|
    ensures var key := Ascending(Elems(KeyOfEach(scenarios)))[k];
      key in Previous(scenarios) && SortedInputs(scenarios)[k] == InputOf(Previous(scenarios)[key])
  {
    var keys := Ascending(Elems(KeyOfEach(scenarios)));
    assert keys[k] in keys;
    KeyFound(scenarios, keys[k]);
  }

  method SortInputs(scenarios: seq<ScenarioTracking>) returns (r: seq<Input>)
    requires NoDup(KeyOfEach(scenarios))
    ensures r == SortedInputs(scenarios)
  {
    var keys := SortStrings(KeyOfEach(scenarios));
    forall k | 0 <= k < |keys| ensures keys[k] in Previous(scenarios) {
      SortedInputIs(scenarios, k);
    }
    r := LookUpInputs(keys, Previous(scenarios));
    forall k | 0 <= k < |keys| ensures r[k] == SortedInputs(scenarios)[k] {
      SortedInputIs(scenarios, k);
    }
  }

  method LookUpInputs(keys: seq<Key>, at: map<Key, ScenarioTracking>) returns (r: seq<Input>)
    requires forall k :: 0 <= k < |keys| ==> keys[k] in at
    ensures |r| == |keys| && forall k :: 0 <= k < |keys| ==> r[k] == InputOf(at[keys[k]])
  {
    r := [];
    for k := 0 to |keys|
      invariant |r| == k && forall i :: 0 <= i < k ==> r[i] == InputOf(at[keys[i]])
    {
      r := r + [InputOf(at[keys[k]])];
    }
  }
}
