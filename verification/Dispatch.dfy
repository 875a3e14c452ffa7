// run.go: the order in which scenarios are dispatched, and the run with one slot.
module Dispatch {
  import opened Ids

  // --------------------------------------------------------------- the order of a feature

  ghost predicate IsPermutation(perm: seq<nat>) {
    NoDup(perm) && forall i :: 0 <= i < |perm| ==> perm[i] < |perm|
  }

  function Somes(s: seq<string>): (r: seq<Option<string>>)
    ensures |r| == |s| && forall i :: 0 <= i < |r| ==> r[i] == Some(s[i])
  {
    seq(|s|, i requires 0 <= i < |s| => Some(s[i]))
  }

  function Nones(n: nat): (r: seq<Option<string>>)
    ensures |r| == n && forall i :: 0 <= i < n ==> r[i] == None
  {
    seq(n, _ => None)
  }

  lemma NonesSnoc(n: nat)
    ensures Nones(n + 1) == Nones(n) + [None]
  {
  }

  lemma SomesSnoc(s: seq<string>, i: nat)
    requires i < |s|
    ensures Somes(s[..i + 1]) == Somes(s[..i]) + [Some(s[i])]
  {
  }

  lemma {:induction false} SomesCount(s: seq<string>, x: string)
    ensures multiset(Somes(s))[Some(x)] == multiset(s)[x]
  {
    if s != [] {
      var i := |s| - 1;
      SomesCount(s[..i], x);
      SomesSnoc(s, i);
      assert s[..i + 1] == s && s == s[..i] + [s[i]];
    }
  }

  lemma SomesReflect(a: seq<string>, b: seq<string>)
    requires multiset(Somes(a)) == multiset(Somes(b))
    ensures multiset(a) == multiset(b)
  {
    forall x ensures multiset(a)[x] == multiset(b)[x] {
      SomesCount(a, x);
      SomesCount(b, x);
    }
  }

  // The scenarios of a feature, each moved to the place the random permutation gives it.
  method Shuffle(pickles: seq<string>, perm: seq<nat>) returns (r: seq<string>)
    requires |perm| == |pickles| && IsPermutation(perm)
    ensures |r| == |pickles| && multiset(r) == multiset(pickles)
    ensures forall i :: 0 <= i < |perm| ==> r[perm[i]] == pickles[i]
  {
    var n := |pickles|;
    var slots := new Option<string>[n](_ => None);
    assert slots[..] == Nones(n) && Somes(pickles[..0]) == [];
    for i := 0 to n
      invariant Placed(pickles, perm, i, slots[..])
    {
      PlaceNext(pickles, perm, i, slots[..]);
      ghost var before := slots[..];
      slots[perm[i]] := Some(pickles[i]);
      assert slots[..] == before[perm[i] := Some(pickles[i])];
    }
    assert pickles[..n] == pickles && Nones(0) == [];
    FullSlots(pickles, slots[..]);
    r := seq(n, k requires 0 <= k < n && slots[k].Some? reads slots => slots[k].value);
    assert Somes(r) == slots[..];
    SomesReflect(r, pickles);
  }

  // The first i scenarios stand at their places, the other places are free.
  ghost predicate Placed(pickles: seq<string>, perm: seq<nat>, i: nat, slots: seq<Option<string>>)
    requires |perm| == |pickles| && IsPermutation(perm) && i <= |pickles|
  {
    && |slots| == |pickles|
    && (forall k :: 0 <= k < |perm| ==> slots[perm[k]] == if k < i then Some(pickles[k]) else None)
    && multiset(slots) == multiset(Somes(pickles[..i])) + multiset(Nones(|pickles| - i))
  }

  lemma PlaceNext(pickles: seq<string>, perm: seq<nat>, i: nat, slots: seq<Option<string>>)
    requires |perm| == |pickles| && IsPermutation(perm) && i < |pickles| && Placed(pickles, perm, i, slots)
    ensures Placed(pickles, perm, i + 1, slots[perm[i] := Some(pickles[i])])
  {
    FillSlot(slots, perm[i], pickles, i, |pickles|);
    forall k | 0 <= k < |perm| && k != i ensures perm[k] != perm[i] {}
  }

  lemma FillSlot(before: seq<Option<string>>, v: nat, pickles: seq<string>, i: nat, n: nat)
    requires v < |before| && before[v] == None && i < |pickles| && i < n
    requires multiset(before) == multiset(Somes(pickles[..i])) + multiset(Nones(n - i))
    ensures multiset(before[v := Some(pickles[i])]) == multiset(Somes(pickles[..i + 1])) + multiset(Nones(n - i - 1))
  {
    NonesSnoc(n - i - 1);
    SomesSnoc(pickles, i);
  }

  lemma FullSlots(pickles: seq<string>, slots: seq<Option<string>>)
    requires multiset(slots) == multiset(Somes(pickles))
    ensures forall k :: 0 <= k < |slots| ==> slots[k].Some?
  {
    forall k | 0 <= k < |slots| ensures slots[k].Some? {
      assert slots[k] in multiset(Somes(pickles));
    }
  }

  // Every scenario stands where the permutation puts it.
  ghost predicate Shuffled(pickles: seq<string>, perm: seq<nat>, r: seq<string>) {
    && |r| == |perm| == |pickles|
    && forall i :: 0 <= i < |perm| ==> perm[i] < |r| && r[perm[i]] == pickles[i]
  }

  // The features one after the other.
  function Flat(features: seq<seq<string>>): seq<string> {
    if features == [] then [] else Flat(features[..|features| - 1]) + features[|features| - 1]
  }

  lemma {:induction false} FlatAppends(a: seq<seq<string>>, b: seq<seq<string>>)
    ensures Flat(a + b) == Flat(a) + Flat(b)
    ensures |a| == 1 ==> Flat(a) == a[0]
  {
    if |a| == 1 { assert a[..0] == []; }
    if b == [] {
      assert a + b == a;
    } else {
      FlatAppends(a, b[..|b| - 1]);
      assert (a + b)[..|a + b| - 1] == a + b[..|b| - 1];
    }
  }

  ghost predicate SameScenarios(features: seq<seq<string>>, arranged: seq<seq<string>>) {
    |arranged| == |features| && forall f :: 0 <= f < |features| ==> multiset(arranged[f]) == multiset(features[f])
  }

  lemma {:induction false} SameScenariosFlat(features: seq<seq<string>>, arranged: seq<seq<string>>)
    requires SameScenarios(features, arranged)
    ensures multiset(Flat(arranged)) == multiset(Flat(features))
  {
    if features != [] {
      SameScenariosFlat(features[..|features| - 1], arranged[..|features| - 1]);
    }
  }

  // With a seed every feature is shuffled, without one left as it is; either way the
  // scenarios dispatched are those of the features.
  method Arrange(features: seq<seq<string>>, seeded: bool, perms: seq<seq<nat>>) returns (arranged: seq<seq<string>>)
    requires |perms| == |features|
    requires forall f :: 0 <= f < |features| ==> |perms[f]| == |features[f]| && IsPermutation(perms[f])
    ensures SameScenarios(features, arranged) && multiset(Flat(arranged)) == multiset(Flat(features))
    ensures !seeded ==> arranged == features
    ensures seeded ==> |arranged| == |features| && forall f :: 0 <= f < |features| ==>
      Shuffled(features[f], perms[f], arranged[f])
  {
    arranged := [];
    for f := 0 to |features|
      invariant |arranged| == f && forall k :: 0 <= k < f ==> multiset(arranged[k]) == multiset(features[k])
      invariant !seeded ==> arranged == features[..f]
      invariant seeded ==> forall k :: 0 <= k < f ==> Shuffled(features[k], perms[k], arranged[k])
    {
      var pickles := features[f];
      if seeded {
        pickles := Shuffle(pickles, perms[f]);
      }
      arranged := arranged + [pickles];
    }
    SameScenariosFlat(features, arranged);
  }

  // ------------------------------------------------------------------------- one slot

  // Whether a scenario fails may depend on all that ran before it.
  ghost predicate FailsAt(fails: (seq<string>, string) -> bool, order: seq<string>, i: nat)
    requires i < |order|
  {
    fails(order[..i], order[i])
  }

  ghost predicate NoneFails(fails: (seq<string>, string) -> bool, order: seq<string>, n: nat)
    requires n <= |order|
  {
    forall i: nat :: i < n ==> !FailsAt(fails, order, i)
  }

  // The whole order, or its part through the first failure.
  ghost predicate ThroughFirstFailure(fails: (seq<string>, string) -> bool, order: seq<string>, executed: seq<string>) {
    var n := |executed|;
    && executed <= order
    && if n == |order| then n > 0 ==> NoneFails(fails, order, n - 1)
       else n > 0 && NoneFails(fails, order, n - 1) && FailsAt(fails, order, n - 1)
  }

  // concurrent with rate 1: no goroutines, and the slot is free again after each scenario.
  method RunInTurn(features: seq<seq<string>>, stopOnFailure: bool, fails: (seq<string>, string) -> bool)
    returns (executed: seq<string>, failed: bool)
    ensures stopOnFailure ==> ThroughFirstFailure(fails, Flat(features), executed)
    ensures !stopOnFailure ==> executed == Flat(features)
    ensures executed <= Flat(features) && (failed <==> !NoneFails(fails, Flat(features), |executed|))
  {
    executed, failed := [], false;
    var slots := 0;
    for f := 0 to |features|
      invariant slots == 0
      invariant Progress(fails, stopOnFailure, Flat(features[..f]), executed, failed)
    {
      var pickles := features[f];
      assert Flat(features[..f]) + pickles[..0] == Flat(features[..f]);
      for i := 0 to |pickles|
        invariant slots == 0
        invariant Progress(fails, stopOnFailure, Flat(features[..f]) + pickles[..i], executed, failed)
      {
        assert slots < 1;
        slots := slots + 1;
        ghost var order := Flat(features[..f]) + pickles[..i];
        ProgressStep(fails, stopOnFailure, order, executed, failed, pickles[i]);
        assert Flat(features[..f]) + pickles[..i + 1] == order + [pickles[i]];
        if stopOnFailure && failed {
          slots := slots - 1;
          continue;
        }
        if fails(executed, pickles[i]) {
          failed := true;
        }
        executed := executed + [pickles[i]];
        slots := slots - 1;
      }
      assert pickles[..|pickles|] == pickles && features[..f + 1][..f] == features[..f];
    }
    assert features[..|features|] == features;
    assert slots < 1;
    slots := slots + 1;
  }

  ghost predicate Progress(fails: (seq<string>, string) -> bool, stopOnFailure: bool, order: seq<string>,
                           executed: seq<string>, failed: bool)
  {
    && executed <= order
    && (failed <==> !NoneFails(fails, order, |executed|))
    && if stopOnFailure then ThroughFirstFailure(fails, order, executed) else executed == order
  }

  lemma PrefixFails(fails: (seq<string>, string) -> bool, order: seq<string>, x: string, n: nat)
    requires n <= |order|
    ensures NoneFails(fails, order + [x], n) <==> NoneFails(fails, order, n)
    ensures forall i: nat :: i < |order| ==> (FailsAt(fails, order + [x], i) <==> FailsAt(fails, order, i))
  {
    forall i: nat | i < |order| ensures FailsAt(fails, order + [x], i) <==> FailsAt(fails, order, i) {
      assert (order + [x])[..i] == order[..i];
    }
  }

  lemma ProgressStep(fails: (seq<string>, string) -> bool, stopOnFailure: bool, order: seq<string>,
                     executed: seq<string>, failed: bool, x: string)
    requires Progress(fails, stopOnFailure, order, executed, failed)
    ensures if stopOnFailure && failed then Progress(fails, stopOnFailure, order + [x], executed, failed)
            else Progress(fails, stopOnFailure, order + [x], executed + [x], failed || fails(executed, x))
  {
    PrefixFails(fails, order, x, |executed|);
    if stopOnFailure && failed {
      PrefixFails(fails, order, x, |executed| - 1);
      LastFails(fails, order, |executed|);
    } else {
      if stopOnFailure { StoppedMeansFailed(fails, order, executed); }
      assert executed == order;
      assert (order + [x])[..|order|] == order;
      assert FailsAt(fails, order + [x], |order|) <==> fails(executed, x);
    }
  }

  lemma StoppedMeansFailed(fails: (seq<string>, string) -> bool, order: seq<string>, executed: seq<string>)
    requires ThroughFirstFailure(fails, order, executed)
    ensures |executed| < |order| ==> !NoneFails(fails, order, |executed|)
  {
  }

  lemma LastFails(fails: (seq<string>, string) -> bool, order: seq<string>, n: nat)
    requires 0 < n <= |order| && NoneFails(fails, order, n - 1) && !NoneFails(fails, order, n)
    ensures FailsAt(fails, order, n - 1)
  {
  }
}
