// Task identifiers, their order, and the small sequence and set vocabulary that
// the other modules share.
module Ids {
  type Id = string

  datatype Option<+T> = None | Some(value: T)

  datatype Result<+T, +E> = Ok(value: T) | Err(error: E)

  // Go's `<` on strings, restricted to identifiers (which are ASCII once validated).
  predicate Before(a: Id, b: Id) {
    b != [] && (a == [] || a[0] < b[0] || (a[0] == b[0] && Before(a[1..], b[1..])))
  }

  lemma {:induction false} BeforeIsAsymmetric(a: Id, b: Id)
    requires Before(a, b)
    ensures !Before(b, a)
  {
    if a != [] && a[0] == b[0] {
      BeforeIsAsymmetric(a[1..], b[1..]);
    }
  }

  lemma {:induction false} BeforeIsTransitive(a: Id, b: Id, c: Id)
    requires Before(a, b) && Before(b, c)
    ensures Before(a, c)
  {
    if a != [] && a[0] == b[0] && b[0] == c[0] {
      BeforeIsTransitive(a[1..], b[1..], c[1..]);
    }
  }

  lemma {:induction false} BeforeIsTotal(a: Id, b: Id)
    ensures a == b || Before(a, b) || Before(b, a)
  {
    if a != [] && b != [] && a[0] == b[0] {
      BeforeIsTotal(a[1..], b[1..]);
      assert a == [a[0]] + a[1..] && b == [b[0]] + b[1..];
    }
  }

  // The order of a dictionary: a beginning comes before what goes on, and otherwise the first
  // characters that differ decide.
  lemma {:induction false} BeforeIs(a: Id, b: Id)
    ensures Before(a, b) <==>
      a < b || exists i :: 0 <= i < |a| && i < |b| && a[..i] == b[..i] && a[i] < b[i]
  {
    if a != [] && b != [] {
      assert a[..0] == b[..0];
      if a[0] == b[0] {
        BeforeIs(a[1..], b[1..]);
        assert a < b <==> a[1..] < b[1..] by { TailsCompare(a, b); }
        if Before(a[1..], b[1..]) && !(a[1..] < b[1..]) {
          var i :| 0 <= i < |a[1..]| && i < |b[1..]| && a[1..][..i] == b[1..][..i] && a[1..][i] < b[1..][i];
          assert a[..i + 1] == [a[0]] + a[1..][..i] && b[..i + 1] == [b[0]] + b[1..][..i];
          assert a[i + 1] < b[i + 1];
        }
        forall i | 0 <= i < |a| && i < |b| && a[..i] == b[..i] && a[i] < b[i] ensures Before(a, b) {
          assert a[1..][..i - 1] == a[..i][1..] && b[1..][..i - 1] == b[..i][1..];
          assert a[1..][i - 1] < b[1..][i - 1];
        }
      } else {
        forall i | 0 < i <= |a| && i <= |b| ensures a[..i] != b[..i] {
          assert a[..i][0] != b[..i][0];
        }
      }
    }
  }

  lemma TailsCompare(a: Id, b: Id)
    requires a != [] && b != [] && a[0] == b[0]
    ensures a < b <==> a[1..] < b[1..]
  {
    if a[1..] < b[1..] { assert b[..|a|] == [b[0]] + b[1..][..|a| - 1]; }
    assert a < b ==> b[1..][..|a| - 1] == a[1..];
  }

  predicate NotAfter(a: Id, b: Id) {
    a == b || Before(a, b)
  }

  predicate NoDup<T(==)>(s: seq<T>) {
    forall i, j :: 0 <= i < j < |s| ==> s[i] != s[j]
  }

  function Elems<T>(s: seq<T>): set<T> {
    set x | x in s
  }

  lemma NoDupSnoc<T>(s: seq<T>, x: T)
    requires NoDup(s) && x !in s
    ensures NoDup(s + [x])
  {
  }

  lemma {:induction false} NoDupCardinality<T>(s: seq<T>)
    requires NoDup(s)
    ensures |Elems(s)| == |s|
  {
    if s != [] {
      var init, last := s[..|s| - 1], s[|s| - 1];
      NoDupCardinality(init);
      assert Elems(s) == Elems(init) + {last};
      assert last !in init;
    }
  }

  lemma SubsetCardinality<T>(a: set<T>, b: set<T>)
    requires a <= b
    ensures |a| <= |b|
    ensures |a| == |b| ==> a == b
  {
    assert |b| == |a| + |b - a| by { assert b == a + (b - a); }
    if |a| == |b| {
      assert b - a == {};
    }
  }

  // A sequence longer than a set that holds all its elements repeats one of them.
  lemma {:induction false} Pigeonhole<T>(s: seq<T>, box: set<T>)
    requires Elems(s) <= box && |s| > |box|
    ensures !NoDup(s)
  {
    if NoDup(s) {
      NoDupCardinality(s);
      SubsetCardinality(Elems(s), box);
    }
  }

  ghost function Least(s: set<Id>): (least: Id)
    requires s != {}
    ensures least in s && forall x {:trigger NotAfter(least, x)} :: x in s ==> NotAfter(least, x)
    decreases |s|
  {
    var x :| x in s;
    if s == {x} then x
    else
      var rest := s - {x};
      assert s == {x} + rest;
      var m := Least(rest);
      BeforeIsTotal(m, x);
      assert Before(x, m) ==> forall y :: y in rest ==> NotAfter(x, y) by {
        forall y | y in rest && Before(x, m) ensures NotAfter(x, y) {
          assert NotAfter(m, y);
          if m != y { BeforeIsTransitive(x, m, y); }
        }
      }
      if Before(m, x) then m else x
  }

  predicate Sorted(s: seq<Id>) {
    forall i, j {:trigger NotAfter(s[i], s[j])} :: 0 <= i < j < |s| ==> NotAfter(s[i], s[j])
  }

  // The strictly ascending list of a set of identifiers.
  ghost function Ascending(s: set<Id>): (r: seq<Id>)
    ensures |r| == |s|
    ensures forall x :: x in r <==> x in s
    decreases |s|
  {
    if s == {} then []
    else
      var least := Least(s);
      var rest := s - {least};
      assert s == rest + {least};
      [least] + Ascending(rest)
  }

  lemma LeastIsUnique(s: set<Id>, x: Id)
    requires x in s && forall y :: y in s ==> NotAfter(x, y)
    ensures x == Least(s)
  {
    assert NotAfter(x, Least(s)) && NotAfter(Least(s), x);
    if x != Least(s) { BeforeIsAsymmetric(x, Least(s)); }
  }

  lemma SortedHead(r: seq<Id>)
    requires Sorted(r) && NoDup(r) && r != []
    ensures r[0] in Elems(r) && r[0] == Least(Elems(r))
    ensures Elems(r) - {r[0]} == Elems(r[1..])
  {
    forall y | y in Elems(r) ensures NotAfter(r[0], y) {
      var i :| 0 <= i < |r| && r[i] == y;
      assert i > 0 ==> NotAfter(r[0], r[i]);
    }
    LeastIsUnique(Elems(r), r[0]);
    assert r == [r[0]] + r[1..];
  }

  lemma SortedTail(r: seq<Id>)
    requires Sorted(r) && NoDup(r) && r != []
    ensures Sorted(r[1..]) && NoDup(r[1..])
  {
    forall i, j | 0 <= i < j < |r[1..]| ensures NotAfter(r[1..][i], r[1..][j]) {
      assert NotAfter(r[i + 1], r[j + 1]);
    }
  }

  lemma {:induction false} SortedIsAscending(r: seq<Id>)
    requires Sorted(r) && NoDup(r)
    ensures r == Ascending(Elems(r))
  {
    if r != [] {
      SortedHead(r);
      SortedTail(r);
      SortedIsAscending(r[1..]);
    }
  }

  lemma {:induction false} AscendingIsSorted(s: set<Id>)
    ensures forall i, j :: 0 <= i < j < |Ascending(s)| ==> Before(Ascending(s)[i], Ascending(s)[j])
    decreases |s|
  {
    if s != {} {
      var least := Least(s);
      var rest := Ascending(s - {least});
      AscendingIsSorted(s - {least});
      assert Ascending(s) == [least] + rest;
      forall i, j | 0 <= i < j < |Ascending(s)| ensures Before(Ascending(s)[i], Ascending(s)[j]) {
        assert Ascending(s)[j] == rest[j - 1] && rest[j - 1] in rest;
        assert NotAfter(least, rest[j - 1]);
        if i > 0 { assert Ascending(s)[i] == rest[i - 1]; }
      }
    }
  }

  lemma AscendingIsDistinct(s: set<Id>)
    ensures NoDup(Ascending(s))
  {
    assert Elems(Ascending(s)) == s;
    FullCardinality(Ascending(s));
  }

  lemma ElemsSnoc<T>(s: seq<T>, x: T)
    ensures Elems(s + [x]) == Elems(s) + {x}
  {
  }

  lemma ConsAssociates<T>(a: seq<T>, x: T, b: seq<T>)
    ensures a + ([x] + b) == a + [x] + b
  {
  }

  lemma PermutationFacts<T>(a: seq<T>, b: seq<T>)
    requires multiset(a) == multiset(b)
    ensures |a| == |b| && forall x :: x in a <==> x in b
    ensures NoDup(a) ==> NoDup(b)
  {
    assert |multiset(a)| == |multiset(b)|;
    forall x ensures x in a <==> x in b {
      assert x in a <==> x in multiset(a);
      assert x in b <==> x in multiset(b);
    }
    if NoDup(a) {
      assert Elems(a) == Elems(b);
      NoDupCardinality(a);
      FullCardinality(b);
    }
  }

  lemma {:induction false} FullCardinality<T>(s: seq<T>)
    ensures |Elems(s)| <= |s|
    ensures |Elems(s)| == |s| ==> NoDup(s)
  {
    if s != [] {
      var init, last := s[..|s| - 1], s[|s| - 1];
      FullCardinality(init);
      assert Elems(s) == Elems(init) + {last};
    }
  }

  // sort.Strings, as insertion sort.
  method SortStrings(s: seq<Id>) returns (r: seq<Id>)
    ensures multiset(r) == multiset(s)
    ensures Sorted(r)
    ensures NoDup(s) ==> NoDup(r) && r == Ascending(Elems(s))
  {
    r := [];
    for k := 0 to |s|
      invariant Sorted(r) && multiset(r) == multiset(s[..k])
    {
      assert s[..k + 1] == s[..k] + [s[k]];
      r := Insert(r, s[k]);
    }
    assert s[..|s|] == s;
    PermutationFacts(s, r);
    if NoDup(s) {
      SortedIsAscending(r);
      assert Elems(r) == Elems(s);
    }
  }

  method Insert(s: seq<Id>, x: Id) returns (r: seq<Id>)
    requires Sorted(s)
    ensures Sorted(r) && multiset(r) == multiset(s) + multiset{x}
  {
    var k := 0;
    while k < |s| && Before(s[k], x)
      invariant k <= |s| && forall i :: 0 <= i < k ==> NotAfter(s[i], x)
    {
      k := k + 1;
    }
    r := s[..k] + [x] + s[k..];
    assert s == s[..k] + s[k..];
    InsertKeepsSorted(s, x, k);
  }

  lemma InsertKeepsSorted(s: seq<Id>, x: Id, k: nat)
    requires Sorted(s) && k <= |s|
    requires forall i :: 0 <= i < k ==> NotAfter(s[i], x)
    requires k < |s| ==> !Before(s[k], x)
    ensures Sorted(s[..k] + [x] + s[k..])
  {
    var r := s[..k] + [x] + s[k..];
    forall i, j | 0 <= i < j < |r| ensures NotAfter(r[i], r[j]) {
      if i != k && j != k {
        var a, b := if i < k then i else i - 1, if j < k then j else j - 1;
        assert NotAfter(s[a], s[b]);
      } else if i == k {
        BeforeIsTotal(s[k], x);
        if j > k + 1 {
          assert NotAfter(s[k], s[j - 1]);
          if x != s[k] && s[k] != s[j - 1] { BeforeIsTransitive(x, s[k], s[j - 1]); }
        }
      }
    }
  }
}
