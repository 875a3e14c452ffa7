// A graph of task needs: g[t] lists the tasks that t needs. Paths follow needs.
module Graph {
  import opened Ids

  type Needs = map<Id, seq<Id>>

  ghost predicate Known(g: Needs) {
    forall id, n :: id in g && n in g[id] ==> n in g
  }

  ghost predicate Unrepeated(g: Needs) {
    forall id :: id in g ==> NoDup(g[id])
  }

  ghost predicate StepAt(g: Needs, p: seq<Id>, i: nat)
    requires i + 1 < |p|
  {
    p[i] in g && p[i + 1] in g[p[i]]
  }

  ghost predicate IsPath(g: Needs, p: seq<Id>) {
    p != [] && forall i: nat :: i + 1 < |p| ==> StepAt(g, p, i)
  }

  ghost predicate IsCycle(g: Needs, p: seq<Id>) {
    |p| >= 2 && IsPath(g, p) && p[0] == p[|p| - 1]
  }

  ghost predicate HasCycle(g: Needs) {
    exists p :: IsCycle(g, p)
  }

  // `upper` transitively needs `lower`, or is it.
  ghost predicate Reaches(g: Needs, upper: Id, lower: Id) {
    exists p :: IsPath(g, p) && p[0] == upper && p[|p| - 1] == lower
  }

  lemma ReachesSelf(g: Needs, id: Id)
    ensures Reaches(g, id, id)
  {
    assert IsPath(g, [id]) && [id][0] == id;
  }

  lemma ReachesStep(g: Needs, upper: Id, need: Id, lower: Id)
    requires upper in g && need in g[upper] && Reaches(g, need, lower)
    ensures Reaches(g, upper, lower)
  {
    var p :| IsPath(g, p) && p[0] == need && p[|p| - 1] == lower;
    var q := [upper] + p;
    assert IsPath(g, q) by {
      forall i: nat | i + 1 < |q| ensures StepAt(g, q, i) {
        if i > 0 { assert StepAt(g, p, i - 1); }
      }
    }
    assert q[0] == upper && q[|q| - 1] == lower;
  }

  lemma ReachesFirst(g: Needs, upper: Id, lower: Id)
    requires Reaches(g, upper, lower) && upper != lower
    ensures upper in g && exists n :: n in g[upper] && Reaches(g, n, lower)
  {
    var p :| IsPath(g, p) && p[0] == upper && p[|p| - 1] == lower;
    var q := p[1..];
    assert IsPath(g, q) by {
      forall i: nat | i + 1 < |q| ensures StepAt(g, q, i) {
        assert StepAt(g, p, i + 1);
      }
    }
    assert StepAt(g, p, 0);
    assert q[0] in g[upper] && q[|q| - 1] == lower && Reaches(g, q[0], lower);
  }

  lemma {:induction false} ReachesTransitive(g: Needs, a: Id, b: Id, c: Id)
    requires Reaches(g, a, b) && Reaches(g, b, c)
    ensures Reaches(g, a, c)
  {
    var p :| IsPath(g, p) && p[0] == a && p[|p| - 1] == b;
    var q :| IsPath(g, q) && q[0] == b && q[|q| - 1] == c;
    var r := p + q[1..];
    assert IsPath(g, r) by {
      forall i: nat | i + 1 < |r| ensures StepAt(g, r, i) {
        if i < |p| - 1 {
          assert StepAt(g, p, i);
        } else {
          assert StepAt(g, q, i - |p| + 1);
        }
      }
    }
    assert r[0] == a && r[|r| - 1] == c;
  }

  // A set of nodes closed under needs is never left by a path.
  lemma {:induction false} ClosedUnderReach(g: Needs, s: set<Id>, upper: Id, lower: Id)
    requires forall x, n :: x in s && x in g && n in g[x] ==> n in s
    requires upper in s && Reaches(g, upper, lower)
    ensures lower in s
  {
    var p :| IsPath(g, p) && p[0] == upper && p[|p| - 1] == lower;
    var i := 0;
    while i < |p| - 1
      invariant 0 <= i < |p| && p[i] in s
    {
      assert StepAt(g, p, i);
      i := i + 1;
    }
  }

  // ---------------------------------------------------------------- orders

  ghost predicate NeedsMet(g: Needs, done: set<Id>, id: Id) {
    id in g && forall n :: n in g[id] ==> n in done
  }

  ghost predicate Ready(g: Needs, done: set<Id>, id: Id) {
    id !in done && NeedsMet(g, done, id)
  }

  // `order` finishes g when the tasks in `done` come first.
  ghost predicate TopologicalFrom(g: Needs, done: set<Id>, order: seq<Id>)
    decreases |order|
  {
    if order == [] then g.Keys <= done
    else Ready(g, done, order[0]) && TopologicalFrom(g, done + {order[0]}, order[1..])
  }

  // A permutation of the tasks in which every need precedes its dependents.
  ghost predicate Topological(g: Needs, order: seq<Id>) {
    && NoDup(order)
    && (forall x :: x in order <==> x in g)
    && forall i :: 0 <= i < |order| ==> NeedsMet(g, Elems(order[..i]), order[i])
  }

  lemma {:induction false} TopologicalFromFacts(g: Needs, done: set<Id>, order: seq<Id>)
    requires TopologicalFrom(g, done, order)
    ensures NoDup(order)
    ensures forall x :: x in order <==> x in g && x !in done
    ensures forall i :: 0 <= i < |order| ==> NeedsMet(g, done + Elems(order[..i]), order[i])
    decreases |order|
  {
    if order != [] {
      var rest, done' := order[1..], done + {order[0]};
      TopologicalFromFacts(g, done', rest);
      assert order == [order[0]] + rest;
      forall i | 0 <= i < |order|
        ensures NeedsMet(g, done + Elems(order[..i]), order[i])
      {
        if i > 0 {
          assert order[i] == rest[i - 1];
          assert order[..i] == [order[0]] + rest[..i - 1];
          assert done + Elems(order[..i]) == done' + Elems(rest[..i - 1]);
        }
      }
    }
  }

  lemma {:induction false} TopologicalFromIntro(g: Needs, order: seq<Id>, k: nat)
    requires Topological(g, order) && k <= |order|
    ensures TopologicalFrom(g, Elems(order[..k]), order[k..])
    decreases |order| - k
  {
    var done, rest := Elems(order[..k]), order[k..];
    if k < |order| {
      TopologicalFromIntro(g, order, k + 1);
      assert order[..k + 1] == order[..k] + [order[k]];
      assert Elems(order[..k + 1]) == done + {rest[0]};
      assert rest[1..] == order[k + 1..];
      assert Ready(g, done, rest[0]);
    } else {
      assert order[..k] == order;
    }
  }

  lemma TopologicalIffFromNothing(g: Needs, order: seq<Id>)
    ensures Topological(g, order) <==> TopologicalFrom(g, {}, order)
  {
    if Topological(g, order) {
      TopologicalFromIntro(g, order, 0);
      assert Elems(order[..0]) == {} && order[0..] == order;
    }
    if TopologicalFrom(g, {}, order) {
      TopologicalFromNothing(g, order);
    }
  }

  lemma TopologicalFromNothing(g: Needs, order: seq<Id>)
    requires TopologicalFrom(g, {}, order)
    ensures Topological(g, order)
  {
    TopologicalFromFacts(g, {}, order);
    forall i | 0 <= i < |order| ensures NeedsMet(g, Elems(order[..i]), order[i]) {
      assert {} + Elems(order[..i]) == Elems(order[..i]);
    }
  }

  // ---------------------------------------------------------------- ranks

  // A rank falls along every need; it witnesses that g has no cycle.
  ghost predicate Ranked(g: Needs, rank: map<Id, nat>) {
    && (forall id :: id in g ==> id in rank)
    && (forall id, n :: id in g && n in g[id] ==> n in g && rank[n] < rank[id])
  }

  ghost function RankOf(order: seq<Id>): (rank: map<Id, nat>)
    requires NoDup(order)
    ensures forall x :: x in rank <==> x in order
    ensures forall i :: 0 <= i < |order| ==> rank[order[i]] == i
  {
    map x | x in order :: IndexOf(order, x)
  }

  ghost function IndexOf(order: seq<Id>, x: Id): (i: nat)
    requires x in order
    ensures i < |order| && order[i] == x
  {
    var i :| 0 <= i < |order| && order[i] == x; i
  }

  lemma OrderGivesRank(g: Needs, order: seq<Id>)
    requires Topological(g, order)
    ensures Ranked(g, RankOf(order))
  {
    var rank := RankOf(order);
    forall id, n | id in g && n in g[id] ensures n in g && rank[n] < rank[id] {
      var i := rank[id];
      assert order[i] == id by { var j := IndexOf(order, id); assert rank[order[j]] == j; }
      assert NeedsMet(g, Elems(order[..i]), order[i]);
      var k :| 0 <= k < i && order[k] == n;
      assert rank[order[k]] == k;
    }
  }

  lemma RankedHasNoCycle(g: Needs, rank: map<Id, nat>)
    requires Ranked(g, rank)
    ensures !HasCycle(g)
  {
    forall p | IsCycle(g, p) ensures false {
      var i := 0;
      assert StepAt(g, p, 0);
      while i < |p| - 1
        invariant 0 <= i < |p|
        invariant p[i] in g && rank[p[i]] + i <= rank[p[0]]
      {
        assert StepAt(g, p, i);
        i := i + 1;
      }
    }
  }

  lemma OrderHasNoCycle(g: Needs, order: seq<Id>)
    requires Topological(g, order)
    ensures Known(g) && !HasCycle(g)
  {
    OrderGivesRank(g, order);
    RankedHasNoCycle(g, RankOf(order));
  }

  // ------------------------------------------------------- stuck sets have cycles

  // Every member of s needs another member: nothing in s can ever become ready.
  ghost predicate Stuck(g: Needs, s: set<Id>) {
    s != {} && forall x :: x in s ==> NeedsInside(g, s, x)
  }

  ghost predicate NeedsInside(g: Needs, s: set<Id>, x: Id) {
    x in g && exists n :: n in g[x] && n in s
  }

  lemma {:induction false} WalkStuck(g: Needs, s: set<Id>, length: nat) returns (p: seq<Id>)
    requires Stuck(g, s)
    ensures |p| == length + 1 && IsPath(g, p) && Elems(p) <= s
  {
    if length == 0 {
      var x :| x in s;
      p := [x];
    } else {
      var q := WalkStuck(g, s, length - 1);
      var last := q[|q| - 1];
      assert NeedsInside(g, s, last);
      var n :| n in g[last] && n in s;
      p := q + [n];
      assert IsPath(g, p) by {
        forall i: nat | i + 1 < |p| ensures StepAt(g, p, i) {
          if i + 1 < |q| { assert StepAt(g, q, i); }
        }
      }
    }
  }

  lemma StuckHasCycle(g: Needs, s: set<Id>)
    requires Stuck(g, s)
    ensures HasCycle(g)
  {
    var p := WalkStuck(g, s, |s|);
    Pigeonhole(p, s);
    var i, j :| 0 <= i < j < |p| && p[i] == p[j];
    var q := p[i..j + 1];
    assert IsPath(g, q) by {
      forall k: nat | k + 1 < |q| ensures StepAt(g, q, k) {
        assert StepAt(g, p, i + k);
      }
    }
    assert IsCycle(g, q);
  }
}
