// workflow/incremental.go: the graph closures of CompileIncremental and the
// isDownstreamOf search.
module Closures {
  import opened Ids
  import opened Graph
  import opened Planner

  ghost predicate Closed(g: Needs, s: set<Id>) {
    forall x, n {:trigger n in g[x]} :: x in s && x in g && n in g[x] ==> n in s
  }

  // A downstream task d of id, other than id itself, transitively needs x.
  ghost predicate Verified(g: Needs, id: Id, x: Id) {
    exists d :: d != id && Reaches(g, d, id) && Reaches(g, d, x)
  }

  // x is needed by an affected task or by one downstream of it.
  ghost predicate Kept(g: Needs, affected: set<Id>, x: Id) {
    exists a, d :: a in affected && Reaches(g, d, a) && Reaches(g, d, x)
  }

  lemma {:induction false} ReachesLowersRank(g: Needs, rank: map<Id, nat>, upper: Id, lower: Id)
    requires Ranked(g, rank) && Reaches(g, upper, lower) && upper in g
    ensures lower in g && rank[lower] <= rank[upper]
    decreases rank[upper]
  {
    if upper != lower {
      ReachesFirst(g, upper, lower);
      var n :| n in g[upper] && Reaches(g, n, lower);
      ReachesLowersRank(g, rank, n, lower);
    }
  }

  lemma ReachesInside(g: Needs, upper: Id, lower: Id)
    requires Reaches(g, upper, lower) && lower in g
    ensures upper in g
  {
    if upper != lower { ReachesFirst(g, upper, lower); }
  }

  // The last step of a path to id goes through a dependent of id.
  lemma {:induction false} ReachesLast(g: Needs, rank: map<Id, nat>, upper: Id, lower: Id) returns (e: Id)
    requires Ranked(g, rank) && Reaches(g, upper, lower) && upper != lower && upper in g
    ensures e in g && lower in g[e] && Reaches(g, upper, e)
    decreases rank[upper]
  {
    ReachesFirst(g, upper, lower);
    var n :| n in g[upper] && Reaches(g, n, lower);
    if n == lower {
      ReachesSelf(g, upper);
      e := upper;
    } else {
      e := ReachesLast(g, rank, n, lower);
      ReachesStep(g, upper, n, e);
    }
  }

  lemma VerifiedThrough(g: Needs, rank: map<Id, nat>, id: Id, e: Id, x: Id)
    requires Ranked(g, rank) && id in g && e in g && id in g[e]
    requires Reaches(g, e, x) || Verified(g, e, x)
    ensures Verified(g, id, x)
  {
    ReachesSelf(g, id);
    ReachesStep(g, e, id, id);
    if !Reaches(g, e, x) {
      var d :| d != e && Reaches(g, d, e) && Reaches(g, d, x);
      ReachesInside(g, d, e);
      ReachesTransitive(g, d, e, id);
      ReachesLowersRank(g, rank, d, e);
    }
  }

  lemma VerifiedSplit(g: Needs, rank: map<Id, nat>, id: Id, x: Id) returns (e: Id)
    requires Ranked(g, rank) && id in g && Verified(g, id, x)
    ensures e in g && id in g[e] && (Reaches(g, e, x) || Verified(g, e, x))
  {
    var d :| d != id && Reaches(g, d, id) && Reaches(g, d, x);
    ReachesInside(g, d, id);
    e := ReachesLast(g, rank, d, id);
  }

  // Needed by, or by something downstream of, one of these tasks.
  ghost predicate Covered(g: Needs, list: seq<Id>, x: Id) {
    exists e :: e in list && (Reaches(g, e, x) || Verified(g, e, x))
  }

  lemma CoveredSnoc(g: Needs, list: seq<Id>, e: Id)
    ensures forall x :: Covered(g, list + [e], x) <==> Covered(g, list, x) || Reaches(g, e, x) || Verified(g, e, x)
  {
    forall x ensures Covered(g, list + [e], x) <==> Covered(g, list, x) || Reaches(g, e, x) || Verified(g, e, x) {
      assert e in list + [e];
    }
  }

  lemma CoveredIsVerified(g: Needs, rank: map<Id, nat>, id: Id, list: seq<Id>)
    requires Ranked(g, rank) && id in g && forall e :: e in list <==> e in g && id in g[e]
    ensures forall x :: Covered(g, list, x) <==> Verified(g, id, x)
  {
    forall x ensures Covered(g, list, x) <==> Verified(g, id, x) {
      if Covered(g, list, x) {
        var e :| e in list && (Reaches(g, e, x) || Verified(g, e, x));
        VerifiedThrough(g, rank, id, e, x);
      }
      if Verified(g, id, x) {
        var e := VerifiedSplit(g, rank, id, x);
        assert e in list;
      }
    }
  }

  lemma KeptSplit(g: Needs, affected: set<Id>, x: Id)
    ensures Kept(g, affected, x) <==> exists a :: a in affected && (Reaches(g, a, x) || Verified(g, a, x))
  {
    if Kept(g, affected, x) {
      var a, d :| a in affected && Reaches(g, d, a) && Reaches(g, d, x);
      assert d == a || Verified(g, a, x);
    }
    if a :| a in affected && (Reaches(g, a, x) || Verified(g, a, x)) {
      ReachesSelf(g, a);
    }
  }

  // The include map of CompileIncremental.
  class Selection {
    const g: Needs
    const order: seq<Id>
    const dependents: map<Id, seq<Id>>
    var included: set<Id>

    ghost predicate Valid()
      reads this
    {
      && Topological(g, order) && Known(g) && Ranked(g, RankOf(order))
      && included <= g.Keys
      && (forall d, x {:trigger x in Listed(dependents, d)} :: x in Listed(dependents, d) <==> x in g && d in g[x])
    }

    constructor (g: Needs, order: seq<Id>, dependents: map<Id, seq<Id>>)
      requires Topological(g, order)
      requires forall d, x {:trigger x in Listed(dependents, d)} :: x in Listed(dependents, d) <==> x in g && d in g[x]
      ensures Valid() && this.g == g && this.order == order && included == {}
    {
      this.g, this.order, this.dependents, included := g, order, dependents, {};
      new;
      OrderGivesRank(g, order);
      OrderHasNoCycle(g, order);
    }

    // Nodes that are new since `before` are below id and have all their needs included.
    ghost predicate Extends(before: set<Id>, id: Id)
      reads this
    {
      && before <= included
      && (forall x :: x in included && x !in before ==> Reaches(g, id, x))
      && (forall x, n {:trigger n in g[x]} :: x in included && x !in before && x in g && n in g[x] ==> n in included)
    }

    method IncludePrerequisites(id: Id)
      requires Valid() && id in g
      modifies this
      ensures Valid() && id in included && Extends(old(included), id)
      decreases g.Keys - included
    {
      if id in included {
        return;
      }
      included := included + {id};
      ReachesSelf(g, id);
      var needs := g[id];
      ghost var before := old(included);
      for k := 0 to |needs|
        invariant Valid() && before + {id} <= included
        invariant forall x :: x in included && x !in before ==> Reaches(g, id, x)
        invariant forall x, n {:trigger n in g[x]} ::
          x in included && x !in before && x != id && x in g && n in g[x] ==> n in included
        invariant forall i :: 0 <= i < k ==> needs[i] in included
      {
        var need := needs[k];
        assert need in g[id];
        ghost var mid := included;
        IncludePrerequisites(need);
        forall x | x in included && x !in mid ensures Reaches(g, id, x) {
          ReachesStep(g, id, need, x);
        }
      }
    }

    lemma ClosedAfter(before: set<Id>, id: Id)
      requires Valid() && Closed(g, before) && Extends(before, id) && id in included
      ensures Closed(g, included)
      ensures forall x :: x in included <==> x in before || Reaches(g, id, x)
    {
      forall x | Reaches(g, id, x) ensures x in included {
        ClosedUnderReach(g, included, id, x);
      }
    }

    method IncludeVerification(id: Id)
      requires Valid() && id in g && Closed(g, included)
      modifies this
      ensures Valid() && Closed(g, included)
      ensures forall x :: x in included <==> x in old(included) || Verified(g, id, x)
      decreases |order| - RankOf(order)[id]
    {
      var list := Listed(dependents, id);
      for k := 0 to |list|
        invariant Valid() && Closed(g, included)
        invariant forall x :: x in included <==> x in old(included) || Covered(g, list[..k], x)
      {
        var dependent := list[k];
        assert dependent in Listed(dependents, id);
        ghost var before := included;
        IncludePrerequisites(dependent);
        ClosedAfter(before, dependent);
        RankBound(dependent);
        IncludeVerification(dependent);
        assert list[..k + 1] == list[..k] + [dependent];
        CoveredSnoc(g, list[..k], dependent);
      }
      assert list[..|list|] == list;
      forall e ensures e in list <==> e in g && id in g[e] {
        assert e in Listed(dependents, id) <==> e in g && id in g[e];
      }
      CoveredIsVerified(g, RankOf(order), id, list);
    }

    lemma RankBound(id: Id)
      requires Valid() && id in g
      ensures id in RankOf(order) && RankOf(order)[id] < |order|
    {
      var i := IndexOf(order, id);
      assert RankOf(order)[order[i]] == i;
    }

    // Both passes over the affected tasks, each in map iteration order.
    method IncludeAll(affected: set<Id>)
      requires Valid() && affected <= g.Keys && included == {}
      modifies this
      ensures Valid() && Closed(g, included)
      ensures forall x :: x in included <==> Kept(g, affected, x)
    {
      var todo := affected;
      while todo != {}
        invariant todo <= affected && Valid() && Closed(g, included)
        invariant forall x :: x in included <==> exists a :: a in affected - todo && Reaches(g, a, x)
        decreases |todo|
      {
        var id :| id in todo;
        ghost var before := included;
        IncludePrerequisites(id);
        ClosedAfter(before, id);
        todo := todo - {id};
      }
      todo := affected;
      while todo != {}
        invariant todo <= affected && Valid() && Closed(g, included)
        invariant forall x :: x in included <==>
          exists a :: a in affected && (Reaches(g, a, x) || (a !in todo && Verified(g, a, x)))
        decreases |todo|
      {
        var id :| id in todo;
        IncludeVerification(id);
        todo := todo - {id};
      }
      forall x ensures x in included <==> Kept(g, affected, x) {
        KeptSplit(g, affected, x);
      }
    }
  }

  // isDownstreamOf
  class Downstream {
    const g: Needs
    const affected: set<Id>
    var seen: set<Id>

    constructor (g: Needs, affected: set<Id>)
      ensures this.g == g && this.affected == affected && seen == {}
    {
      this.g, this.affected, seen := g, affected, {};
    }

    method Visit(current: Id) returns (found: bool)
      requires current in g && Known(g) && seen <= g.Keys && seen !! affected
      modifies this
      ensures found ==> exists a :: a in affected && Reaches(g, current, a)
      ensures seen <= g.Keys && old(seen) <= seen
      ensures !found ==> current in seen && seen !! affected
      ensures !found ==> forall x, n {:trigger n in g[x]} :: x in seen && x !in old(seen) && x in g && n in g[x] ==>
        n in seen
      decreases g.Keys - seen
    {
      if current in affected {
        ReachesSelf(g, current);
        return true;
      }
      if current in seen {
        return false;
      }
      seen := seen + {current};
      var needs := g[current];
      for k := 0 to |needs|
        invariant seen <= g.Keys && seen !! affected && old(seen) + {current} <= seen
        invariant forall x, n {:trigger n in g[x]} ::
          x in seen && x !in old(seen) && x != current && x in g && n in g[x] ==> n in seen
        invariant forall i :: 0 <= i < k ==> needs[i] in seen
      {
        assert needs[k] in g[current];
        found := Visit(needs[k]);
        if found {
          ghost var a :| a in affected && Reaches(g, needs[k], a);
          ReachesStep(g, current, needs[k], a);
          return;
        }
      }
      return false;
    }
  }

  method IsDownstreamOf(g: Needs, id: Id, affected: set<Id>) returns (found: bool)
    requires id in g && Known(g)
    ensures found <==> exists a :: a in affected && Reaches(g, id, a)
  {
    var search := new Downstream(g, affected);
    found := search.Visit(id);
    if !found {
      forall a | Reaches(g, id, a) ensures a !in affected {
        ClosedUnderReach(g, search.seen, id, a);
      }
    }
  }
}
