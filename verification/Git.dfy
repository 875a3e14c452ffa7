// Git as the workflow uses it: a commit names its parents and its tree, so the
// commits reachable from one never change and only new commits are ever added.
module Git {

  datatype Commit = Commit(parents: seq<Commit>, tree: string)

  // merge-base --is-ancestor
  predicate Ancestor(a: Commit, c: Commit)
    decreases c
  {
    a == c || exists p :: p in c.parents && Ancestor(a, p)
  }

  lemma AncestorOfCommit(a: Commit, parent: Commit, tree: string)
    ensures Ancestor(a, Commit([parent], tree)) <==> a == Commit([parent], tree) || Ancestor(a, parent)
    ensures Ancestor(parent, Commit([parent], tree))
  {
    assert Ancestor(parent, parent) && Commit([parent], tree).parents[0] == parent;
  }

  lemma {:induction false} AncestorIsTransitive(a: Commit, b: Commit, c: Commit)
    requires Ancestor(a, b) && Ancestor(b, c)
    ensures Ancestor(a, c)
    decreases c
  {
    if b != c {
      var p :| p in c.parents && Ancestor(b, p);
      AncestorIsTransitive(a, b, p);
    }
  }

  ghost function Depth(c: Commit): (d: nat)
    decreases c, 1
  {
    1 + Deepest(c.parents)
  }

  ghost function Deepest(cs: seq<Commit>): (d: nat)
    ensures forall c :: c in cs ==> Depth(c) <= d
    decreases cs, 0
  {
    if cs == [] then 0
    else
      var rest := Deepest(cs[1..]);
      assert forall c :: c in cs ==> c == cs[0] || c in cs[1..];
      if Depth(cs[0]) > rest then Depth(cs[0]) else rest
  }

  lemma {:induction false} ProperAncestorIsShallower(a: Commit, c: Commit)
    requires Ancestor(a, c) && a != c
    ensures Depth(a) < Depth(c)
    decreases c
  {
    var p :| p in c.parents && Ancestor(a, p);
    if a != p { ProperAncestorIsShallower(a, p); }
  }

  lemma AncestorIsAntisymmetric(a: Commit, b: Commit)
    requires Ancestor(a, b) && Ancestor(b, a)
    ensures a == b
  {
    if a != b {
      ProperAncestorIsShallower(a, b);
      ProperAncestorIsShallower(b, a);
    }
  }

  // git merge --no-ff: nothing happens when `c` is already contained.
  function Merge(head: Commit, c: Commit, tree: string): (merged: Commit)
    ensures Ancestor(head, merged) && Ancestor(c, merged)
    ensures forall a :: Ancestor(a, head) ==> Ancestor(a, merged)
  {
    if Ancestor(c, head) then head
    else
      var merged := Commit([head, c], tree);
      assert head in merged.parents && c in merged.parents;
      assert Ancestor(head, head) && Ancestor(c, c);
      merged
  }

  // The same as a relation: nothing to do for what is contained, and otherwise a commit with both
  // parents.
  ghost predicate Onto(head: Commit, c: Commit, tree: string, merged: Commit) {
    if Ancestor(c, head) then merged == head else merged == Commit([head, c], tree)
  }

  // What a commit contains of a list of commits.
  ghost predicate ContainsAll(c: Commit, commits: seq<Commit>) {
    forall i :: 0 <= i < |commits| ==> Ancestor(commits[i], c)
  }

  lemma ContainsAllGrows(c: Commit, c': Commit, commits: seq<Commit>)
    requires ContainsAll(c, commits) && Ancestor(c, c')
    ensures ContainsAll(c', commits)
  {
    forall i | 0 <= i < |commits| ensures Ancestor(commits[i], c') {
      AncestorIsTransitive(commits[i], c, c');
    }
  }
}
