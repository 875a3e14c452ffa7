// workflow/incremental.go: compileSemanticScenarios, which gives every scenario a key from
// its names, an occurrence number and a fingerprint.
module Semantics {
  import opened Ids
  import opened Texts
  import opened Types
  import opened Snapshots
  import opened Metadata
  import Compiler

  datatype Semantic = Semantic(tracking: ScenarioTracking, scenario: Scenario)

  function Trackings(semantics: seq<Semantic>): (r: seq<ScenarioTracking>)
    ensures |r| == |semantics| && forall i :: 0 <= i < |r| ==> r[i] == semantics[i].tracking
  {
    seq(|semantics|, i requires 0 <= i < |semantics| => semantics[i].tracking)
  }

  ghost predicate Tracked(semantics: seq<Semantic>, id: string) {
    exists s :: s in semantics && s.scenario.id == id
  }

  ghost predicate SemanticOk(s: Semantic) {
    s.scenario.id == s.tracking.id
    && ValidHash(s.tracking.key) && ValidHash(s.tracking.fingerprint) && !Blank(s.tracking.id)
  }

  ghost predicate SemanticsOk(semantics: seq<Semantic>) {
    && NoDup(IdOfEach(Trackings(semantics))) && NoDup(KeyOfEach(Trackings(semantics)))
    && forall s :: s in semantics ==> SemanticOk(s)
  }

  // The hashes of a scenario's names and example values, of such a hash with an occurrence
  // number, and of everything a scenario says.
  datatype Reading = Reading(identity: Scenario -> string, key: (string, nat) -> Key, fingerprint: Scenario -> string)

  // Of these scenarios: their hashes are hexadecimal, their keys do not collide however the
  // scenarios are numbered among each other, and the names include the feature's URI.
  ghost predicate ReadingOk(r: Reading, scenarios: seq<Scenario>) {
    && (forall c, n: nat {:trigger r.key(r.identity(c), n)} ::
         c in scenarios && 1 <= n <= |scenarios| ==> ValidHash(r.key(r.identity(c), n)))
    && (forall c :: c in scenarios ==> ValidHash(r.fingerprint(c)))
    && (forall c, d, m: nat, n: nat {:trigger r.key(r.identity(c), m), r.key(r.identity(d), n)} ::
         (c in scenarios && d in scenarios && 1 <= m <= |scenarios| && 1 <= n <= |scenarios|
          && r.key(r.identity(c), m) == r.key(r.identity(d), n)) ==> r.identity(c) == r.identity(d) && m == n)
    && NamesIncludeUri(r, scenarios)
  }

  ghost predicate NamesIncludeUri(r: Reading, scenarios: seq<Scenario>) {
    forall c, d :: c in scenarios && d in scenarios && r.identity(c) == r.identity(d) ==> c.uri == d.uri
  }

  // Parsed features: one for each URI, and every scenario knows its own.
  ghost predicate Located(features: seq<Compiler.Feature>) {
    && (forall f, g :: 0 <= f < g < |features| ==> features[f].uri != features[g].uri)
    && forall f, c :: f in features && c in f.scenarios ==> c.uri == f.uri && !Blank(c.id)
  }

  // How many of these scenarios have the identity.
  function Occurrences(r: Reading, scenarios: seq<Scenario>, base: string): nat {
    if scenarios == [] then 0
    else
      var last := scenarios[|scenarios| - 1];
      Occurrences(r, scenarios[..|scenarios| - 1], base) + if r.identity(last) == base then 1 else 0
  }

  // Counted by position.
  lemma {:induction false} OccurrencesAre(r: Reading, scenarios: seq<Scenario>, base: string)
    ensures Occurrences(r, scenarios, base) == |set i | 0 <= i < |scenarios| && r.identity(scenarios[i]) == base|
  {
    var all := set i | 0 <= i < |scenarios| && r.identity(scenarios[i]) == base;
    if scenarios == [] {
      assert all == {};
    } else {
      var n := |scenarios| - 1;
      var before := set i | 0 <= i < n && r.identity(scenarios[..n][i]) == base;
      OccurrencesAre(r, scenarios[..n], base);
      assert forall i :: i in all <==> i in before || (i == n && r.identity(scenarios[n]) == base);
      assert n !in before;
      if r.identity(scenarios[n]) == base { assert all == before + {n}; } else { assert all == before; }
    }
  }

  // The scenario at k, numbered among those before it with its identity.
  function SemanticAt(r: Reading, scenarios: seq<Scenario>, k: nat): Semantic
    requires k < |scenarios|
  {
    var c := scenarios[k];
    var key := r.key(r.identity(c), Occurrences(r, scenarios[..k + 1], r.identity(c)));
    Semantic(ScenarioTracking(key, c.id, r.fingerprint(c), []), c)
  }

  ghost predicate ReadsAs(r: Reading, scenarios: seq<Scenario>, semantics: seq<Semantic>) {
    |semantics| == |scenarios|
    && forall k {:trigger semantics[k]} :: 0 <= k < |scenarios| ==> semantics[k] == SemanticAt(r, scenarios, k)
  }

  // ------------------------------------------------------------------- distinct keys

  lemma {:induction false} OccurrencesAppend(r: Reading, a: seq<Scenario>, b: seq<Scenario>, base: string)
    ensures Occurrences(r, a + b, base) == Occurrences(r, a, base) + Occurrences(r, b, base)
  {
    if b == [] {
      assert a + b == a;
    } else {
      OccurrencesAppend(r, a, b[..|b| - 1], base);
      assert (a + b)[..|a + b| - 1] == a + b[..|b| - 1];
    }
  }

  lemma OccurrencesRise(r: Reading, scenarios: seq<Scenario>, i: nat, k: nat)
    requires i < k < |scenarios|
    ensures var base := r.identity(scenarios[k]);
      Occurrences(r, scenarios[..i + 1], base) < Occurrences(r, scenarios[..k + 1], base)
  {
    var base := r.identity(scenarios[k]);
    assert scenarios[..k + 1][..k] == scenarios[..k];
    assert scenarios[..k] == scenarios[..i + 1] + scenarios[i + 1..k];
    OccurrencesAppend(r, scenarios[..i + 1], scenarios[i + 1..k], base);
  }

  lemma {:induction false} OccurrencesWithin(r: Reading, scenarios: seq<Scenario>, base: string)
    ensures Occurrences(r, scenarios, base) <= |scenarios|
  {
    if scenarios != [] { OccurrencesWithin(r, scenarios[..|scenarios| - 1], base); }
  }

  // The numbers run from one to at most the number of scenarios.
  lemma NumberWithin(r: Reading, scenarios: seq<Scenario>, k: nat)
    requires k < |scenarios|
    ensures 1 <= Occurrences(r, scenarios[..k + 1], r.identity(scenarios[k])) <= |scenarios|
  {
    assert scenarios[..k + 1][..k] == scenarios[..k];
    OccurrencesWithin(r, scenarios[..k + 1], r.identity(scenarios[k]));
  }

  // Two scenarios share a key only if they are one: same names give different numbers.
  lemma KeysAreDistinct(r: Reading, scenarios: seq<Scenario>, semantics: seq<Semantic>)
    requires ReadingOk(r, scenarios) && ReadsAs(r, scenarios, semantics)
    ensures NoDup(KeyOfEach(Trackings(semantics)))
  {
    forall i, k | 0 <= i < k < |semantics| ensures semantics[i].tracking.key != semantics[k].tracking.key {
      assert semantics[i] == SemanticAt(r, scenarios, i) && semantics[k] == SemanticAt(r, scenarios, k);
      NumberWithin(r, scenarios, i);
      NumberWithin(r, scenarios, k);
      OccurrencesRise(r, scenarios, i, k);
      assert scenarios[i] in scenarios && scenarios[k] in scenarios;
    }
  }

  // ---------------------------------------------------------- compileSemanticScenarios

  // The scenarios of the compiled features, as read again and numbered.
  ghost predicate SameFeatures(features: seq<Compiler.Feature>, semantics: seq<Semantic>) {
    && SemanticsOk(semantics) && (forall s :: s in semantics ==> s.tracking.tasks == [])
    && (forall c :: c in Compiler.AllScenarios(features) ==> Tracked(semantics, c.id))
    && (forall s :: s in semantics ==> exists c :: c in Compiler.AllScenarios(features) && c.id == s.scenario.id)
    && semantics != []
  }

  // The counter before the scenario at j of a feature.
  ghost predicate Counted(r: Reading, scenarios: seq<Scenario>, occurrences: map<string, nat>) {
    forall base :: Occurrences(r, scenarios, base) == if base in occurrences then occurrences[base] else 0
  }

  lemma CountedNext(r: Reading, scenarios: seq<Scenario>, j: nat, occurrences: map<string, nat>, n: nat)
    requires j < |scenarios| && Counted(r, scenarios[..j], occurrences)
    requires var base := r.identity(scenarios[j]); n == if base in occurrences then occurrences[base] else 0
    ensures Counted(r, scenarios[..j + 1], occurrences[r.identity(scenarios[j]) := n + 1])
    ensures Occurrences(r, scenarios[..j + 1], r.identity(scenarios[j])) == n + 1
  {
    assert scenarios[..j + 1][..j] == scenarios[..j];
  }

  // No scenario of an earlier feature has an identity of this one.
  lemma {:induction false} NotInEarlier(r: Reading, features: seq<Compiler.Feature>, f: nat, n: nat, c: Scenario)
    requires NamesIncludeUri(r, Compiler.AllScenarios(features)) && Located(features)
    requires n <= f < |features| && c in features[f].scenarios
    ensures Occurrences(r, Compiler.AllScenarios(features[..n]), r.identity(c)) == 0
  {
    if n > 0 {
      var g := features[n - 1];
      assert features[..n][..n - 1] == features[..n - 1];
      NotInEarlier(r, features, f, n - 1, c);
      OccurrencesAppend(r, Compiler.AllScenarios(features[..n - 1]), g.scenarios, r.identity(c));
      assert features[f] in features && g in features && g.uri != features[f].uri;
      forall x | x in g.scenarios ensures r.identity(x) != r.identity(c) {
        Compiler.ScenarioIsIn(features, g, x);
        Compiler.ScenarioIsIn(features, features[f], c);
      }
      NotAmong(r, g.scenarios, r.identity(c));
    }
  }

  lemma {:induction false} NotAmong(r: Reading, scenarios: seq<Scenario>, base: string)
    requires forall x :: x in scenarios ==> r.identity(x) != base
    ensures Occurrences(r, scenarios, base) == 0
  {
    if scenarios != [] {
      NotAmong(r, scenarios[..|scenarios| - 1], base);
      assert scenarios[|scenarios| - 1] in scenarios;
    }
  }

  lemma ReadsSnoc(r: Reading, scenarios: seq<Scenario>, semantics: seq<Semantic>, c: Scenario)
    requires ReadsAs(r, scenarios, semantics)
    ensures ReadsAs(r, scenarios + [c], semantics + [SemanticAt(r, scenarios + [c], |scenarios|)])
  {
    var longer, next := scenarios + [c], semantics + [SemanticAt(r, scenarios + [c], |scenarios|)];
    forall k | 0 <= k < |longer| ensures next[k] == SemanticAt(r, longer, k) {
      if k < |scenarios| {
        assert semantics[k] == SemanticAt(r, scenarios, k);
        assert longer[..k + 1] == scenarios[..k + 1];
      }
    }
  }

  // The counter starts anew in every feature, yet no key repeats among all features.
  method CompileSemanticScenarios(r: Reading, features: seq<Compiler.Feature>) returns (semantics: seq<Semantic>)
    requires ReadingOk(r, Compiler.AllScenarios(features)) && Located(features)
    requires features != [] && forall f :: f in features ==> f.scenarios != []
    requires NoDup(Compiler.ScenarioIds(Compiler.AllScenarios(features)))
    ensures ReadsAs(r, Compiler.AllScenarios(features), semantics) && SameFeatures(features, semantics)
    ensures var all := Compiler.AllScenarios(features);
      |semantics| == |all| && forall k :: 0 <= k < |all| ==> Reads(r, all, k, semantics[k])
  {
    semantics := [];
    for f := 0 to |features|
      invariant ReadsAs(r, Compiler.AllScenarios(features[..f]), semantics)
    {
      assert features[..f + 1][..f] == features[..f];
      var own := ReadFeature(r, features, f, semantics);
      semantics := own;
    }
    assert features[..|features|] == features;
    ReadIsSame(r, features, semantics);
    forall k | 0 <= k < |semantics| ensures Reads(r, Compiler.AllScenarios(features), k, semantics[k]) {
      SemanticReads(r, Compiler.AllScenarios(features), k);
    }
  }

  // What is read of the scenario at k: itself, its fingerprint, and the key of its names with its
  // number among the scenarios up to it that have the same names.
  ghost predicate Reads(r: Reading, all: seq<Scenario>, k: nat, s: Semantic)
    requires k < |all|
  {
    && s.scenario == all[k] && s.tracking.id == all[k].id && s.tracking.fingerprint == r.fingerprint(all[k])
    && s.tracking.tasks == []
    && s.tracking.key == r.key(r.identity(all[k]), |set i | 0 <= i <= k && r.identity(all[i]) == r.identity(all[k])|)
  }

  lemma SemanticReads(r: Reading, all: seq<Scenario>, k: nat)
    requires k < |all|
    ensures Reads(r, all, k, SemanticAt(r, all, k))
  {
    var base := r.identity(all[k]);
    var some := all[..k + 1];
    OccurrencesAre(r, some, base);
    assert (set i | 0 <= i < |some| && r.identity(some[i]) == base)
      == set i | 0 <= i <= k && r.identity(all[i]) == base;
  }

  method ReadFeature(r: Reading, features: seq<Compiler.Feature>, f: nat, semantics0: seq<Semantic>)
    returns (semantics: seq<Semantic>)
    requires NamesIncludeUri(r, Compiler.AllScenarios(features)) && Located(features) && f < |features|
    requires ReadsAs(r, Compiler.AllScenarios(features[..f]), semantics0)
    ensures ReadsAs(r, Compiler.AllScenarios(features[..f]) + features[f].scenarios, semantics)
  {
    ghost var before := Compiler.AllScenarios(features[..f]);
    var scenarios := features[f].scenarios;
    var occurrences: map<string, nat> := map[];
    semantics := semantics0;
    assert before + scenarios[..0] == before;
    for j := 0 to |scenarios|
      invariant Counted(r, scenarios[..j], occurrences)
      invariant ReadsAs(r, before + scenarios[..j], semantics)
    {
      var c := scenarios[j];
      var base := r.identity(c);
      var n: nat := if base in occurrences then occurrences[base] else 0;
      CountedNext(r, scenarios, j, occurrences, n);
      ReadsNext(r, features, f, j, semantics, n + 1);
      occurrences := occurrences[base := n + 1];
      semantics := semantics + [Semantic(ScenarioTracking(r.key(base, n + 1), c.id, r.fingerprint(c), []), c)];
    }
    assert scenarios[..|scenarios|] == scenarios;
  }

  // The number within the feature is the number among all scenarios so far.
  lemma NumberedAmongAll(r: Reading, features: seq<Compiler.Feature>, f: nat, j: nat)
    requires NamesIncludeUri(r, Compiler.AllScenarios(features)) && Located(features)
    requires f < |features| && j < |features[f].scenarios|
    ensures var before, scenarios := Compiler.AllScenarios(features[..f]), features[f].scenarios;
      var c, all := scenarios[j], before + scenarios[..j] + [scenarios[j]];
      && SemanticAt(r, all, |all| - 1).scenario == c
      && SemanticAt(r, all, |all| - 1).tracking
         == ScenarioTracking(r.key(r.identity(c), Occurrences(r, scenarios[..j + 1], r.identity(c))), c.id,
                             r.fingerprint(c), [])
  {
    var before, scenarios := Compiler.AllScenarios(features[..f]), features[f].scenarios;
    var c, all := scenarios[j], before + scenarios[..j] + [scenarios[j]];
    NotInEarlier(r, features, f, f, c);
    OccurrencesAppend(r, before, scenarios[..j + 1], r.identity(c));
    assert all[..|all|] == all && all == before + scenarios[..j + 1];
  }

  lemma ReadsNext(r: Reading, features: seq<Compiler.Feature>, f: nat, j: nat, semantics: seq<Semantic>, n: nat)
    requires NamesIncludeUri(r, Compiler.AllScenarios(features)) && Located(features)
    requires f < |features| && j < |features[f].scenarios|
    requires ReadsAs(r, Compiler.AllScenarios(features[..f]) + features[f].scenarios[..j], semantics)
    requires var scenarios := features[f].scenarios; n == Occurrences(r, scenarios[..j + 1], r.identity(scenarios[j]))
    ensures var c := features[f].scenarios[j];
      ReadsAs(r, Compiler.AllScenarios(features[..f]) + features[f].scenarios[..j + 1],
              semantics + [Semantic(ScenarioTracking(r.key(r.identity(c), n), c.id, r.fingerprint(c), []), c)])
  {
    var before, scenarios := Compiler.AllScenarios(features[..f]), features[f].scenarios;
    NumberedAmongAll(r, features, f, j);
    ReadsSnoc(r, before + scenarios[..j], semantics, scenarios[j]);
    assert before + scenarios[..j + 1] == before + scenarios[..j] + [scenarios[j]];
  }

  lemma ReadIsSame(r: Reading, features: seq<Compiler.Feature>, semantics: seq<Semantic>)
    requires ReadingOk(r, Compiler.AllScenarios(features)) && Located(features)
    requires features != [] && forall f :: f in features ==> f.scenarios != []
    requires NoDup(Compiler.ScenarioIds(Compiler.AllScenarios(features)))
    requires ReadsAs(r, Compiler.AllScenarios(features), semantics)
    ensures SameFeatures(features, semantics)
  {
    var all := Compiler.AllScenarios(features);
    KeysAreDistinct(r, all, semantics);
    assert IdOfEach(Trackings(semantics)) == Compiler.ScenarioIds(all);
    forall s | s in semantics ensures SemanticOk(s) && s.tracking.tasks == [] && s.scenario in all {
      var k :| 0 <= k < |semantics| && semantics[k] == s;
      NamesAreNotBlank(features, all[k]);
      NumberWithin(r, all, k);
      assert all[k] in all && semantics[k] == SemanticAt(r, all, k);
    }
    forall c | c in all ensures Tracked(semantics, c.id) {
      var k :| 0 <= k < |all| && all[k] == c;
      assert semantics[k] in semantics;
    }
    assert features[|features| - 1] in features;
  }

  lemma {:induction false} NamesAreNotBlank(features: seq<Compiler.Feature>, c: Scenario)
    requires Located(features) && c in Compiler.AllScenarios(features)
    ensures !Blank(c.id)
  {
    var n := |features| - 1;
    assert features[n] in features;
    if c !in features[n].scenarios {
      LocatedPrefix(features, n);
      NamesAreNotBlank(features[..n], c);
    }
  }

  lemma LocatedPrefix(features: seq<Compiler.Feature>, n: nat)
    requires Located(features) && n <= |features|
    ensures Located(features[..n])
  {
  }
}
