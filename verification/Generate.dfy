// workflow/generate.go and workflow/generate_codex.go: the task graphs of generated
// workflow specifications.
module Generate {
  import opened Ids
  import opened Graph
  import opened Types
  import opened Texts
  import opened Compiler
  import Planner

  const REVIEW: Id := "review-all"

  lemma SamePlace<T>(s: seq<T>, p: int, q: int)
    requires NoDup(s) && 0 <= p < |s| && 0 <= q < |s| && s[p] == s[q]
    ensures p == q
  {
  }

  // A review task that needs every other task comes last in every topological order.
  lemma ReviewComesLast(g: Needs, order: seq<Id>)
    requires Topological(g, order) && REVIEW in g && forall x :: x in g && x != REVIEW ==> x in g[REVIEW]
    ensures order != [] && order[|order| - 1] == REVIEW
  {
    assert REVIEW in order;
    var i := IndexOf(order, REVIEW);
    assert NeedsMet(g, Elems(order[..i]), order[i]);
    forall j | 0 <= j < |order| && order[j] != REVIEW ensures j < i {
      assert order[j] in order && order[j] in order[..i];
      var k :| 0 <= k < i && order[k] == order[j];
      SamePlace(order, k, j);
    }
  }

  // ------------------------------------------------------- deterministic generation

  // The prompts, whose fixed part is not blank.
  datatype Prompts = Prompts(implement: string, review: string)

  ghost predicate PromptsOk(prompts: Prompts) {
    !Blank(prompts.implement) && !Blank(prompts.review)
  }

  // One attempt at a prompt.
  function PromptTask(id: Id, needs: seq<Id>, selectors: seq<string>, prompt: string, model: string,
                      effort: string): TaskSpec
  {
    TaskSpec(id, needs, selectors, 1, true, Work([], prompt, model, effort, 0, NoTimeout))
  }

  // Each feature's task needs the one before; the review needs them all.
  ghost function ChainTask(ids: seq<Id>, selectors: seq<string>, model: string, prompts: Prompts, i: nat): TaskSpec
    requires |selectors| == |ids| && i <= |ids|
  {
    if i == |ids| then PromptTask(REVIEW, ids, [], prompts.review, model, "")
    else PromptTask(ids[i], if i == 0 then [] else [ids[i - 1]], [selectors[i]], prompts.implement, model, "")
  }

  ghost predicate IsChain(ids: seq<Id>, selectors: seq<string>, model: string, prompts: Prompts, specs: seq<TaskSpec>)
    requires |selectors| == |ids|
  {
    |specs| == |ids| + 1 &&
       forall i {:trigger specs[i]} :: 0 <= i <= |ids| ==> specs[i] == ChainTask(ids, selectors, model, prompts, i)
  }

  // The loop of Generate over the features.
  method ChainTasks(ids: seq<Id>, selectors: seq<string>, model: string, prompts: Prompts)
    returns (specs: seq<TaskSpec>)
    requires |selectors| == |ids|
    ensures IsChain(ids, selectors, model, prompts, specs)
    ensures forall i :: 0 <= i < |ids| ==>
      && specs[i].id == ids[i] && specs[i].selectors == [selectors[i]]
      && specs[i].needs == (if i == 0 then [] else [ids[i - 1]])
      && specs[i].attempts == 1 && specs[i].work == Work([], prompts.implement, model, "", 0, NoTimeout)
    ensures var review := specs[|ids|];
      && review.id == "review-all" && review.selectors == [] && review.needs == ids
      && review.attempts == 1 && review.work == Work([], prompts.review, model, "", 0, NoTimeout)
  {
    specs := [];
    var needs: seq<Id> := [];
    for i := 0 to |ids|
      invariant needs == ids[..i] && |specs| == i
      invariant forall k {:trigger specs[k]} :: 0 <= k < i ==> specs[k] == ChainTask(ids, selectors, model, prompts, k)
    {
      var prerequisites: seq<Id> := [];
      if |needs| > 0 {
        prerequisites := [needs[|needs| - 1]];
      }
      needs := needs + [ids[i]];
      specs := specs + [PromptTask(ids[i], prerequisites, [selectors[i]], prompts.implement, model, "")];
    }
    specs := specs + [PromptTask(REVIEW, needs, [], prompts.review, model, "")];
    ChainSays(ids, selectors, model, prompts, specs);
  }

  lemma ChainSays(ids: seq<Id>, selectors: seq<string>, model: string, prompts: Prompts, specs: seq<TaskSpec>)
    requires |selectors| == |ids| && IsChain(ids, selectors, model, prompts, specs)
    ensures forall i :: 0 <= i < |ids| ==>
      && specs[i].id == ids[i] && specs[i].selectors == [selectors[i]]
      && specs[i].needs == (if i == 0 then [] else [ids[i - 1]])
      && specs[i].attempts == 1 && specs[i].work == Work([], prompts.implement, model, "", 0, NoTimeout)
    ensures var review := specs[|ids|];
      && review.id == "review-all" && review.selectors == [] && review.needs == ids
      && review.attempts == 1 && review.work == Work([], prompts.review, model, "", 0, NoTimeout)
  {
  }

  ghost function ChainOf(ids: seq<Id>): seq<Id> {
    ids + [REVIEW]
  }

  ghost function ChainNeeds(ids: seq<Id>, i: nat): seq<Id>
    requires i <= |ids|
  {
    if i == |ids| then ids else if i == 0 then [] else [ids[i - 1]]
  }

  ghost predicate IsChainGraph(g: Needs, ids: seq<Id>) {
    && NoDup(ChainOf(ids))
    && (forall x :: x in g <==> x in ChainOf(ids))
    && forall i {:trigger ChainNeeds(ids, i)} :: 0 <= i <= |ids| ==>
      ChainOf(ids)[i] in g && g[ChainOf(ids)[i]] == ChainNeeds(ids, i)
  }

  lemma ChainSpecsAreChain(ids: seq<Id>, selectors: seq<string>, model: string, prompts: Prompts, specs: seq<TaskSpec>)
    requires |selectors| == |ids| && IsChain(ids, selectors, model, prompts, specs)
    ensures SpecIds(specs) == ChainOf(ids)
    ensures NoDup(ChainOf(ids)) ==> IsChainGraph(SpecGraph(specs), ids)
  {
    forall i | 0 <= i <= |ids| ensures SpecIds(specs)[i] == ChainOf(ids)[i] {
      assert specs[i] == ChainTask(ids, selectors, model, prompts, i);
    }
    assert SpecIds(specs) == ChainOf(ids);
    forall i | 0 <= i <= |ids| && NoDup(ChainOf(ids))
      ensures ChainOf(ids)[i] in SpecGraph(specs) && SpecGraph(specs)[ChainOf(ids)[i]] == ChainNeeds(ids, i)
    {
      SpecGraphAt(specs, i);
    }
  }

  // The needs of a task of the chain all precede it; its predecessor is one of them.
  lemma ChainNeedsFacts(ids: seq<Id>, i: nat)
    requires i <= |ids|
    ensures forall n :: n in ChainNeeds(ids, i) ==> n in ChainOf(ids)[..i]
    ensures i > 0 ==> ChainOf(ids)[i - 1] in ChainNeeds(ids, i)
  {
    if i == |ids| {
      assert ChainOf(ids)[..i] == ids;
    } else if i > 0 {
      assert ChainOf(ids)[..i][i - 1] == ids[i - 1];
    }
  }

  // After the first k tasks of the chain the next one, and only it, is ready.
  lemma OnlyNextIsReady(g: Needs, ids: seq<Id>, k: nat, x: Id)
    requires IsChainGraph(g, ids) && k <= |ids|
    requires Ready(g, Elems(ChainOf(ids)[..k]), x)
    ensures x == ChainOf(ids)[k]
  {
    var chain := ChainOf(ids);
    assert forall j :: 0 <= j < k ==> chain[j] in chain[..k];
    var i :| 0 <= i < |chain| && chain[i] == x;
    assert g[x] == ChainNeeds(ids, i);
    ChainNeedsFacts(ids, i);
    if i > 0 {
      assert chain[i - 1] in ChainNeeds(ids, i) && chain[i - 1] in chain[..k];
      var j :| 0 <= j < k && chain[j] == chain[i - 1];
      SamePlace(chain, j, i - 1);
    }
  }

  lemma NextIsReady(g: Needs, ids: seq<Id>, k: nat)
    requires IsChainGraph(g, ids) && k <= |ids|
    ensures Ready(g, Elems(ChainOf(ids)[..k]), ChainOf(ids)[k])
  {
    ChainNeedsFacts(ids, k);
    forall j | 0 <= j < k ensures ChainOf(ids)[j] != ChainOf(ids)[k] {}
    assert g[ChainOf(ids)[k]] == ChainNeeds(ids, k);
  }

  lemma ReadyOnChain(g: Needs, ids: seq<Id>, k: nat)
    requires IsChainGraph(g, ids) && k <= |ids|
    ensures Planner.ReadySet(g, Elems(ChainOf(ids)[..k])) == {ChainOf(ids)[k]}
  {
    NextIsReady(g, ids, k);
    forall x | x in Planner.ReadySet(g, Elems(ChainOf(ids)[..k])) ensures x == ChainOf(ids)[k] {
      OnlyNextIsReady(g, ids, k, x);
    }
  }

  lemma {:induction false} ChainOrderIsForced(g: Needs, ids: seq<Id>, k: nat)
    requires IsChainGraph(g, ids) && k <= |ids| + 1
    ensures Planner.Greedy(g, Elems(ChainOf(ids)[..k])) == ChainOf(ids)[k..]
    decreases |ids| + 1 - k
  {
    var chain := ChainOf(ids);
    if k <= |ids| {
      ChainOrderIsForced(g, ids, k + 1);
      TakesNext(g, ids, k);
      HeadAndTail(chain, k);
    } else {
      ChainEnds(g, ids);
      assert chain[..k] == chain;
    }
  }

  lemma HeadAndTail<T>(s: seq<T>, k: nat)
    requires k < |s|
    ensures s[k..] == [s[k]] + s[k + 1..]
  {
  }

  lemma ChainEnds(g: Needs, ids: seq<Id>)
    requires IsChainGraph(g, ids)
    ensures Planner.Greedy(g, Elems(ChainOf(ids))) == []
  {
    assert Planner.ReadySet(g, Elems(ChainOf(ids))) == {};
  }

  lemma TakesNext(g: Needs, ids: seq<Id>, k: nat)
    requires IsChainGraph(g, ids) && k <= |ids|
    ensures Planner.Greedy(g, Elems(ChainOf(ids)[..k])) ==
      [ChainOf(ids)[k]] + Planner.Greedy(g, Elems(ChainOf(ids)[..k + 1]))
  {
    var chain := ChainOf(ids);
    ReadyOnChain(g, ids, k);
    GreedyTakesOnly(g, Elems(chain[..k]), chain[k]);
    assert chain[..k + 1] == chain[..k] + [chain[k]];
    ElemsSnoc(chain[..k], chain[k]);
  }

  lemma GreedyTakesOnly(g: Needs, done: set<Id>, x: Id)
    requires Planner.ReadySet(g, done) == {x}
    ensures Planner.Greedy(g, done) == [x] + Planner.Greedy(g, done + {x})
  {
    assert Least(Planner.ReadySet(g, done)) == x;
  }

  lemma ChainIsPlanned(g: Needs, ids: seq<Id>)
    requires IsChainGraph(g, ids)
    ensures Known(g) && Unrepeated(g) && !HasCycle(g) && Planner.Greedy(g, {}) == ChainOf(ids)
  {
    var chain := ChainOf(ids);
    ChainOrderIsForced(g, ids, 0);
    assert Elems(chain[..0]) == {} && chain[0..] == chain;
    forall x | x in g ensures Planner.TaskIsSound(g, x) {
      var i :| 0 <= i < |chain| && chain[i] == x;
      ChainTaskIsSound(g, ids, i);
    }
    assert Elems(chain) == g.Keys;
    Planner.GreedyCoversIffAcyclic(g);
  }

  lemma ChainTaskIsSound(g: Needs, ids: seq<Id>, i: nat)
    requires IsChainGraph(g, ids) && i <= |ids|
    ensures ChainOf(ids)[i] in g && Planner.TaskIsSound(g, ChainOf(ids)[i])
  {
    ChainNeedsFacts(ids, i);
    assert g[ChainOf(ids)[i]] == ChainNeeds(ids, i);
    forall a, b | 0 <= a < b < |ids| ensures ids[a] != ids[b] {
      assert ChainOf(ids)[a] != ChainOf(ids)[b];
    }
    forall n | n in ChainNeeds(ids, i) ensures n in g {
      assert n in ChainOf(ids)[..i] && n in ChainOf(ids);
    }
  }

  ghost predicate ChainSelectorsOk(policy: Policy, selectors: seq<string>, features: seq<Feature>) {
    forall i {:trigger selectors[i]} :: 0 <= i < |selectors| ==> SelectorOk(policy, selectors[i], features)
  }

  lemma {:induction false} OneSelectorChooses(policy: Policy, s: string, features: seq<Feature>, f: Feature)
    requires f in features && policy.matches(s, f.uri) == Some(true)
    ensures Chosen(policy, [s], features) != []
  {
    var init, last := features[..|features| - 1], features[|features| - 1];
    if f == last {
      assert s in [s] && Matches(policy, [s], last.uri);
    } else {
      OneSelectorChooses(policy, s, init, f);
    }
  }

  // The identifier is a safe name and there is a model.
  ghost predicate ChainFieldsOk(policy: Policy, model: string, id: Id) {
    SafeName(id) && !(Blank(model) && Blank(policy.model))
  }

  ghost predicate ChainTaskOk(policy: Policy, model: string, ids: seq<Id>, selectors: seq<string>,
                              features: seq<Feature>, i: nat)
    requires |selectors| == |ids| && i <= |ids|
  {
    && ChainFieldsOk(policy, model, ChainOf(ids)[i])
    && if i == |ids| then features != [] else SelectorOk(policy, selectors[i], features)
  }

  // When a chain compiles: its effort is known, its identifiers are safe and distinct, it
  // has a model and features, and every selector matches one.
  ghost predicate ChainOk(policy: Policy, model: string, ids: seq<Id>, selectors: seq<string>, features: seq<Feature>) {
    EffortOk(policy.effort) && ChainIdsOk(policy, model, ids) && features != []
    && ChainSelectorsOk(policy, selectors, features)
  }

  ghost predicate ChainIdsOk(policy: Policy, model: string, ids: seq<Id>) {
    NoDup(ChainOf(ids)) && forall i :: 0 <= i <= |ids| ==> ChainFieldsOk(policy, model, ChainOf(ids)[i])
  }

  lemma ChainSpecOk(ids: seq<Id>, selectors: seq<string>, model: string, prompts: Prompts, specs: seq<TaskSpec>,
                    policy: Policy, features: seq<Feature>, i: nat)
    requires |selectors| == |ids| && IsChain(ids, selectors, model, prompts, specs) && i <= |ids| && PromptsOk(prompts)
    ensures SpecOk(policy, features, specs[i]) <==> ChainTaskOk(policy, model, ids, selectors, features, i)
  {
    if i == |ids| {
      ChosenAll(policy, features);
    } else if SelectorOk(policy, selectors[i], features) {
      var f :| f in features && policy.matches(selectors[i], f.uri) == Some(true);
      OneSelectorChooses(policy, selectors[i], features, f);
    } else {
      assert specs[i].selectors == [selectors[i]] && selectors[i] in specs[i].selectors;
    }
  }

  // The review names no selector, so it is assigned every scenario.
  lemma ReviewCoversAll(ids: seq<Id>, selectors: seq<string>, model: string, prompts: Prompts, specs: seq<TaskSpec>,
                        policy: Policy, features: seq<Feature>, s: Scenario)
    requires |selectors| == |ids| && IsChain(ids, selectors, model, prompts, specs) && s in AllScenarios(features)
    ensures AssignedBySpec(policy, features, specs, s.id)
  {
    ChosenAll(policy, features);
    var all := AllScenarios(features);
    var k :| 0 <= k < |all| && all[k] == s;
    assert ScenarioIds(all)[k] == s.id;
    assert s.id in ScenarioIds(AllScenarios(Chosen(policy, specs[|ids|].selectors, features)));
  }

  lemma ChainTasksOk(ids: seq<Id>, selectors: seq<string>, model: string, prompts: Prompts, specs: seq<TaskSpec>,
                     policy: Policy, features: seq<Feature>)
    requires |selectors| == |ids| && IsChain(ids, selectors, model, prompts, specs) && PromptsOk(prompts)
    ensures (forall i :: 0 <= i < |specs| ==> SpecOk(policy, features, specs[i]))
      <==> (forall i: nat :: i <= |ids| ==> ChainTaskOk(policy, model, ids, selectors, features, i))
  {
    forall i: nat | i <= |ids|
      ensures SpecOk(policy, features, specs[i]) <==> ChainTaskOk(policy, model, ids, selectors, features, i)
    {
      ChainSpecOk(ids, selectors, model, prompts, specs, policy, features, i);
    }
  }

  lemma ChainTasksAre(policy: Policy, model: string, ids: seq<Id>, selectors: seq<string>, features: seq<Feature>)
    requires |selectors| == |ids|
    ensures NoDup(ChainOf(ids)) && EffortOk(policy.effort)
      && (forall i: nat :: i <= |ids| ==> ChainTaskOk(policy, model, ids, selectors, features, i))
      <==> ChainOk(policy, model, ids, selectors, features)
  {
    if forall i: nat :: i <= |ids| ==> ChainTaskOk(policy, model, ids, selectors, features, i) {
      assert ChainTaskOk(policy, model, ids, selectors, features, |ids|);
      forall i: nat | i < |ids|
        ensures SelectorOk(policy, selectors[i], features) && ChainFieldsOk(policy, model, ChainOf(ids)[i])
      {
        assert ChainTaskOk(policy, model, ids, selectors, features, i);
      }
    }
  }

  lemma ChainCompiles(ids: seq<Id>, selectors: seq<string>, model: string, prompts: Prompts, specs: seq<TaskSpec>,
                      policy: Policy, features: seq<Feature>)
    requires |selectors| == |ids| && IsChain(ids, selectors, model, prompts, specs) && PromptsOk(prompts)
    ensures Compilable(policy, features, specs) <==> ChainOk(policy, model, ids, selectors, features)
    ensures NoDup(ChainOf(ids)) ==> NoDup(SpecIds(specs)) && Planner.Greedy(SpecGraph(specs), {}) == ChainOf(ids)
  {
    ChainSpecsAreChain(ids, selectors, model, prompts, specs);
    ChainTasksOk(ids, selectors, model, prompts, specs, policy, features);
    ChainTasksAre(policy, model, ids, selectors, features);
    forall s | s in AllScenarios(features) ensures AssignedBySpec(policy, features, specs, s.id) {
      ReviewCoversAll(ids, selectors, model, prompts, specs, policy, features, s);
    }
    if NoDup(ChainOf(ids)) {
      ChainIsPlanned(SpecGraph(specs), ids);
    }
  }

  // The deterministic generator's specification, compiled at once as Generate does. It
  // compiles unless an identifier is unsafe or repeated, there is no model, the effort is
  // unknown or a selector fails, and whatever the identifiers it is planned in the order of
  // its features with the review last.
  method GenerateAndCompile(ids: seq<Id>, selectors: seq<string>, prompts: Prompts, policy: Policy,
                            features: seq<Feature>)
    returns (specs: seq<TaskSpec>, compiled: Result<seq<Task>, CompileError>)
    requires |selectors| == |ids| && PromptsOk(prompts)
    requires forall f :: f in features ==> f.scenarios != []
    requires NoDup(ScenarioIds(AllScenarios(features)))
    ensures IsChain(ids, selectors, policy.model, prompts, specs)
    ensures compiled.Ok? <==> ChainOk(policy, policy.model, ids, selectors, features)
    ensures compiled.Ok? ==> IdsOf(compiled.value) == ids + [REVIEW]
  {
    specs := ChainTasks(ids, selectors, policy.model, prompts);
    ChainCompiles(ids, selectors, policy.model, prompts, specs, policy, features);
    compiled := CompileTasks(policy, features, specs);
  }

  // -------------------------------------------------------------- Codex generation

  datatype PlannedTask = PlannedTask(id: Id, features: seq<string>, needs: seq<Id>, model: string, effort: string,
                                     rationale: string)

  datatype CodexPlan = CodexPlan(tasks: seq<PlannedTask>, reviewModel: string, reviewEffort: string)

  datatype CodexError =
    | BadChoice(model: string, effort: string)
    | NothingPlanned
    | BadTaskId(id: Id)
    | NoFeatures(id: Id)
    | NoRationale(id: Id)
    | UnselectedFeature(id: Id, uri: string)
    | FeatureRepeated(uri: string)
    | FeaturesOmitted
    | UnknownDependency(id: Id, need: Id)

  // generationEffortValid.
  predicate ChoiceOk(models: set<string>, model: string, effort: string) {
    model in models && effort in {"low", "medium", "high", "xhigh"}
  }

  // The implementation prompt ends with the task's rationale.
  datatype CodexPrompts = CodexPrompts(implement: string -> string, review: string)

  predicate TaskOk(models: set<string>, t: PlannedTask) {
    t.id != REVIEW && !Blank(t.id) && ChoiceOk(models, t.model, t.effort) && t.features != [] && !Blank(t.rationale)
  }

  function AllFeatures(tasks: seq<PlannedTask>): seq<string> {
    if tasks == [] then [] else AllFeatures(tasks[..|tasks| - 1]) + tasks[|tasks| - 1].features
  }

  function PlannedIds(tasks: seq<PlannedTask>): (r: seq<Id>)
    ensures |r| == |tasks| && forall i :: 0 <= i < |r| ==> r[i] == tasks[i].id
  {
    seq(|tasks|, i requires 0 <= i < |tasks| => tasks[i].id)
  }

  function SelectorsFor(selected: map<string, string>, uris: seq<string>): (r: seq<string>)
    requires forall i :: 0 <= i < |uris| ==> uris[i] in selected
  {
    seq(|uris|, i requires 0 <= i < |uris| => selected[uris[i]])
  }

  // One task's features: each selected, and not yet covered by any task.
  method AssignFeatures(t: PlannedTask, selected: map<string, string>, covered0: set<string>, ghost before: seq<string>)
    returns (problem: Option<CodexError>, covered: set<string>, selectors: seq<string>)
    requires NoDup(before) && covered0 == Elems(before)
    ensures problem.None? <==> NoDup(before + t.features) && forall u :: u in t.features ==> u in selected
    ensures problem.None? ==> covered == Elems(before + t.features)
    ensures problem.None? ==> selectors == SelectorsFor(selected, t.features)
  {
    covered, selectors := covered0, [];
    ghost var all := before;
    assert before + t.features[..0] == before;
    for k := 0 to |t.features|
      invariant all == before + t.features[..k] && NoDup(all) && covered == Elems(all)
      invariant forall i :: 0 <= i < k ==> t.features[i] in selected
      invariant selectors == SelectorsFor(selected, t.features[..k])
    {
      var uri := t.features[k];
      if uri !in selected {
        return Some(UnselectedFeature(t.id, uri)), covered, selectors;
      }
      if uri in covered {
        RepeatInExtension(before, t.features, k);
        return Some(FeatureRepeated(uri)), covered, selectors;
      }
      NoDupSnoc(all, uri);
      ElemsSnoc(all, uri);
      assert before + t.features[..k + 1] == all + [uri];
      all := all + [uri];
      covered := covered + {uri};
      selectors := selectors + [selected[uri]];
    }
    assert t.features[..|t.features|] == t.features;
    problem := None;
  }

  lemma RepeatInExtension(before: seq<string>, features: seq<string>, k: nat)
    requires k < |features| && features[k] in before + features[..k]
    ensures !NoDup(before + features)
  {
    var i :| 0 <= i < |before| + k && (before + features[..k])[i] == features[k];
    assert (before + features)[i] == (before + features)[|before| + k];
  }

  // What an accepted plan becomes.
  ghost predicate CodexSpec(prompts: CodexPrompts, plan: CodexPlan, selected: map<string, string>, specs: seq<TaskSpec>)
  {
    && |specs| == |plan.tasks| + 1 && SpecsFor(prompts, plan.tasks, selected, specs[..|plan.tasks|])
    && specs[|plan.tasks|] == PromptTask(REVIEW, PlannedIds(plan.tasks), [], prompts.review, plan.reviewModel,
                                         plan.reviewEffort)
  }

  ghost predicate SpecFor(prompts: CodexPrompts, t: PlannedTask, selected: map<string, string>, spec: TaskSpec) {
    && (forall i :: 0 <= i < |t.features| ==> t.features[i] in selected)
    && spec == PromptTask(t.id, t.needs, SelectorsFor(selected, t.features), prompts.implement(t.rationale), t.model,
                          t.effort)
  }

  // Every selected feature belongs to exactly one implementation task, at one place.
  ghost predicate AssignsOnce(plan: CodexPlan, uris: seq<string>) {
    NoDup(AllFeatures(plan.tasks)) && Elems(AllFeatures(plan.tasks)) == Elems(uris)
  }

  ghost predicate NeedsPlanned(tasks: seq<PlannedTask>) {
    forall i, n :: 0 <= i < |tasks| && n in tasks[i].needs ==> n in PlannedIds(tasks)
  }

  ghost predicate PlanAcceptable(plan: CodexPlan, uris: seq<string>, models: set<string>) {
    && ChoiceOk(models, plan.reviewModel, plan.reviewEffort) && plan.tasks != []
    && (forall i :: 0 <= i < |plan.tasks| ==> TaskOk(models, plan.tasks[i]))
    && NoDup(PlannedIds(plan.tasks))
    && AssignsOnce(plan, uris)
    && NeedsPlanned(plan.tasks)
  }

  method SelectedMap(uris: seq<string>, selectors: seq<string>) returns (selected: map<string, string>)
    requires |selectors| == |uris| && NoDup(uris)
    ensures selected.Keys == Elems(uris) && forall i :: 0 <= i < |uris| ==> selected[uris[i]] == selectors[i]
  {
    selected := map[];
    for i := 0 to |uris|
      invariant selected.Keys == Elems(uris[..i]) && forall k :: 0 <= k < i ==> selected[uris[k]] == selectors[k]
    {
      assert uris[..i + 1] == uris[..i] + [uris[i]];
      ElemsSnoc(uris[..i], uris[i]);
      selected := selected[uris[i] := selectors[i]];
    }
    assert uris[..|uris|] == uris;
  }

  // What the loop over the implementation tasks checks.
  ghost predicate TasksAcceptable(tasks: seq<PlannedTask>, known: set<string>, models: set<string>) {
    && (forall i :: 0 <= i < |tasks| ==> TaskOk(models, tasks[i]))
    && NoDup(PlannedIds(tasks)) && NoDup(AllFeatures(tasks))
    && forall u :: u in AllFeatures(tasks) ==> u in known
  }

  lemma {:induction false} FeaturesPrefix(tasks: seq<PlannedTask>, i: nat)
    requires i <= |tasks|
    ensures AllFeatures(tasks[..i]) <= AllFeatures(tasks)
    decreases |tasks|
  {
    if i == |tasks| {
      assert tasks[..i] == tasks;
    } else {
      FeaturesPrefix(tasks[..|tasks| - 1], i);
      assert tasks[..|tasks| - 1][..i] == tasks[..i];
    }
  }

  lemma AcceptablePrefix(tasks: seq<PlannedTask>, i: nat, known: set<string>, models: set<string>)
    requires i <= |tasks| && TasksAcceptable(tasks, known, models)
    ensures TasksAcceptable(tasks[..i], known, models)
  {
    FeaturesPrefix(tasks, i);
    var some, all := AllFeatures(tasks[..i]), AllFeatures(tasks);
    assert forall k :: 0 <= k < |some| ==> some[k] == all[k];
    assert PlannedIds(tasks[..i]) == PlannedIds(tasks)[..i];
  }

  lemma RefusedPrefix(tasks: seq<PlannedTask>, i: nat, known: set<string>, models: set<string>)
    requires i <= |tasks| && !TasksAcceptable(tasks[..i], known, models)
    ensures !TasksAcceptable(tasks, known, models)
  {
    if TasksAcceptable(tasks, known, models) { AcceptablePrefix(tasks, i, known, models); }
  }

  // The specifications of these tasks.
  ghost predicate SpecsFor(prompts: CodexPrompts, tasks: seq<PlannedTask>, selected: map<string, string>,
                           specs: seq<TaskSpec>)
  {
    |specs| == |tasks| && forall i :: 0 <= i < |tasks| ==> SpecFor(prompts, tasks[i], selected, specs[i])
  }

  lemma SpecsForSnoc(prompts: CodexPrompts, tasks: seq<PlannedTask>, selected: map<string, string>,
                     specs: seq<TaskSpec>, t: PlannedTask, spec: TaskSpec)
    requires SpecsFor(prompts, tasks, selected, specs) && SpecFor(prompts, t, selected, spec)
    ensures SpecsFor(prompts, tasks + [t], selected, specs + [spec])
  {
  }

  // Adding one task to acceptable ones.
  lemma AcceptableSnoc(tasks: seq<PlannedTask>, t: PlannedTask, known: set<string>, models: set<string>)
    requires TasksAcceptable(tasks, known, models)
    ensures AllFeatures(tasks + [t]) == AllFeatures(tasks) + t.features
    ensures PlannedIds(tasks + [t]) == PlannedIds(tasks) + [t.id]
    ensures TasksAcceptable(tasks + [t], known, models) <==>
      && TaskOk(models, t) && t.id !in PlannedIds(tasks)
      && NoDup(AllFeatures(tasks) + t.features) && forall u :: u in t.features ==> u in known
  {
    assert (tasks + [t])[..|tasks|] == tasks;
    if t.id in PlannedIds(tasks) {
      var k :| 0 <= k < |tasks| && PlannedIds(tasks)[k] == t.id;
      assert PlannedIds(tasks + [t])[k] == PlannedIds(tasks + [t])[|tasks|];
    } else {
      NoDupSnoc(PlannedIds(tasks), t.id);
    }
    if TasksAcceptable(tasks + [t], known, models) {
      assert TaskOk(models, (tasks + [t])[|tasks|]);
    }
  }

  method ImplementTasks(prompts: CodexPrompts, tasks: seq<PlannedTask>, selected: map<string, string>,
                        models: set<string>)
    returns (problem: Option<CodexError>, specs: seq<TaskSpec>, covered: set<string>, ids: set<Id>)
    ensures problem.None? <==> TasksAcceptable(tasks, selected.Keys, models)
    ensures problem.None? ==> ids == Elems(PlannedIds(tasks)) && covered == Elems(AllFeatures(tasks))
    ensures problem.None? ==> SpecsFor(prompts, tasks, selected, specs)
  {
    specs, covered, ids := [], {}, {};
    for i := 0 to |tasks|
      invariant TasksAcceptable(tasks[..i], selected.Keys, models)
      invariant ids == Elems(PlannedIds(tasks[..i])) && covered == Elems(AllFeatures(tasks[..i]))
      invariant SpecsFor(prompts, tasks[..i], selected, specs)
    {
      assert tasks[..i + 1] == tasks[..i] + [tasks[i]];
      AcceptableSnoc(tasks[..i], tasks[i], selected.Keys, models);
      ElemsSnoc(PlannedIds(tasks[..i]), tasks[i].id);
      var spec;
      problem, spec, covered := ImplementTask(prompts, tasks[i], selected, models, ids, covered,
                                              AllFeatures(tasks[..i]));
      if problem.Some? {
        RefusedPrefix(tasks, i + 1, selected.Keys, models);
        return;
      }
      SpecsForSnoc(prompts, tasks[..i], selected, specs, tasks[i], spec);
      ids := ids + {tasks[i].id};
      specs := specs + [spec];
    }
    assert tasks[..|tasks|] == tasks;
    problem := None;
  }

  method ImplementTask(prompts: CodexPrompts, t: PlannedTask, selected: map<string, string>, models: set<string>,
                       ids: set<Id>, covered0: set<string>, ghost before: seq<string>)
    returns (problem: Option<CodexError>, spec: TaskSpec, covered: set<string>)
    requires NoDup(before) && covered0 == Elems(before)
    ensures problem.None? <==>
      && TaskOk(models, t) && t.id !in ids
      && NoDup(before + t.features) && forall u :: u in t.features ==> u in selected
    ensures problem.None? ==> covered == Elems(before + t.features) && SpecFor(prompts, t, selected, spec)
  {
    covered := covered0;
    spec := PromptTask(t.id, t.needs, [], prompts.implement(t.rationale), t.model, t.effort);
    if t.id == REVIEW || t.id in ids || Blank(t.id) {
      return Some(BadTaskId(t.id)), spec, covered;
    }
    if !ChoiceOk(models, t.model, t.effort) {
      return Some(BadChoice(t.model, t.effort)), spec, covered;
    }
    if |t.features| == 0 {
      return Some(NoFeatures(t.id)), spec, covered;
    }
    if Blank(t.rationale) {
      return Some(NoRationale(t.id)), spec, covered;
    }
    var selectors;
    problem, covered, selectors := AssignFeatures(t, selected, covered, before);
    spec := spec.(selectors := selectors);
  }

  // The needs of the review, collected while every dependency is looked up.
  method ReviewNeeds(specs: seq<TaskSpec>, ids: set<Id>) returns (unknown: Option<CodexError>, needs: seq<Id>)
    ensures unknown.None? <==> forall i, n :: 0 <= i < |specs| && n in specs[i].needs ==> n in ids
    ensures unknown.None? ==> needs == SpecIds(specs)
  {
    needs := [];
    for i := 0 to |specs|
      invariant forall k, n :: 0 <= k < i && n in specs[k].needs ==> n in ids
      invariant needs == SpecIds(specs)[..i]
    {
      needs := needs + [specs[i].id];
      var dependencies := specs[i].needs;
      for k := 0 to |dependencies|
        invariant forall j :: 0 <= j < k ==> dependencies[j] in ids
      {
        if dependencies[k] !in ids {
          assert dependencies[k] in specs[i].needs;
          return Some(UnknownDependency(specs[i].id, dependencies[k])), needs;
        }
      }
    }
    unknown := None;
  }

  // compileGenerationPlan. The features count once each because the covered ones are
  // selected, distinct and as many as the selected ones.
  method CompileGenerationPlan(prompts: CodexPrompts, plan: CodexPlan, uris: seq<string>, selectors: seq<string>,
                               models: set<string>)
    returns (r: Result<seq<TaskSpec>, CodexError>, ghost selected: map<string, string>)
    requires |selectors| == |uris| && NoDup(uris)
    ensures selected.Keys == Elems(uris) && forall i :: 0 <= i < |uris| ==> selected[uris[i]] == selectors[i]
    ensures r.Ok? <==> PlanAcceptable(plan, uris, models)
    ensures r.Ok? ==> CodexSpec(prompts, plan, selected, r.value)
    ensures r.Ok? ==> Specifies(prompts, plan, selected, models, r.value)
  {
    var chosen := SelectedMap(uris, selectors);
    selected := chosen;
    if !ChoiceOk(models, plan.reviewModel, plan.reviewEffort) {
      return Err(BadChoice(plan.reviewModel, plan.reviewEffort)), selected;
    }
    if |plan.tasks| == 0 {
      return Err(NothingPlanned), selected;
    }
    var problem, specs, covered, ids := ImplementTasks(prompts, plan.tasks, chosen, models);
    AcceptableMeans(plan, uris, models);
    if problem.Some? {
      return Err(problem.value), selected;
    }
    assert covered <= chosen.Keys;
    SubsetCardinality(covered, chosen.Keys);
    if |covered| != |chosen| {
      return Err(FeaturesOmitted), selected;
    }
    var unknown, needs := ReviewNeeds(specs, ids);
    SpecsNeed(prompts, plan.tasks, chosen, specs);
    if unknown.Some? {
      return Err(unknown.value), selected;
    }
    specs := specs + [PromptTask(REVIEW, needs, [], prompts.review, plan.reviewModel, plan.reviewEffort)];
    AcceptedSpecifies(prompts, plan, uris, selected, models, specs);
    return Ok(specs), selected;
  }

  // One attempt at the implementation prompt, with the model and effort that were planned.
  ghost predicate Implements(prompts: CodexPrompts, t: PlannedTask, spec: TaskSpec) {
    && spec.id == t.id && spec.needs == t.needs && spec.attempts == 1
    && spec.work == Work([], prompts.implement(t.rationale), t.model, t.effort, 0, NoTimeout)
  }

  ghost predicate SelectsAll(selected: map<string, string>, uris: seq<string>, selectors: seq<string>) {
    |selectors| == |uris| && forall k :: 0 <= k < |uris| ==> uris[k] in selected && selectors[k] == selected[uris[k]]
  }

  // An identifier of its own, an allowed model, a named effort, features and a rationale.
  ghost predicate Acceptable(models: set<string>, t: PlannedTask) {
    && t.id != "review-all" && !Blank(t.id) && t.model in models && t.effort in ["low", "medium", "high", "xhigh"]
    && |t.features| >= 1 && !Blank(t.rationale)
  }

  // What an accepted plan becomes, on the plan alone: each acceptable task one attempt at its prompt
  // with its needs and its features' selectors, and a review that needs them all.
  ghost predicate Specifies(prompts: CodexPrompts, plan: CodexPlan, selected: map<string, string>, models: set<string>,
                            specs: seq<TaskSpec>)
  {
    && |specs| == |plan.tasks| + 1
    && (forall i :: 0 <= i < |plan.tasks| ==>
         && Acceptable(models, plan.tasks[i]) && Implements(prompts, plan.tasks[i], specs[i])
         && SelectsAll(selected, plan.tasks[i].features, specs[i].selectors))
    && var review := specs[|plan.tasks|];
       && review.id == "review-all" && review.selectors == [] && review.attempts == 1
       && (forall i :: 0 <= i < |plan.tasks| ==> plan.tasks[i].id in review.needs)
       && review.work == Work([], prompts.review, plan.reviewModel, plan.reviewEffort, 0, NoTimeout)
  }

  lemma AcceptedSpecifies(prompts: CodexPrompts, plan: CodexPlan, uris: seq<string>, selected: map<string, string>,
                          models: set<string>, specs: seq<TaskSpec>)
    requires CodexSpec(prompts, plan, selected, specs) && PlanAcceptable(plan, uris, models)
    ensures Specifies(prompts, plan, selected, models, specs)
  {
    forall i | 0 <= i < |plan.tasks|
      ensures Acceptable(models, plan.tasks[i]) && Implements(prompts, plan.tasks[i], specs[i])
      ensures SelectsAll(selected, plan.tasks[i].features, specs[i].selectors)
      ensures plan.tasks[i].id in PlannedIds(plan.tasks)
    {
      assert SpecFor(prompts, plan.tasks[i], selected, specs[..|plan.tasks|][i]);
      assert TaskOk(models, plan.tasks[i]);
      assert PlannedIds(plan.tasks)[i] == plan.tasks[i].id;
    }
  }

  lemma AcceptableMeans(plan: CodexPlan, uris: seq<string>, models: set<string>)
    ensures PlanAcceptable(plan, uris, models) <==>
      && ChoiceOk(models, plan.reviewModel, plan.reviewEffort) && plan.tasks != []
      && TasksAcceptable(plan.tasks, Elems(uris), models)
      && Elems(AllFeatures(plan.tasks)) == Elems(uris) && NeedsPlanned(plan.tasks)
  {
  }

  lemma SpecsNeed(prompts: CodexPrompts, tasks: seq<PlannedTask>, selected: map<string, string>, specs: seq<TaskSpec>)
    requires SpecsFor(prompts, tasks, selected, specs)
    ensures SpecIds(specs) == PlannedIds(tasks)
    ensures NeedsPlanned(tasks) <==>
      forall i, n :: 0 <= i < |specs| && n in specs[i].needs ==> n in Elems(PlannedIds(tasks))
  {
    forall i | 0 <= i < |tasks| ensures specs[i].needs == tasks[i].needs && SpecIds(specs)[i] == PlannedIds(tasks)[i] {
      assert SpecFor(prompts, tasks[i], selected, specs[i]);
    }
    assert forall i, n {:trigger n in tasks[i].needs} ::
      0 <= i < |tasks| ==> (n in specs[i].needs <==> n in tasks[i].needs);
    assert forall n :: n in PlannedIds(tasks) <==> n in Elems(PlannedIds(tasks));
  }

  lemma {:induction false} FeatureOwner(tasks: seq<PlannedTask>, u: string) returns (i: nat, k: nat)
    requires u in AllFeatures(tasks)
    ensures i < |tasks| && k < |tasks[i].features| && tasks[i].features[k] == u
  {
    var last := |tasks| - 1;
    if u in tasks[last].features {
      i := last;
      k :| 0 <= k < |tasks[last].features| && tasks[last].features[k] == u;
    } else {
      i, k := FeatureOwner(tasks[..last], u);
    }
  }

  lemma {:induction false} FeaturePlace(tasks: seq<PlannedTask>, i: nat, k: nat) returns (at: nat)
    requires i < |tasks| && k < |tasks[i].features|
    ensures at < |AllFeatures(tasks)| && AllFeatures(tasks)[at] == tasks[i].features[k]
    ensures at == |AllFeatures(tasks[..i])| + k
    decreases |tasks|
  {
    var last := |tasks| - 1;
    if i == last {
      at := |AllFeatures(tasks[..last])| + k;
    } else {
      at := FeaturePlace(tasks[..last], i, k);
      assert tasks[..last][..i] == tasks[..i];
    }
  }

  lemma {:induction false} FeaturesGrow(tasks: seq<PlannedTask>, i: nat, j: nat)
    requires i <= j <= |tasks|
    ensures |AllFeatures(tasks[..i])| <= |AllFeatures(tasks[..j])|
    ensures i < j ==> |AllFeatures(tasks[..i])| + |tasks[i].features| <= |AllFeatures(tasks[..j])|
    decreases j
  {
    if i < j {
      FeaturesGrow(tasks, i, j - 1);
      assert tasks[..j][..j - 1] == tasks[..j - 1];
    }
  }

  predicate HasFeature(plan: CodexPlan, i: nat, k: nat, u: string) {
    i < |plan.tasks| && k < |plan.tasks[i].features| && plan.tasks[i].features[k] == u
  }

  // In an accepted plan every selected feature has one owner and one place there.
  lemma EveryFeatureHasOneOwner(plan: CodexPlan, uris: seq<string>, u: string, i: nat, k: nat, i': nat, k': nat)
    requires AssignsOnce(plan, uris)
    ensures u in uris ==> exists a: nat, b: nat :: HasFeature(plan, a, b, u)
    ensures HasFeature(plan, i, k, u) && HasFeature(plan, i', k', u) ==> i == i' && k == k'
  {
    if u in uris {
      assert u in Elems(uris);
      var a, b := FeatureOwner(plan.tasks, u);
      assert HasFeature(plan, a, b, u);
    }
    if HasFeature(plan, i, k, u) && HasFeature(plan, i', k', u) {
      var p := FeaturePlace(plan.tasks, i, k);
      var q := FeaturePlace(plan.tasks, i', k');
      SamePlace(AllFeatures(plan.tasks), p, q);
      if i < i' {
        FeaturesGrow(plan.tasks, i, i');
      } else if i' < i {
        FeaturesGrow(plan.tasks, i', i);
      }
    }
  }

  // Whenever the planner accepts a generated plan, the review is its last task.
  lemma CodexReviewIsLast(prompts: CodexPrompts, plan: CodexPlan, selected: map<string, string>, specs: seq<TaskSpec>,
                          uris: seq<string>, models: set<string>)
    requires PlanAcceptable(plan, uris, models) && CodexSpec(prompts, plan, selected, specs)
    ensures NoDup(SpecIds(specs))
    ensures Known(SpecGraph(specs)) && !HasCycle(SpecGraph(specs)) ==>
      var order := Planner.Greedy(SpecGraph(specs), {}); order != [] && order[|order| - 1] == REVIEW
  {
    ReviewIsDistinct(prompts, plan, selected, specs, uris, models);
    var g := SpecGraph(specs);
    if Known(g) && !HasCycle(g) {
      Planner.PlannedOrderIsLeast(g);
      ReviewComesLast(g, Planner.Greedy(g, {}));
    }
  }

  // The identifiers are distinct, and the review needs all the others.
  lemma ReviewIsDistinct(prompts: CodexPrompts, plan: CodexPlan, selected: map<string, string>, specs: seq<TaskSpec>,
                         uris: seq<string>, models: set<string>)
    requires PlanAcceptable(plan, uris, models) && CodexSpec(prompts, plan, selected, specs)
    ensures NoDup(SpecIds(specs)) && REVIEW in SpecGraph(specs)
    ensures forall x :: x in SpecGraph(specs) && x != REVIEW ==> x in SpecGraph(specs)[REVIEW]
  {
    var n := |plan.tasks|;
    assert SpecIds(specs) == PlannedIds(plan.tasks) + [REVIEW] by {
      forall i | 0 <= i < n ensures specs[i].id == plan.tasks[i].id {
        assert SpecFor(prompts, plan.tasks[i], selected, specs[..n][i]);
      }
    }
    NoDupSnoc(PlannedIds(plan.tasks), REVIEW);
    SpecGraphAt(specs, n);
  }
}
