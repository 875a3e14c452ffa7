// suite.go: matching step texts, looking up the nested steps of a multistep before it
// runs (maybeUndefined), and running them (maybeSubSteps, runSubStep). Handlers are pure
// and their nesting is well founded: a rank falls from a step to its nested steps.
module Multistep {
  import opened Ids
  import opened Errors
  import Steps

  datatype Keyword = AnyKeyword | Given | When | Then

  datatype StepType = UnknownType | Context | Action | Outcome

  datatype Definition = Definition(matches: string -> bool, keyword: Keyword, nested: bool)

  // What a handler returns: nothing, an error, nested steps, or something else.
  datatype Returned = Nothing | Failure(error: Error) | Nested(texts: seq<string>) | Unexpected

  // What running a nested step came upon.
  datatype Meeting = Matched(text: string, definition: nat) | Missing(text: string) | Unclear(text: string)

  // Hooks see, through what they share with the rest of the run, everything met so far.
  datatype World = World(
    definitions: seq<Definition>,
    strict: bool,
    run: (nat, string, Option<string>) -> Returned,
    before: (seq<Meeting>, string) -> Err,
    after: (seq<Meeting>, string, Status, Err) -> Err)

  // -------------------------------------------------------------------------- matching

  predicate KeywordMatches(keyword: Keyword, stepType: StepType) {
    keyword == AnyKeyword ||
    match stepType
    case Context => keyword == Given
    case Action => keyword == When
    case Outcome => keyword == Then
    case UnknownType => true
  }

  predicate Fits(d: Definition, text: string, stepType: StepType) {
    d.matches(text) && KeywordMatches(d.keyword, stepType)
  }

  predicate FitsAt(w: World, k: int, text: string, stepType: StepType) {
    0 <= k < |w.definitions| && Fits(w.definitions[k], text, stepType)
  }

  // More than one definition fits and the suite is strict.
  ghost predicate IsAmbiguous(w: World, text: string, stepType: StepType) {
    w.strict && exists i, j :: i < j && FitsAt(w, i, text, stepType) && FitsAt(w, j, text, stepType)
  }

  ghost predicate IsFirst(w: World, k: nat, text: string, stepType: StepType) {
    FitsAt(w, k, text, stepType) && forall i :: i < k ==> !FitsAt(w, i, text, stepType)
  }

  ghost function First(w: World, text: string, stepType: StepType, n: nat): (first: Option<nat>)
    requires n <= |w.definitions|
    ensures first.Some? ==> first.value < n && IsFirst(w, first.value, text, stepType)
    ensures first.None? ==> forall i :: i < n ==> !FitsAt(w, i, text, stepType)
  {
    if n == 0 then None
    else if First(w, text, stepType, n - 1).Some? then First(w, text, stepType, n - 1)
    else if FitsAt(w, n - 1, text, stepType) then Some(n - 1) else None
  }

  ghost function MatchOf(w: World, text: string, stepType: StepType): Option<nat> {
    First(w, text, stepType, |w.definitions|)
  }

  // The definitions before n that fit, in order.
  ghost predicate Collected(w: World, text: string, stepType: StepType, n: nat, matching: seq<nat>) {
    && (forall i :: 0 <= i < |matching| ==> matching[i] < n && FitsAt(w, matching[i], text, stepType))
    && (forall i, j :: 0 <= i < j < |matching| ==> matching[i] < matching[j])
    && (forall i :: i < n && FitsAt(w, i, text, stepType) ==> i in matching)
  }

  lemma CollectedIsAmbiguous(w: World, text: string, stepType: StepType, matching: seq<nat>)
    requires Collected(w, text, stepType, |w.definitions|, matching)
    ensures IsAmbiguous(w, text, stepType) <==> w.strict && |matching| > 1
  {
    if |matching| > 1 {
      assert FitsAt(w, matching[0], text, stepType) && FitsAt(w, matching[1], text, stepType);
    }
    if IsAmbiguous(w, text, stepType) {
      var i, j :| i < j && FitsAt(w, i, text, stepType) && FitsAt(w, j, text, stepType);
      assert i in matching && j in matching;
    }
  }

  // A definition suits a step if its expression matches and it was made for steps of any type or of
  // this one; a nested step has no type of its own.
  ghost predicate Suits(d: Definition, text: string, stepType: StepType) {
    && d.matches(text)
    && (d.keyword == AnyKeyword || stepType == UnknownType || (d.keyword == Given && stepType == Context)
        || (d.keyword == When && stepType == Action) || (d.keyword == Then && stepType == Outcome))
  }

  lemma FitsIsSuits(d: Definition, text: string, stepType: StepType)
    ensures Fits(d, text, stepType) <==> Suits(d, text, stepType)
  {
  }

  // What was found, on the definitions alone.
  ghost predicate Finds(w: World, text: string, stepType: StepType, r: Result<Option<nat>, Error>) {
    match r
    case Err(_) => w.strict && exists i, j ::
      0 <= i < j < |w.definitions| && Suits(w.definitions[i], text, stepType) && Suits(w.definitions[j], text, stepType)
    case Ok(None) => forall i :: 0 <= i < |w.definitions| ==> !Suits(w.definitions[i], text, stepType)
    case Ok(Some(k)) =>
      && k < |w.definitions| && Suits(w.definitions[k], text, stepType)
      && (forall i :: 0 <= i < k ==> !Suits(w.definitions[i], text, stepType))
      && (w.strict ==> forall i :: k < i < |w.definitions| ==> !Suits(w.definitions[i], text, stepType))
  }

  lemma MatchFinds(w: World, text: string, stepType: StepType)
    ensures IsAmbiguous(w, text, stepType) ==> Finds(w, text, stepType, Err(Opaque))
    ensures !IsAmbiguous(w, text, stepType) ==> Finds(w, text, stepType, Ok(MatchOf(w, text, stepType)))
  {
    forall i | 0 <= i < |w.definitions|
      ensures FitsAt(w, i, text, stepType) <==> Suits(w.definitions[i], text, stepType)
    {
      FitsIsSuits(w.definitions[i], text, stepType);
    }
    if IsAmbiguous(w, text, stepType) {
      var i, j :| i < j && FitsAt(w, i, text, stepType) && FitsAt(w, j, text, stepType);
      assert Suits(w.definitions[i], text, stepType) && Suits(w.definitions[j], text, stepType);
    }
  }

  // matchStepTextAndType.
  method MatchStep(w: World, text: string, stepType: StepType) returns (r: Result<Option<nat>, Error>)
    ensures r.Err? <==> IsAmbiguous(w, text, stepType)
    ensures r.Err? ==> r.error == Wrapped(Sentinel(Ambiguous))
    ensures r.Ok? ==> r.value == MatchOf(w, text, stepType)
    ensures Finds(w, text, stepType, r)
  {
    var first, matching := CollectMatches(w, text, stepType);
    CollectedIsAmbiguous(w, text, stepType, matching);
    MatchFinds(w, text, stepType);
    if w.strict && |matching| > 1 {
      return Err(Wrapped(Sentinel(Ambiguous)));
    }
    return Ok(first);
  }

  // Its loop.
  method CollectMatches(w: World, text: string, stepType: StepType) returns (first: Option<nat>, matching: seq<nat>)
    ensures first == MatchOf(w, text, stepType) && Collected(w, text, stepType, |w.definitions|, matching)
  {
    first, matching := None, [];
    for k := 0 to |w.definitions|
      invariant first == First(w, text, stepType, k)
      invariant Collected(w, text, stepType, k, matching)
    {
      first, matching := ConsiderMatch(w, text, stepType, k, first, matching);
    }
  }

  // One turn of it.
  method ConsiderMatch(w: World, text: string, stepType: StepType, k: nat, first0: Option<nat>, matching0: seq<nat>)
    returns (first: Option<nat>, matching: seq<nat>)
    requires k < |w.definitions| && first0 == First(w, text, stepType, k)
    requires Collected(w, text, stepType, k, matching0)
    ensures first == First(w, text, stepType, k + 1) && Collected(w, text, stepType, k + 1, matching)
  {
    first, matching := first0, matching0;
    CollectedNext(w, text, stepType, k, matching);
    var d := w.definitions[k];
    if d.matches(text) {
      if !KeywordMatches(d.keyword, stepType) {
        return;
      }
      matching := matching + [k];
      if first.None? {
        first := Some(k);
      }
    }
  }

  lemma CollectedNext(w: World, text: string, stepType: StepType, k: nat, matching: seq<nat>)
    requires Collected(w, text, stepType, k, matching)
    ensures Collected(w, text, stepType, k + 1, if FitsAt(w, k, text, stepType) then matching + [k] else matching)
  {
  }

  // -------------------------------------------------------------------- the expansion

  // The nested steps a step stands for.
  ghost function SubSteps(w: World, text: string, stepType: StepType, arg: Option<string>): seq<string> {
    var d := MatchOf(w, text, stepType);
    if d.Some? && w.run(d.value, text, arg).Nested? then w.run(d.value, text, arg).texts else []
  }

  ghost predicate WellFounded(w: World, rank: string -> nat) {
    forall text, stepType, arg, s :: s in SubSteps(w, text, stepType, arg) ==> rank(s) < rank(text)
  }

  lemma NestedRanks(w: World, rank: string -> nat, text: string, stepType: StepType, arg: Option<string>, d: nat)
    requires WellFounded(w, rank) && MatchOf(w, text, stepType) == Some(d)
    ensures w.run(d, text, arg).Nested? ==> forall s :: s in w.run(d, text, arg).texts ==> rank(s) < rank(text)
  {
    var steps := SubSteps(w, text, stepType, arg);
    assert w.run(d, text, arg).Nested? ==> w.run(d, text, arg).texts == steps;
  }

  // What registration checks: only a multistep returns steps.
  ghost predicate Typed(w: World) {
    forall k, text, arg {:trigger w.run(k, text, arg)} ::
      0 <= k < |w.definitions| && w.run(k, text, arg).Nested? ==> w.definitions[k].nested
  }

  // The expansion of a step; leaves are the steps that stand for no others.
  datatype Tree = Leaf(text: string, known: bool) | Branch(text: string, children: seq<Tree>)

  ghost function Expand(w: World, rank: string -> nat, text: string, stepType: StepType, arg: Option<string>): Tree
    requires WellFounded(w, rank)
    decreases rank(text), 0, 1
  {
    var d := MatchOf(w, text, stepType);
    if d.None? then Leaf(text, false)
    else if !w.definitions[d.value].nested then Leaf(text, true)
    else Branch(text, ExpandAll(w, rank, text, SubSteps(w, text, stepType, arg)))
  }

  ghost function ExpandAll(w: World, rank: string -> nat, text: string, steps: seq<string>): (trees: seq<Tree>)
    requires WellFounded(w, rank) && forall s :: s in steps ==> rank(s) < rank(text)
    ensures |trees| == |steps|
    decreases rank(text), 0, 0, |steps|
  {
    if steps == [] then []
    else ExpandAll(w, rank, text, steps[..|steps| - 1]) + [Expand(w, rank, steps[|steps| - 1], UnknownType, None)]
  }

  // The leaves from left to right.
  ghost function Leaves(t: Tree): seq<Tree>
    decreases t, 0
  {
    if t.Leaf? then [t] else LeavesOf(t.children)
  }

  ghost function LeavesOf(ts: seq<Tree>): seq<Tree>
    decreases ts, |ts|
  {
    if ts == [] then [] else LeavesOf(ts[..|ts| - 1]) + Leaves(ts[|ts| - 1])
  }

  function Unknown(leaves: seq<Tree>): seq<string> {
    if leaves == [] then []
    else
      var init, last := leaves[..|leaves| - 1], leaves[|leaves| - 1];
      Unknown(init) + if last.Leaf? && !last.known then [last.text] else []
  }

  lemma {:induction false} UnknownAppend(a: seq<Tree>, b: seq<Tree>)
    ensures Unknown(a + b) == Unknown(a) + Unknown(b)
  {
    if b == [] {
      assert a + b == a;
    } else {
      UnknownAppend(a, b[..|b| - 1]);
      assert (a + b)[..|a + b| - 1] == a + b[..|b| - 1];
    }
  }

  // ------------------------------------------------------------------------ pre-flight

  // Nested steps cannot carry a table or a doc string.
  predicate Plain(line: string) {
    '\n' !in line && (line == [] || line[|line| - 1] != ':')
  }

  // Nothing in the expansion stops the pre-flight.
  ghost predicate Sound(w: World, rank: string -> nat, text: string, stepType: StepType, arg: Option<string>)
    requires WellFounded(w, rank)
    decreases rank(text)
  {
    var d := MatchOf(w, text, stepType);
    && !IsAmbiguous(w, text, stepType)
    && (d.Some? && w.definitions[d.value].nested ==>
      && w.run(d.value, text, arg).Nested?
      && forall s :: s in SubSteps(w, text, stepType, arg) ==> Plain(s) && Sound(w, rank, s, UnknownType, None))
  }

  // The unmatched leaves of the steps' expansions, from left to right.
  ghost function MissingIn(w: World, rank: string -> nat, text: string, steps: seq<string>): seq<string>
    requires WellFounded(w, rank) && forall s :: s in steps ==> rank(s) < rank(text)
  {
    Unknown(LeavesOf(ExpandAll(w, rank, text, steps)))
  }

  lemma MissingSnoc(w: World, rank: string -> nat, text: string, steps: seq<string>, i: nat)
    requires WellFounded(w, rank) && (forall s :: s in steps ==> rank(s) < rank(text)) && i < |steps|
    ensures forall s :: s in steps[..i + 1] ==> s in steps
    ensures MissingIn(w, rank, text, steps[..i + 1]) ==
      MissingIn(w, rank, text, steps[..i]) + Unknown(Leaves(Expand(w, rank, steps[i], UnknownType, None)))
  {
    assert steps[..i + 1][..i] == steps[..i];
    var trees, last := ExpandAll(w, rank, text, steps[..i]), Expand(w, rank, steps[i], UnknownType, None);
    assert ExpandAll(w, rank, text, steps[..i + 1]) == trees + [last];
    assert (trees + [last])[..i] == trees;
    UnknownAppend(LeavesOf(trees), Leaves(last));
  }

  // maybeUndefined.
  method MaybeUndefined(w: World, ghost rank: string -> nat, text: string, arg: Option<string>, stepType: StepType)
    returns (r: Steps.Preflight)
    requires WellFounded(w, rank)
    ensures r.Resolved? <==> Sound(w, rank, text, stepType, arg)
    ensures r.Resolved? ==> r.missing == Unknown(Leaves(Expand(w, rank, text, stepType, arg)))
    decreases rank(text)
  {
    var step := MatchStep(w, text, stepType);
    if step.Err? {
      return Steps.Refused(step.error);
    }
    if step.value.None? {
      return Steps.Resolved([text]);
    }
    var d := step.value.value;
    if !w.definitions[d].nested {
      return Steps.Resolved([]);
    }
    var result := w.run(d, text, arg);
    if !result.Nested? {
      return Steps.Broken(Panic(Some(Opaque)));
    }
    ghost var subSteps := SubSteps(w, text, stepType, arg);
    assert result.texts == subSteps;
    r := LookUpAll(w, rank, text, result.texts);
  }

  // The loop of maybeUndefined over the nested steps of text.
  method LookUpAll(w: World, ghost rank: string -> nat, ghost text: string, steps: seq<string>)
    returns (r: Steps.Preflight)
    requires WellFounded(w, rank) && forall s :: s in steps ==> rank(s) < rank(text)
    ensures r.Resolved? <==> forall s :: s in steps ==> Plain(s) && Sound(w, rank, s, UnknownType, None)
    ensures r.Resolved? ==> r.missing == MissingIn(w, rank, text, steps)
    decreases rank(text), 0
  {
    var undefined: seq<string> := [];
    for i := 0 to |steps|
      invariant forall k :: 0 <= k < i ==> Plain(steps[k]) && Sound(w, rank, steps[k], UnknownType, None)
      invariant undefined == MissingIn(w, rank, text, steps[..i])
    {
      var next := steps[i];
      assert next in steps;
      if '\n' in next {
        return Steps.Refused(Opaque);
      }
      if |next| > 0 && next[|next| - 1] == ':' {
        return Steps.Refused(Opaque);
      }
      var found := MaybeUndefined(w, rank, next, None, UnknownType);
      if !found.Resolved? {
        return found;
      }
      MissingSnoc(w, rank, text, steps, i);
      undefined := undefined + found.missing;
    }
    assert steps[..|steps|] == steps;
    return Steps.Resolved(undefined);
  }

  // ------------------------------------------------------------------------- execution

  // Everything the nested steps of a run come upon, in the order of a full run.
  ghost function Course(w: World, rank: string -> nat, text: string): seq<Meeting>
    requires WellFounded(w, rank)
    decreases rank(text), 0, 1
  {
    if IsAmbiguous(w, text, UnknownType) then [Unclear(text)]
    else
      var d := MatchOf(w, text, UnknownType);
      if d.None? then [Missing(text)]
      else [Matched(text, d.value)] + Courses(w, rank, text, SubSteps(w, text, UnknownType, None))
  }

  ghost function Courses(w: World, rank: string -> nat, text: string, steps: seq<string>): seq<Meeting>
    requires WellFounded(w, rank) && forall s :: s in steps ==> rank(s) < rank(text)
    decreases rank(text), 0, 0, |steps|
  {
    if steps == [] then []
    else Courses(w, rank, text, steps[..|steps| - 1]) + Course(w, rank, steps[|steps| - 1])
  }

  lemma CoursesSnoc(w: World, rank: string -> nat, text: string, steps: seq<string>, i: nat)
    requires WellFounded(w, rank) && (forall s :: s in steps ==> rank(s) < rank(text)) && i < |steps|
    ensures forall s :: s in steps[..i + 1] ==> s in steps
    ensures Courses(w, rank, text, steps[..i + 1]) == Courses(w, rank, text, steps[..i]) + Course(w, rank, steps[i])
  {
    assert steps[..i + 1][..i] == steps[..i];
  }

  function SubStatus(err: Err): Status {
    if Is(err, Undefined) then UndefinedStep else if Is(err, Pending) then PendingStep
    else if err.Some? then Failed else Passed
  }

  // The error of a run, and everything met by its end.
  datatype Run = Run(err: Err, met: seq<Meeting>)

  // What a handler returned, run (maybeSubSteps).
  ghost function RunOfResult(w: World, rank: string -> nat, text: string, result: Returned, met: seq<Meeting>): Run
    requires WellFounded(w, rank) && (result.Nested? ==> forall s :: s in result.texts ==> rank(s) < rank(text))
    decreases rank(text), 1
  {
    match result
    case Nothing => Run(None, met)
    case Failure(e) => Run(Some(e), met)
    case Unexpected => Run(Some(Opaque), met)
    case Nested(texts) => RunOfSteps(w, rank, text, texts, met)
  }

  // Nested steps run in order, up to the first error.
  ghost function RunOfSteps(w: World, rank: string -> nat, text: string, steps: seq<string>, met: seq<Meeting>): Run
    requires WellFounded(w, rank) && forall s :: s in steps ==> rank(s) < rank(text)
    decreases rank(text), 0, |steps|
  {
    if steps == [] then Run(None, met)
    else
      var before := RunOfSteps(w, rank, text, steps[..|steps| - 1], met);
      if before.err.Some? then before else RunOfStep(w, rank, steps[|steps| - 1], before.met)
  }

  ghost function RunOfStep(w: World, rank: string -> nat, text: string, met: seq<Meeting>): Run
    requires WellFounded(w, rank)
    decreases rank(text), 3
  {
    if IsAmbiguous(w, text, UnknownType) then Run(Some(Wrapped(Sentinel(Ambiguous))), met + [Unclear(text)])
    else
      var d := MatchOf(w, text, UnknownType);
      if d.None? then Run(Some(Wrapped(Sentinel(Undefined))), met + [Missing(text)])
      else
        var own := OwnRun(w, rank, text, d.value, met);
        Run(MergeErrors(HookGave(w, text, own), own.err), own.met)
  }

  // A matched nested step up to its after-step hooks. Its error is formatted into text,
  // so nothing is left of it but that there is one.
  ghost function OwnRun(w: World, rank: string -> nat, text: string, d: nat, met: seq<Meeting>): (own: Run)
    requires WellFounded(w, rank) && MatchOf(w, text, UnknownType) == Some(d)
    ensures own.err.None? || own.err == Some(Opaque)
    decreases rank(text), 2
  {
    var now := met + [Matched(text, d)];
    if w.before(now, text).Some? then Run(Some(Opaque), now)
    else
      NestedRanks(w, rank, text, UnknownType, None, d);
      var below := RunOfResult(w, rank, text, w.run(d, text, None), now);
      Run(if below.err.Some? then Some(Opaque) else None, below.met)
  }

  // What the after-step hooks add to a nested step's error.
  function HookGave(w: World, text: string, own: Run): Err {
    w.after(own.met, text, SubStatus(own.err), own.err)
  }

  // They are told that it failed, or that it passed: its error is only text by then, so nothing of a
  // nested step is undefined, pending or skipped to its own hooks.
  lemma NestedHooksAreTold(w: World, rank: string -> nat, text: string, d: nat, met: seq<Meeting>)
    requires WellFounded(w, rank) && MatchOf(w, text, UnknownType) == Some(d)
    ensures var own := OwnRun(w, rank, text, d, met);
      && HookGave(w, text, own) ==
           w.after(own.met, text, if own.err.None? then Passed else Failed, own.err)
  {
  }

  // maybeSubSteps on what a step's handler returned.
  method MaybeSubSteps(w: World, ghost rank: string -> nat, ghost text: string, result: Returned, met0: seq<Meeting>)
    returns (err: Err, met: seq<Meeting>)
    requires WellFounded(w, rank) && (result.Nested? ==> forall s :: s in result.texts ==> rank(s) < rank(text))
    ensures Run(err, met) == RunOfResult(w, rank, text, result, met0)
    decreases rank(text), 1
  {
    match result
    case Nothing =>
      return None, met0;
    case Failure(e) =>
      return Some(e), met0;
    case Unexpected =>
      return Some(Opaque), met0;
    case Nested(texts) =>
      err, met := RunAll(w, rank, text, texts, met0);
  }

  // The loop of maybeSubSteps.
  method RunAll(w: World, ghost rank: string -> nat, ghost text: string, steps: seq<string>, met0: seq<Meeting>)
    returns (err: Err, met: seq<Meeting>)
    requires WellFounded(w, rank) && forall s :: s in steps ==> rank(s) < rank(text)
    ensures Run(err, met) == RunOfSteps(w, rank, text, steps, met0)
    decreases rank(text), 0
  {
    err, met := None, met0;
    for i := 0 to |steps|
      invariant err.None? && Run(None, met) == RunOfSteps(w, rank, text, steps[..i], met0)
    {
      assert steps[i] in steps && steps[..i + 1][..i] == steps[..i];
      err, met := RunOne(w, rank, steps[i], met);
      if err.Some? {
        RunStops(w, rank, text, steps, met0, i + 1);
        return;
      }
    }
    assert steps[..|steps|] == steps;
  }

  lemma {:induction false} RunStops(w: World, rank: string -> nat, text: string, steps: seq<string>, met: seq<Meeting>,
                                    i: nat)
    requires WellFounded(w, rank) && (forall s :: s in steps ==> rank(s) < rank(text)) && i <= |steps|
    requires RunOfSteps(w, rank, text, steps[..i], met).err.Some?
    ensures RunOfSteps(w, rank, text, steps, met) == RunOfSteps(w, rank, text, steps[..i], met)
    decreases |steps|
  {
    var n := |steps| - 1;
    if i <= n {
      assert steps[..n][..i] == steps[..i];
      RunStops(w, rank, text, steps[..n], met, i);
    } else {
      assert steps[..i] == steps;
    }
  }

  // One turn of that loop.
  method RunOne(w: World, ghost rank: string -> nat, text: string, met0: seq<Meeting>)
    returns (err: Err, met: seq<Meeting>)
    requires WellFounded(w, rank)
    ensures Run(err, met) == RunOfStep(w, rank, text, met0)
    decreases rank(text), 3
  {
    var d := MatchStep(w, text, UnknownType);
    if d.Err? {
      return Some(d.error), met0 + [Unclear(text)];
    }
    if d.value.None? {
      return Some(Wrapped(Sentinel(Undefined))), met0 + [Missing(text)];
    }
    err, met := RunSubStep(w, rank, text, d.value.value, met0);
  }

  // runSubStep.
  method RunSubStep(w: World, ghost rank: string -> nat, text: string, d: nat, met0: seq<Meeting>)
    returns (err: Err, met: seq<Meeting>)
    requires WellFounded(w, rank) && MatchOf(w, text, UnknownType) == Some(d) && !IsAmbiguous(w, text, UnknownType)
    ensures Run(err, met) == RunOfStep(w, rank, text, met0)
    decreases rank(text), 2
  {
    met := met0 + [Matched(text, d)];
    var own := w.before(met, text);
    if own.Some? {
      own := Some(Opaque);
    } else {
      var result := w.run(d, text, None);
      ghost var subSteps := SubSteps(w, text, UnknownType, None);
      assert result.Nested? ==> result.texts == subSteps;
      own, met := MaybeSubSteps(w, rank, text, result, met);
      if own.Some? {
        own := Some(Opaque);
      }
    }
    var status := SubStatus(own);
    err := MergeErrors(w.after(met, text, status, own), own);
  }

  // ------------------------------------------------------------- what a run comes upon

  // What a run meets is an initial part of its full course, and all of it without an error.
  ghost predicate Covers(met0: seq<Meeting>, run: Run, course: seq<Meeting>) {
    && met0 <= run.met && run.met[|met0|..] <= course
    && (run.err.None? ==> run.met[|met0|..] == course)
  }

  lemma CoversAll(met0: seq<Meeting>, first: Run, a: seq<Meeting>, second: Run, b: seq<Meeting>, all: seq<Meeting>)
    requires Covers(met0, first, a) && first.err.None? && Covers(first.met, second, b) && all == a + b
    ensures Covers(met0, second, all)
  {
    assert second.met[|met0|..] == a + second.met[|first.met|..];
  }

  lemma CoversPart(met0: seq<Meeting>, run: Run, a: seq<Meeting>, all: seq<Meeting>)
    requires Covers(met0, run, a) && run.err.Some? && a <= all
    ensures Covers(met0, run, all)
  {
  }

  lemma {:induction false} StepsCovered(w: World, rank: string -> nat, text: string, steps: seq<string>,
                                        met: seq<Meeting>)
    requires WellFounded(w, rank) && forall s :: s in steps ==> rank(s) < rank(text)
    ensures Covers(met, RunOfSteps(w, rank, text, steps, met), Courses(w, rank, text, steps))
    decreases rank(text), 0, |steps|
  {
    if steps != [] {
      var n := |steps| - 1;
      var before := RunOfSteps(w, rank, text, steps[..n], met);
      StepsCovered(w, rank, text, steps[..n], met);
      if before.err.Some? {
        CoversPart(met, before, Courses(w, rank, text, steps[..n]), Courses(w, rank, text, steps));
      } else {
        StepCovered(w, rank, steps[n], before.met);
        CoversAll(met, before, Courses(w, rank, text, steps[..n]), RunOfStep(w, rank, steps[n], before.met),
                  Course(w, rank, steps[n]), Courses(w, rank, text, steps));
      }
    }
  }

  lemma {:induction false} StepCovered(w: World, rank: string -> nat, text: string, met: seq<Meeting>)
    requires WellFounded(w, rank)
    ensures Covers(met, RunOfStep(w, rank, text, met), Course(w, rank, text))
    decreases rank(text), 1
  {
    var d := MatchOf(w, text, UnknownType);
    if !IsAmbiguous(w, text, UnknownType) && d.Some? {
      var now := met + [Matched(text, d.value)];
      var steps := SubSteps(w, text, UnknownType, None);
      var result := w.run(d.value, text, None);
      var here := Run(None, now);
      assert Covers(met, here, [Matched(text, d.value)]);
      if result.Nested? {
        StepsCovered(w, rank, text, steps, now);
      }
      var below := RunOfResult(w, rank, text, result, now);
      assert Covers(now, below, Courses(w, rank, text, steps));
      CoversAll(met, here, [Matched(text, d.value)], below, Courses(w, rank, text, steps), Course(w, rank, text));
    }
  }

  // ------------------------------------------------------- the error of a nested step

  // The nested step at i is the first to return an error.
  ghost predicate FailsFirstAt(w: World, rank: string -> nat, text: string, steps: seq<string>, met: seq<Meeting>,
                               i: nat)
    requires WellFounded(w, rank) && forall s :: s in steps ==> rank(s) < rank(text)
  {
    && i < |steps|
    && var before := RunOfSteps(w, rank, text, steps[..i], met);
       before.err.None? && RunOfStep(w, rank, steps[i], before.met).err.Some?
  }

  lemma {:induction false} SomeFailsFirst(w: World, rank: string -> nat, text: string, steps: seq<string>,
                                          met: seq<Meeting>)
    returns (i: nat)
    requires WellFounded(w, rank) && forall s :: s in steps ==> rank(s) < rank(text)
    requires RunOfSteps(w, rank, text, steps, met).err.Some?
    ensures FailsFirstAt(w, rank, text, steps, met, i)
    decreases |steps|
  {
    var n := |steps| - 1;
    if RunOfSteps(w, rank, text, steps[..n], met).err.Some? {
      i := SomeFailsFirst(w, rank, text, steps[..n], met);
      assert steps[..n][..i] == steps[..i];
    } else {
      i := n;
    }
  }

  // The error of nested steps is the error of the first that returns one.
  lemma FirstFailureDecides(w: World, rank: string -> nat, text: string, steps: seq<string>, met: seq<Meeting>, i: nat)
    requires WellFounded(w, rank) && forall s :: s in steps ==> rank(s) < rank(text)
    requires FailsFirstAt(w, rank, text, steps, met, i)
    ensures RunOfSteps(w, rank, text, steps, met) ==
      RunOfStep(w, rank, steps[i], RunOfSteps(w, rank, text, steps[..i], met).met)
  {
    assert steps[..i + 1][..i] == steps[..i];
    RunStops(w, rank, text, steps, met, i + 1);
  }

  // Where an identity can come from: the text could not be told apart or found, or the
  // after-step hooks returned it.
  ghost predicate Supplies(w: World, rank: string -> nat, text: string, met: seq<Meeting>, kind: Kind)
    requires WellFounded(w, rank)
  {
    if IsAmbiguous(w, text, UnknownType) then kind == Ambiguous
    else
      var d := MatchOf(w, text, UnknownType);
      if d.None? then kind == Undefined else Is(HookGave(w, text, OwnRun(w, rank, text, d.value, met)), kind)
  }

  lemma StepIdentity(w: World, rank: string -> nat, text: string, met: seq<Meeting>, kind: Kind)
    requires WellFounded(w, rank)
    ensures var err := RunOfStep(w, rank, text, met).err;
      Is(err, kind) <==> err.Some? && Supplies(w, rank, text, met, kind)
  {
  }

  // The nested step at i is the first to fail, and the identity is its own or its hooks'.
  ghost predicate SuppliedAt(w: World, rank: string -> nat, text: string, steps: seq<string>, met: seq<Meeting>,
                             i: nat, kind: Kind)
    requires WellFounded(w, rank) && forall s :: s in steps ==> rank(s) < rank(text)
  {
    && FailsFirstAt(w, rank, text, steps, met, i)
    && Supplies(w, rank, steps[i], RunOfSteps(w, rank, text, steps[..i], met).met, kind)
  }

  lemma IdentityAt(w: World, rank: string -> nat, text: string, steps: seq<string>, met: seq<Meeting>, i: nat,
                   kind: Kind)
    requires WellFounded(w, rank) && forall s :: s in steps ==> rank(s) < rank(text)
    requires FailsFirstAt(w, rank, text, steps, met, i)
    ensures Is(RunOfSteps(w, rank, text, steps, met).err, kind) <==> SuppliedAt(w, rank, text, steps, met, i, kind)
  {
    FirstFailureDecides(w, rank, text, steps, met, i);
    StepIdentity(w, rank, steps[i], RunOfSteps(w, rank, text, steps[..i], met).met, kind);
  }

  // The error that nested steps hand to the step above has an identity exactly when the
  // first failing one is ambiguous or undefined itself, or its after-step hooks supply it.
  lemma NestedErrorIdentity(w: World, rank: string -> nat, text: string, steps: seq<string>, met: seq<Meeting>,
                            kind: Kind)
    requires WellFounded(w, rank) && forall s :: s in steps ==> rank(s) < rank(text)
    ensures Is(RunOfSteps(w, rank, text, steps, met).err, kind) <==>
      exists i: nat :: SuppliedAt(w, rank, text, steps, met, i, kind)
  {
    if Is(RunOfSteps(w, rank, text, steps, met).err, kind) {
      var i := SomeFailsFirst(w, rank, text, steps, met);
      IdentityAt(w, rank, text, steps, met, i, kind);
    }
    if exists i: nat :: SuppliedAt(w, rank, text, steps, met, i, kind) {
      var i: nat :| SuppliedAt(w, rank, text, steps, met, i, kind);
      IdentityAt(w, rank, text, steps, met, i, kind);
    }
  }

  // A matched nested step returns no error exactly when its before-hooks, what its handler
  // returned and its after-hooks all give none; a handler's own error always comes out.
  lemma NestedStepSucceedsIff(w: World, rank: string -> nat, text: string, d: nat, met: seq<Meeting>)
    requires WellFounded(w, rank) && !IsAmbiguous(w, text, UnknownType) && MatchOf(w, text, UnknownType) == Some(d)
    ensures var now, steps, own := met + [Matched(text, d)], SubSteps(w, text, UnknownType, None),
      OwnRun(w, rank, text, d, met);
      && (own.err.None? <==>
        && w.before(now, text).None? && !w.run(d, text, None).Failure? && !w.run(d, text, None).Unexpected?
        && RunOfSteps(w, rank, text, steps, now).err.None?)
      && (RunOfStep(w, rank, text, met).err.None? <==> own.err.None? && HookGave(w, text, own).None?)
  {
  }

  // When the step above fails the scenario: an ambiguous nested step always does, an
  // undefined one when strict; one that failed by itself, whatever its error was, unless
  // its after-step hooks forgive it; and one that did not, when its hooks' error does.
  lemma NestedFailsIff(w: World, rank: string -> nat, text: string, steps: seq<string>, met: seq<Meeting>, i: nat)
    requires WellFounded(w, rank) && forall s :: s in steps ==> rank(s) < rank(text)
    requires FailsFirstAt(w, rank, text, steps, met, i)
    ensures var before, d := RunOfSteps(w, rank, text, steps[..i], met).met, MatchOf(w, steps[i], UnknownType);
      ShouldFail(w.strict, RunOfSteps(w, rank, text, steps, met).err) <==>
        if IsAmbiguous(w, steps[i], UnknownType) then true
        else if d.None? then w.strict
        else
          var own := OwnRun(w, rank, steps[i], d.value, before);
          if own.err.Some? then !Forgiven(w.strict, HookGave(w, steps[i], own))
          else ShouldFail(w.strict, HookGave(w, steps[i], own))
  {
    FirstFailureDecides(w, rank, text, steps, met, i);
  }

  // A multistep "parent" of one step "child" whose handler is pending; no hooks, not strict.
  function PendingWorld(): World {
    World([Definition((text: string) => text == "parent", AnyKeyword, true),
           Definition((text: string) => text == "child", AnyKeyword, false)],
          false,
          (d: nat, text: string, arg: Option<string>) =>
            if d == 0 then Nested(["child"]) else Failure(Sentinel(Pending)),
          (met: seq<Meeting>, text: string) => None,
          (met: seq<Meeting>, text: string, status: Status, err: Err) => None)
  }

  function PendingRank(): string -> nat {
    (text: string) => if text == "parent" then 1 else 0
  }

  lemma PendingWorldIsWellFounded()
    ensures WellFounded(PendingWorld(), PendingRank()) && Typed(PendingWorld())
    ensures MatchOf(PendingWorld(), "child", UnknownType) == Some(1)
    ensures !IsAmbiguous(PendingWorld(), "child", UnknownType)
  {
    var w := PendingWorld();
    assert FitsAt(w, 1, "child", UnknownType) && !FitsAt(w, 0, "child", UnknownType);
    assert First(w, "child", UnknownType, 1).None?;
    forall text, stepType, arg, s | s in SubSteps(w, text, stepType, arg)
      ensures PendingRank()(s) < PendingRank()(text)
    {
      var d := MatchOf(w, text, stepType);
      assert FitsAt(w, d.value, text, stepType) && d.value == 0;
    }
  }

  // A pending step would not fail the scenario, but a pending nested step makes its parent do so.
  method RunPendingParent() returns (err: Err)
    ensures err == Some(Opaque) && ShouldFail(PendingWorld().strict, err)
    ensures !ShouldFail(PendingWorld().strict, Some(Sentinel(Pending)))
  {
    var w := PendingWorld();
    ghost var rank := PendingRank();
    PendingWorldIsWellFounded();
    var met;
    err, met := MaybeSubSteps(w, rank, "parent", w.run(0, "parent", None), []);
    assert RunOfSteps(w, rank, "parent", ["child"][..0], []) == Run(None, []);
    assert w.run(1, "child", None) == Failure(Sentinel(Pending));
  }

  // ----------------------------------------------------------------------- the theorem

  ghost predicate AllMatched(course: seq<Meeting>) {
    forall i :: 0 <= i < |course| ==> course[i].Matched?
  }

  // For a step the pre-flight accepts: it reports nothing missing exactly when the step
  // is matched and running its nested steps, as far as that goes, meets no undefined or
  // ambiguous one.
  lemma {:induction false} PreflightIsSound(w: World, rank: string -> nat, text: string, stepType: StepType,
                                            arg: Option<string>)
    requires WellFounded(w, rank) && Typed(w) && Sound(w, rank, text, stepType, arg)
    ensures Unknown(Leaves(Expand(w, rank, text, stepType, arg))) == [] <==>
      MatchOf(w, text, stepType).Some? && AllMatched(Courses(w, rank, text, SubSteps(w, text, stepType, arg)))
    decreases rank(text), 1
  {
    var d := MatchOf(w, text, stepType);
    if d.Some? && w.definitions[d.value].nested {
      SubStepsSound(w, rank, text, SubSteps(w, text, stepType, arg));
    } else if d.Some? {
      assert SubSteps(w, text, stepType, arg) == [];
    }
  }

  lemma {:induction false} SubStepsSound(w: World, rank: string -> nat, text: string, steps: seq<string>)
    requires WellFounded(w, rank) && Typed(w)
    requires forall s :: s in steps ==> rank(s) < rank(text) && Sound(w, rank, s, UnknownType, None)
    ensures MissingIn(w, rank, text, steps) == [] <==> AllMatched(Courses(w, rank, text, steps))
    decreases rank(text), 0, |steps|
  {
    if steps != [] {
      var i := |steps| - 1;
      SubStepsSound(w, rank, text, steps[..i]);
      MissingSnoc(w, rank, text, steps, i);
      CoursesSnoc(w, rank, text, steps, i);
      assert steps[..i + 1] == steps;
      PreflightIsSound(w, rank, steps[i], UnknownType, None);
      CourseMatched(w, rank, steps[i]);
      MatchedAppend(Courses(w, rank, text, steps[..i]), Course(w, rank, steps[i]));
    }
  }

  lemma CourseMatched(w: World, rank: string -> nat, text: string)
    requires WellFounded(w, rank) && !IsAmbiguous(w, text, UnknownType)
    ensures AllMatched(Course(w, rank, text)) <==>
      MatchOf(w, text, UnknownType).Some? && AllMatched(Courses(w, rank, text, SubSteps(w, text, UnknownType, None)))
  {
    var d := MatchOf(w, text, UnknownType);
    if d.Some? {
      MatchedAppend([Matched(text, d.value)], Courses(w, rank, text, SubSteps(w, text, UnknownType, None)));
    } else {
      assert !Course(w, rank, text)[0].Matched?;
    }
  }

  lemma MatchedAppend(a: seq<Meeting>, b: seq<Meeting>)
    ensures AllMatched(a + b) <==> AllMatched(a) && AllMatched(b)
  {
    assert forall i :: 0 <= i < |a| ==> (a + b)[i] == a[i];
    assert forall i :: 0 <= i < |b| ==> (a + b)[|a| + i] == b[i];
  }

  // Pre-flight, then run, as runStep does: with nothing missing, no nested step met while
  // running is undefined or ambiguous, whatever the hooks return.
  method LookThenRun(w: World, ghost rank: string -> nat, text: string, arg: Option<string>, stepType: StepType)
    returns (found: Steps.Preflight, err: Err, met: seq<Meeting>)
    requires WellFounded(w, rank) && Typed(w)
    ensures found.Resolved? && found.missing == [] ==> AllMatched(met)
    ensures !(found.Resolved? && found.missing == []) ==> met == []
  {
    err, met := None, [];
    found := MaybeUndefined(w, rank, text, arg, stepType);
    if found.Resolved? && |found.missing| == 0 {
      PreflightIsSound(w, rank, text, stepType, arg);
      var d := MatchStep(w, text, stepType);
      var result := w.run(d.value.value, text, arg);
      ghost var steps := SubSteps(w, text, stepType, arg);
      assert result.Nested? ==> result.texts == steps;
      err, met := MaybeSubSteps(w, rank, text, result, []);
      if result.Nested? {
        StepsCovered(w, rank, text, steps, []);
        assert met[0..] == met;
      }
    }
  }
}
