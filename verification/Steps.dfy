// suite.go: one scenario's steps, its hooks, and the error that travels through them.
// User code (hooks, handlers, nested steps) is any deterministic transformer of a user
// state; everything a step does is logged as an event.
module Steps {
  import opened Ids
  import opened Errors

  datatype Outcome = Returned(err: Err) | Panicked(panic: Panic)

  // What maybeUndefined reports: the undefined leaves, an error, or a panic.
  datatype Preflight = Resolved(missing: seq<string>) | Refused(error: Error) | Broken(panic: Panic)

  datatype Scope = ScenarioScope | StepScope

  datatype Event =
    | BeforeHook(scope: Scope, hook: nat, step: string, outcome: Outcome)
    | Defined(step: string)
    | Preflighted(step: string, found: Preflight)
    | Ran(step: string, outcome: Outcome)
    | Consulted(test: Option<TestState>)
    | AfterStepHook(hook: nat, step: string, status: Status, given: Err, gave: Err)
    | AfterScenarioHook(hook: nat, given: Err, gave: Err)
    | Stored(step: string, status: Status)
    | Shown(step: string, status: Status)

  datatype Env<!S> = Env(
    beforeScenario: seq<S -> (S, Outcome)>,
    beforeStep: seq<(S, string) -> (S, Outcome)>,
    ambiguous: string -> bool,
    preflight: (S, string) -> (S, Preflight),
    run: (S, string) -> (S, Outcome),
    afterStep: seq<(S, string, Status, Err) -> (S, Err)>,
    afterScenario: seq<(S, Err) -> (S, Err)>,
    testing: S -> Option<TestState>)

  // ------------------------------------------------------- the log and the user code

  // The user state after one event, and whether the event records what user code did.
  ghost function Play<S>(env: Env<S>, s: S, e: Event): S {
    match e
    case BeforeHook(ScenarioScope, k, _, _) => if k < |env.beforeScenario| then env.beforeScenario[k](s).0 else s
    case BeforeHook(StepScope, k, step, _) => if k < |env.beforeStep| then env.beforeStep[k](s, step).0 else s
    case Preflighted(step, _) => env.preflight(s, step).0
    case Ran(step, _) => env.run(s, step).0
    case AfterStepHook(k, step, status, given, _) =>
      if k < |env.afterStep| then env.afterStep[k](s, step, status, given).0 else s
    case AfterScenarioHook(k, given, _) => if k < |env.afterScenario| then env.afterScenario[k](s, given).0 else s
    case _ => s
  }

  ghost predicate Records<S>(env: Env<S>, s: S, e: Event) {
    match e
    case BeforeHook(ScenarioScope, k, _, outcome) => k < |env.beforeScenario| && env.beforeScenario[k](s).1 == outcome
    case BeforeHook(StepScope, k, step, outcome) => k < |env.beforeStep| && env.beforeStep[k](s, step).1 == outcome
    case Preflighted(step, found) => env.preflight(s, step).1 == found
    case Ran(step, outcome) => env.run(s, step).1 == outcome
    case Consulted(test) => env.testing(s) == test
    case AfterStepHook(k, step, status, given, gave) =>
      k < |env.afterStep| && env.afterStep[k](s, step, status, given).1 == gave
    case AfterScenarioHook(k, given, gave) => k < |env.afterScenario| && env.afterScenario[k](s, given).1 == gave
    case _ => true
  }

  ghost function PlayAll<S>(env: Env<S>, s: S, events: seq<Event>): S {
    if events == [] then s
    else Play(env, PlayAll(env, s, events[..|events| - 1]), events[|events| - 1])
  }

  ghost predicate RecordsAll<S>(env: Env<S>, s: S, events: seq<Event>) {
    events == [] ||
    var init := events[..|events| - 1];
    RecordsAll(env, s, init) && Records(env, PlayAll(env, s, init), events[|events| - 1])
  }

  // ----------------------------------------------------------------- hook sequences

  ghost predicate IsCall(scope: Scope, step: string, k: nat, e: Event) {
    e.BeforeHook? && e.scope == scope && e.hook == k && e.step == step
  }

  ghost predicate AllReturned(scope: Scope, step: string, calls: seq<Event>) {
    forall i {:trigger calls[i]} :: 0 <= i < |calls| ==> IsCall(scope, step, i, calls[i]) && calls[i].outcome.Returned?
  }

  // Hooks are called in order, all of them unless one panics.
  ghost predicate BeforeCalls(scope: Scope, n: nat, step: string, calls: seq<Event>) {
    if PanickedIn(calls).None? then |calls| == n && AllReturned(scope, step, calls)
    else
      && |calls| <= n && IsCall(scope, step, |calls| - 1, calls[|calls| - 1])
      && AllReturned(scope, step, calls[..|calls| - 1])
  }

  function PanickedIn(calls: seq<Event>): Option<Panic> {
    if calls != [] && calls[|calls| - 1].BeforeHook? && calls[|calls| - 1].outcome.Panicked?
    then Some(calls[|calls| - 1].outcome.panic) else None
  }

  // What a hook call added to the error.
  function Added(e: Event): Err {
    match e
    case BeforeHook(_, _, _, Returned(err)) => err
    case AfterStepHook(_, _, _, _, gave) => gave
    case AfterScenarioHook(_, _, gave) => gave
    case _ => None
  }

  // Each new error is put in front of those before it.
  function Gathered(err: Err, calls: seq<Event>): Err {
    if calls == [] then err else MergeErrors(Added(calls[|calls| - 1]), Gathered(err, calls[..|calls| - 1]))
  }

  predicate AnyAdded(calls: seq<Event>) {
    Gathered(None, calls).Some?
  }

  // Some call gave an error.
  ghost predicate SomeAdded(calls: seq<Event>) {
    exists i :: 0 <= i < |calls| && Added(calls[i]).Some?
  }

  lemma {:induction false} AnyAddedIs(calls: seq<Event>)
    ensures AnyAdded(calls) <==> SomeAdded(calls)
  {
    if calls != [] {
      var before := calls[..|calls| - 1];
      AnyAddedIs(before);
      assert forall i :: 0 <= i < |before| ==> before[i] == calls[i];
      if AnyAdded(before) {
        var i :| 0 <= i < |before| && Added(before[i]).Some?;
        assert Added(calls[i]).Some?;
      }
      assert Added(calls[|calls| - 1]).Some? ==> SomeAdded(calls);
    }
  }

  // Some call gave an error with this identity.
  ghost predicate SomeHas(calls: seq<Event>, kind: Kind) {
    exists i :: 0 <= i < |calls| && Is(Added(calls[i]), kind)
  }

  lemma {:induction false} GatheredHas(err: Err, calls: seq<Event>, kind: Kind)
    ensures Is(Gathered(err, calls), kind) <==> Is(err, kind) || SomeHas(calls, kind)
  {
    if calls != [] {
      var before := calls[..|calls| - 1];
      GatheredHas(err, before, kind);
      assert forall i :: 0 <= i < |before| ==> before[i] == calls[i];
      if SomeHas(before, kind) {
        var i :| 0 <= i < |before| && Is(Added(before[i]), kind);
        assert Is(Added(calls[i]), kind);
      }
      assert Is(Added(calls[|calls| - 1]), kind) ==> SomeHas(calls, kind);
    }
  }

  function BeforeResult(err: Err, calls: seq<Event>): Err {
    if AnyAdded(calls) then Wrap(Gathered(err, calls)) else Gathered(err, calls)
  }

  ghost predicate AfterStepCalls(n: nat, step: string, status: Status, told: Err, calls: seq<Event>) {
    |calls| == n && forall i {:trigger calls[i]} :: 0 <= i < n ==>
      calls[i] == AfterStepHook(i, step, status, Gathered(told, calls[..i]), Added(calls[i]))
  }

  // The step's error is wrapped when the first hook error joins it.
  function Closed(last: Err, calls: seq<Event>): Err {
    if calls == [] then last
    else
      var before, gave := calls[..|calls| - 1], Added(calls[|calls| - 1]);
      if gave.Some? && !AnyAdded(before) then MergeErrors(gave, Wrap(Closed(last, before)))
      else MergeErrors(gave, Closed(last, before))
  }

  ghost predicate AfterScenarioCalls(n: nat, last: Err, calls: seq<Event>) {
    |calls| == n && forall i {:trigger calls[i]} :: 0 <= i < n ==>
      calls[i] == AfterScenarioHook(i, Closed(last, calls[..i]), Added(calls[i]))
  }

  function AfterScenarioResult(last: Err, calls: seq<Event>): Err {
    if AnyAdded(calls) then Wrap(Closed(last, calls)) else Closed(last, calls)
  }

  // Merging and wrapping keep every identity: the result has one exactly when the step's
  // error or some hook's error has it.
  lemma {:induction false} ClosedHas(last: Err, calls: seq<Event>, kind: Kind)
    ensures Is(Closed(last, calls), kind) <==>
      Is(last, kind) || exists i :: 0 <= i < |calls| && Is(Added(calls[i]), kind)
    ensures Closed(last, calls).None? <==> last.None? && !AnyAdded(calls)
  {
    if calls != [] {
      var before, gave := calls[..|calls| - 1], Added(calls[|calls| - 1]);
      ClosedHas(last, before, kind);
      assert forall i :: 0 <= i < |before| ==> before[i] == calls[i];
      if exists i :: 0 <= i < |calls| && Is(Added(calls[i]), kind) {
        var i :| 0 <= i < |calls| && Is(Added(calls[i]), kind);
        assert i < |before| ==> Is(Added(before[i]), kind);
      }
    }
  }

  // The after-scenario hooks forgive a failing step exactly when one of them returns an
  // error that would not fail the scenario by itself.
  lemma AfterScenarioForgives(strict: bool, last: Err, calls: seq<Event>)
    requires ShouldFail(strict, last)
    ensures ShouldFail(strict, AfterScenarioResult(last, calls)) <==>
      forall i :: 0 <= i < |calls| ==> !Forgiven(strict, Added(calls[i]))
  {
    ClosedHas(last, calls, Skip);
    ClosedHas(last, calls, Undefined);
    ClosedHas(last, calls, Pending);
  }

  // ------------------------------------------------------------------- one step's run

  datatype Exit =
    | HookFailed(error: Error)
    | NoMatch
    | Unresolved(error: Error)
    | Missing
    | Finished(err: Err)
    | SkippedOver
    | Threw(err: Err, panic: Panic)

  function ExitErr(exit: Exit): Err {
    match exit
    case HookFailed(e) => Some(e)
    case NoMatch => Some(Wrapped(Sentinel(Ambiguous)))
    case Unresolved(e) => Some(e)
    case Missing => Some(Wrapped(Sentinel(Undefined)))
    case Finished(err) => err
    case SkippedOver => None
    case Threw(err, panic) => Recovered(err, Some(panic))
  }

  // The part of a step after its nested steps were looked up.
  ghost predicate ResolvedOk(step: string, missing: seq<string>, scenarioErr: Err, rest: seq<Event>, exit: Exit) {
    if missing != [] then
      exit == Missing && rest == [Stored(step, UndefinedStep), Shown(step, UndefinedStep)]
    else if scenarioErr.Some? then
      exit == SkippedOver && rest == [Stored(step, Skipped), Shown(step, Skipped)]
    else
      && |rest| == 1 && rest[0].Ran? && rest[0].step == step
      && exit == if rest[0].outcome.Returned? then Finished(rest[0].outcome.err) else Threw(None, rest[0].outcome.panic)
  }

  // The nested steps of a step, looked up before it runs.
  ghost predicate PreflightOk(step: string, scenarioErr: Err, rest: seq<Event>, exit: Exit) {
    && rest != [] && rest[0].Preflighted? && rest[0].step == step
    && match rest[0].found
       case Refused(e) => exit == Unresolved(e) && |rest| == 1
       case Broken(p) => exit == Threw(None, p) && |rest| == 1
       case Resolved(missing) => ResolvedOk(step, missing, scenarioErr, rest[1..], exit)
  }

  // The part of a step after its before-hooks.
  ghost predicate BodyOk(step: string, ambiguous: bool, hookErr: Err, scenarioErr: Err, body: seq<Event>, exit: Exit) {
    && body != [] && body[0] == Defined(step)
    && if hookErr.Some? then exit == HookFailed(hookErr.value) && body[1..] == [Stored(step, Failed)]
       else if ambiguous then exit == NoMatch && body[1..] == []
       else PreflightOk(step, scenarioErr, body[1..], exit)
  }

  datatype Report = Report(
    beforeScenario: seq<Event>, beforeStep: seq<Event>, body: seq<Event>, exit: Exit,
    consulted: seq<Event>, told: Err, afterStep: seq<Event>, merged: Err,
    afterScenario: seq<Event>, returned: Err, closing: seq<Event>)

  function OpeningOf(r: Report): seq<Event> {
    r.beforeScenario + r.beforeStep + r.body
  }

  function ClosingOf(r: Report): seq<Event> {
    r.consulted + r.afterStep + r.afterScenario + r.closing
  }

  function EventsOf(r: Report): seq<Event> {
    OpeningOf(r) + ClosingOf(r)
  }

  datatype Sizes = Sizes(beforeScenario: nat, beforeStep: nat, afterStep: nat, afterScenario: nat)

  function SizesOf<S>(env: Env<S>): Sizes {
    Sizes(|env.beforeScenario|, |env.beforeStep|, |env.afterStep|, |env.afterScenario|)
  }

  // From the before-step hooks to the point where the deferred function takes over.
  ghost predicate StepPartOk(n: nat, step: string, ambiguous: bool, hookErr: Err, scenarioErr: Err,
                             calls: seq<Event>, body: seq<Event>, exit: Exit) {
    && BeforeCalls(StepScope, n, step, calls)
    && if PanickedIn(calls).Some? then body == [] && exit == Threw(hookErr, PanickedIn(calls).value)
       else BodyOk(step, ambiguous, BeforeResult(hookErr, calls), scenarioErr, body, exit)
  }

  ghost predicate OpeningOk(n: Sizes, step: string, ambiguous: bool, scenarioErr: Err, isFirst: bool, r: Report) {
    && (if isFirst then BeforeCalls(ScenarioScope, n.beforeScenario, step, r.beforeScenario)
        else r.beforeScenario == [])
    && if PanickedIn(r.beforeScenario).Some?
       then r.beforeStep == [] && r.body == [] && r.exit == Threw(None, PanickedIn(r.beforeScenario).value)
       else StepPartOk(n.beforeStep, step, ambiguous, BeforeResult(None, r.beforeScenario), scenarioErr, r.beforeStep,
                       r.body, r.exit)
  }

  predicate EarlyReturn(scenarioErr: Err, exit: Exit) {
    scenarioErr.Some? || Is(ExitErr(exit), Undefined)
  }

  predicate Triggers(strict: bool, scenarioErr: Err, isLast: bool, merged: Err) {
    !ShouldFail(strict, scenarioErr) && (isLast || ShouldFail(strict, merged))
  }

  // A step without an error is failed, or skipped, by what its TestingT recorded.
  ghost predicate ToldOk(recovered: Err, consulted: seq<Event>, told: Err) {
    if recovered.Some? then consulted == [] && told == recovered
    else
      && |consulted| == 1 && consulted[0].Consulted?
      && told == if consulted[0].test.Some? then IsFailed(consulted[0].test.value) else None
  }

  ghost predicate FinalHooksOk(triggers: bool, n: nat, merged: Err, calls: seq<Event>, returned: Err) {
    if triggers then AfterScenarioCalls(n, merged, calls) && returned == AfterScenarioResult(merged, calls)
    else calls == [] && returned == merged
  }

  function FinalNotes(step: string, early: bool, returned: Err): seq<Event> {
    if early then [] else [Stored(step, ResultOf(returned)), Shown(step, ResultOf(returned))]
  }

  // The deferred function.
  ghost predicate ClosingOk(strict: bool, n: Sizes, step: string, scenarioErr: Err, isLast: bool, r: Report) {
    && ToldOk(ExitErr(r.exit), r.consulted, r.told)
    && AfterStepCalls(n.afterStep, step, StatusOf(r.told, scenarioErr), r.told, r.afterStep)
    && r.merged == Gathered(r.told, r.afterStep)
    && FinalHooksOk(Triggers(strict, scenarioErr, isLast, r.merged), n.afterScenario, r.merged, r.afterScenario,
                    r.returned)
    && r.closing == FinalNotes(step, EarlyReturn(scenarioErr, r.exit), r.returned)
  }

  ghost predicate StepOk(strict: bool, n: Sizes, step: string, ambiguous: bool, scenarioErr: Err, isFirst: bool,
                         isLast: bool, r: Report)
  {
    OpeningOk(n, step, ambiguous, scenarioErr, isFirst, r) && ClosingOk(strict, n, step, scenarioErr, isLast, r)
  }
}
