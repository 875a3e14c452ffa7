// suite.go: what one scenario's steps make together, and how a log of hook calls grows.
module Scenarios {
  import opened Ids
  import opened Errors
  import opened Steps

  lemma GatheredSnoc(err: Err, calls: seq<Event>, call: Event)
    ensures Gathered(err, calls + [call]) == MergeErrors(Added(call), Gathered(err, calls))
  {
    assert (calls + [call])[..|calls|] == calls;
  }

  lemma CallSnoc(err: Err, calls: seq<Event>, call: Event)
    ensures Gathered(err, calls + [call]) == MergeErrors(Added(call), Gathered(err, calls))
    ensures AnyAdded(calls + [call]) <==> AnyAdded(calls) || Added(call).Some?
  {
    GatheredSnoc(err, calls, call);
    GatheredSnoc(None, calls, call);
  }

  // A further before-hook call: it may panic, or return like those before it.
  lemma ReturnedSnoc(scope: Scope, step: string, err: Err, calls: seq<Event>, call: Event)
    requires AllReturned(scope, step, calls) && IsCall(scope, step, |calls|, call)
    ensures Gathered(err, calls + [call]) == MergeErrors(Added(call), Gathered(err, calls))
    ensures AnyAdded(calls + [call]) <==> AnyAdded(calls) || Added(call).Some?
    ensures PanickedIn(calls + [call]) == PanickedIn([call])
    ensures call.outcome.Returned? ==> AllReturned(scope, step, calls + [call])
    ensures call.outcome.Panicked? ==> forall n :: n > |calls| ==> BeforeCalls(scope, n, step, calls + [call])
  {
    CallSnoc(err, calls, call);
    assert (calls + [call])[..|calls|] == calls;
  }

  lemma {:induction false} GatheredSome(err: Err, calls: seq<Event>)
    ensures Gathered(err, calls).Some? <==> err.Some? || AnyAdded(calls)
  {
    if calls != [] {
      var before, last := calls[..|calls| - 1], calls[|calls| - 1];
      GatheredSome(err, before);
      CallSnoc(err, before, last);
      assert before + [last] == calls;
    }
  }

  lemma AfterStepSnoc(step: string, status: Status, told: Err, calls: seq<Event>, call: Event)
    requires AfterStepCalls(|calls|, step, status, told, calls)
    requires call == AfterStepHook(|calls|, step, status, Gathered(told, calls), Added(call))
    ensures AfterStepCalls(|calls| + 1, step, status, told, calls + [call])
  {
    var calls' := calls + [call];
    forall i {:trigger calls'[i]} | 0 <= i <= |calls|
      ensures calls'[i] == AfterStepHook(i, step, status, Gathered(told, calls'[..i]), Added(calls'[i]))
    {
      assert calls'[..i] == calls[..i];
      assert calls[..|calls|] == calls;
    }
  }

  lemma AfterScenarioSnoc(last: Err, calls: seq<Event>, call: Event)
    requires AfterScenarioCalls(|calls|, last, calls)
    requires call == AfterScenarioHook(|calls|, Closed(last, calls), Added(call))
    ensures AfterScenarioCalls(|calls| + 1, last, calls + [call])
  {
    var calls' := calls + [call];
    forall i {:trigger calls'[i]} | 0 <= i <= |calls|
      ensures calls'[i] == AfterScenarioHook(i, Closed(last, calls'[..i]), Added(calls'[i]))
    {
      assert calls'[..i] == calls[..i];
      assert calls[..|calls|] == calls;
    }
  }

  // ------------------------------------------------------------- a whole scenario

  function AllEvents(reports: seq<Report>): seq<Event> {
    if reports == [] then [] else AllEvents(reports[..|reports| - 1]) + EventsOf(reports[|reports| - 1])
  }

  // The scenario's error after these steps.
  function ErrBefore(strict: bool, reports: seq<Report>): Err {
    if reports == [] then None
    else
      var before, stepErr := ErrBefore(strict, reports[..|reports| - 1]), reports[|reports| - 1].returned;
      if before.None? || ShouldFail(strict, stepErr) then stepErr else before
  }

  ghost predicate StepAt<S>(strict: bool, env: Env<S>, steps: seq<string>, reports: seq<Report>, i: nat)
    requires i < |reports| <= |steps|
  {
    StepOk(strict, SizesOf(env), steps[i], env.ambiguous(steps[i]), ErrBefore(strict, reports[..i]), i == 0,
           i == |steps| - 1, reports[i])
  }

  ghost predicate StepsOk<S>(strict: bool, env: Env<S>, steps: seq<string>, reports: seq<Report>) {
    && |reports| <= |steps|
    && forall i {:trigger StepAt(strict, env, steps, reports, i)} ::
      0 <= i < |reports| ==> StepAt(strict, env, steps, reports, i)
  }

  ghost predicate ScenarioOk<S>(strict: bool, env: Env<S>, steps: seq<string>, reports: seq<Report>) {
    |reports| == |steps| && StepsOk(strict, env, steps, reports)
  }

  ghost predicate SameOpening(a: Report, b: Report) {
    a.beforeScenario == b.beforeScenario && a.beforeStep == b.beforeStep && a.body == b.body && a.exit == b.exit
  }

  lemma SameOpeningOk(n: Sizes, step: string, ambiguous: bool, scenarioErr: Err, isFirst: bool, a: Report, b: Report)
    requires SameOpening(a, b) && OpeningOk(n, step, ambiguous, scenarioErr, isFirst, a)
    ensures OpeningOk(n, step, ambiguous, scenarioErr, isFirst, b) && OpeningOf(b) == OpeningOf(a)
  {
  }

  lemma Associates<T>(a: seq<T>, b: seq<T>, c: seq<T>)
    ensures a + b + c == a + (b + c)
  {
  }

  lemma AssociatesThree<T>(a: seq<T>, b: seq<T>, c: seq<T>, d: seq<T>)
    ensures a + b + c + d == a + (b + c + d)
  {
  }

  lemma StepsSnoc<S>(strict: bool, env: Env<S>, steps: seq<string>, reports: seq<Report>, r: Report)
    requires StepsOk(strict, env, steps, reports) && |reports| < |steps|
    requires var i := |reports|;
      StepOk(strict, SizesOf(env), steps[i], env.ambiguous(steps[i]), ErrBefore(strict, reports), i == 0,
             i == |steps| - 1, r)
    ensures StepsOk(strict, env, steps, reports + [r])
    ensures AllEvents(reports + [r]) == AllEvents(reports) + EventsOf(r)
    ensures ErrBefore(strict, reports + [r]) ==
      if ErrBefore(strict, reports).None? || ShouldFail(strict, r.returned) then r.returned
      else ErrBefore(strict, reports)
  {
    var reports' := reports + [r];
    assert reports'[..|reports|] == reports;
    forall i: nat | i < |reports'| ensures StepAt(strict, env, steps, reports', i) {
      if i < |reports| {
        assert reports'[..i] == reports[..i];
        assert StepAt(strict, env, steps, reports, i);
      }
    }
  }
}
