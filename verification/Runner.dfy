// suite.go as it runs: the hook runners, runStep with its deferred function, runSteps
// and runPickle, each proved to log exactly the events the specification asks for.
module Runner {
  import opened Ids
  import opened Errors
  import opened Steps
  import opened Scenarios

  class Suite<!S(!new)> {
    const env: Env<S>
    const strict: bool
    ghost const start: S
    var user: S
    var events: seq<Event>

    // The log is what the user code did, and the user state is what that led to.
    ghost predicate Valid()
      reads this
    {
      RecordsAll(env, start, events) && user == PlayAll(env, start, events)
    }

    constructor (env: Env<S>, strict: bool, user: S)
      ensures Valid() && this.env == env && this.strict == strict && start == user && events == []
    {
      this.env, this.strict, this.start, this.user, this.events := env, strict, user, user, [];
    }

    method Log(e: Event, next: S)
      requires Valid() && Records(env, user, e) && next == Play(env, user, e)
      modifies this
      ensures Valid() && events == old(events) + [e]
    {
      assert (events + [e])[..|events|] == events;
      user, events := next, events + [e];
    }

    // An event that only notes what the suite did.
    method Note(e: Event)
      requires Valid() && (e.Defined? || e.Stored? || e.Shown?)
      modifies this
      ensures Valid() && events == old(events) + [e]
    {
      Log(e, user);
    }

    method RunBeforeScenarioHooks(step: string) returns (err: Err, panic: Option<Panic>, ghost calls: seq<Event>)
      requires Valid()
      modifies this
      ensures Valid() && events == old(events) + calls
      ensures BeforeCalls(ScenarioScope, |env.beforeScenario|, step, calls) && panic == PanickedIn(calls)
      ensures err == if panic.Some? then None else BeforeResult(None, calls)
    {
      err, panic, calls := None, None, [];
      for k := 0 to |env.beforeScenario|
        invariant Valid() && events == old(events) + calls && |calls| == k
        invariant AllReturned(ScenarioScope, step, calls) && err == Gathered(None, calls) && panic.None?
      {
        ghost var call;
        err, panic, call := CallBeforeScenarioHook(k, step, err);
        ReturnedSnoc(ScenarioScope, step, None, calls, call);
        calls := calls + [call];
        if panic.Some? {
          return None, panic, calls;
        }
      }
      GatheredSome(None, calls);
      if err.Some? {
        err := Wrap(err);
      }
    }

    method CallBeforeScenarioHook(k: nat, step: string, before: Err)
      returns (err: Err, panic: Option<Panic>, ghost call: Event)
      requires Valid() && k < |env.beforeScenario|
      modifies this
      ensures Valid() && events == old(events) + [call] && IsCall(ScenarioScope, step, k, call)
      ensures panic == PanickedIn([call]) && err == MergeErrors(Added(call), before)
    {
      var (next, outcome) := env.beforeScenario[k](user);
      Log(BeforeHook(ScenarioScope, k, step, outcome), next);
      call, err, panic := BeforeHook(ScenarioScope, k, step, outcome), before, None;
      match outcome {
        case Panicked(p) => panic := Some(p);
        case Returned(e) =>
          if e.Some? {
            err := if before.None? then e else MergeErrors(e, before);
          }
      }
    }

    method CallBeforeStepHook(k: nat, step: string, before: Err)
      returns (err: Err, panic: Option<Panic>, failed: bool, ghost call: Event)
      requires Valid() && k < |env.beforeStep|
      modifies this
      ensures Valid() && events == old(events) + [call] && IsCall(StepScope, step, k, call)
      ensures panic == PanickedIn([call]) && (failed <==> Added(call).Some?) && err == MergeErrors(Added(call), before)
    {
      var (next, outcome) := env.beforeStep[k](user, step);
      Log(BeforeHook(StepScope, k, step, outcome), next);
      call, err, panic := BeforeHook(StepScope, k, step, outcome), before, None;
      failed := false;
      match outcome {
        case Panicked(p) => panic := Some(p);
        case Returned(e) =>
          if e.Some? {
            failed := true;
            err := if before.None? then e else MergeErrors(e, before);
          }
      }
    }

    method RunBeforeStepHooks(step: string, before: Err)
      returns (err: Err, panic: Option<Panic>, ghost calls: seq<Event>)
      requires Valid()
      modifies this
      ensures Valid() && events == old(events) + calls
      ensures BeforeCalls(StepScope, |env.beforeStep|, step, calls) && panic == PanickedIn(calls)
      ensures err == if panic.Some? then before else BeforeResult(before, calls)
    {
      err, panic, calls := before, None, [];
      var hooksFailed := false;
      for k := 0 to |env.beforeStep|
        invariant Valid() && events == old(events) + calls && |calls| == k
        invariant AllReturned(StepScope, step, calls) && err == Gathered(before, calls) && panic.None?
        invariant hooksFailed <==> AnyAdded(calls)
      {
        ghost var call;
        var failed;
        err, panic, failed, call := CallBeforeStepHook(k, step, err);
        ReturnedSnoc(StepScope, step, before, calls, call);
        calls := calls + [call];
        if panic.Some? {
          return before, panic, calls;
        }
        hooksFailed := hooksFailed || failed;
      }
      if hooksFailed {
        err := Wrap(err);
      }
    }

    method RunAfterStepHooks(step: string, status: Status, told: Err) returns (err: Err, ghost calls: seq<Event>)
      requires Valid()
      modifies this
      ensures Valid() && events == old(events) + calls
      ensures AfterStepCalls(|env.afterStep|, step, status, told, calls) && err == Gathered(told, calls)
    {
      err, calls := told, [];
      for k := 0 to |env.afterStep|
        invariant Valid() && events == old(events) + calls
        invariant AfterStepCalls(k, step, status, told, calls) && err == Gathered(told, calls)
      {
        ghost var call;
        err, call := NextAfterStepHook(k, step, status, told, err, calls);
        calls := calls + [call];
      }
    }

    // One turn of that loop.
    method NextAfterStepHook(k: nat, step: string, status: Status, ghost told: Err, before: Err,
                             ghost calls: seq<Event>)
      returns (err: Err, ghost call: Event)
      requires Valid() && k < |env.afterStep|
      requires AfterStepCalls(k, step, status, told, calls) && before == Gathered(told, calls)
      modifies this
      ensures Valid() && events == old(events) + [call]
      ensures AfterStepCalls(k + 1, step, status, told, calls + [call]) && err == Gathered(told, calls + [call])
    {
      err, call := CallAfterStepHook(k, step, status, before);
      GatheredSnoc(told, calls, call);
      AfterStepSnoc(step, status, told, calls, call);
    }

    method CallAfterStepHook(k: nat, step: string, status: Status, before: Err) returns (err: Err, ghost call: Event)
      requires Valid() && k < |env.afterStep|
      modifies this
      ensures Valid() && events == old(events) + [call]
      ensures call == AfterStepHook(k, step, status, before, Added(call)) && err == MergeErrors(Added(call), before)
    {
      var (next, gave) := env.afterStep[k](user, step, status, before);
      Log(AfterStepHook(k, step, status, before, gave), next);
      call, err := AfterStepHook(k, step, status, before, gave), before;
      if gave.Some? {
        err := if before.None? then gave else MergeErrors(gave, before);
      }
    }

    method RunAfterScenarioHooks(last: Err) returns (err: Err, ghost calls: seq<Event>)
      requires Valid()
      modifies this
      ensures Valid() && events == old(events) + calls
      ensures AfterScenarioCalls(|env.afterScenario|, last, calls) && err == AfterScenarioResult(last, calls)
    {
      err, calls := last, [];
      var hooksFailed, isStepErr := false, true;
      for k := 0 to |env.afterScenario|
        invariant Valid() && events == old(events) + calls
        invariant AfterScenarioCalls(k, last, calls) && err == Closed(last, calls)
        invariant hooksFailed <==> AnyAdded(calls)
        invariant isStepErr <==> !AnyAdded(calls)
      {
        var (next, gave) := env.afterScenario[k](user, err);
        var call := AfterScenarioHook(k, err, gave);
        Log(call, next);
        CallSnoc(last, calls, call);
        AfterScenarioSnoc(last, calls, call);
        calls := calls + [call];
        if gave.Some? {
          hooksFailed := true;
          if err.None? {
            isStepErr := false;
            err := gave;
          } else {
            if isStepErr {
              err := Wrap(err);
              isStepErr := false;
            }
            err := MergeErrors(gave, err);
          }
        }
      }
      if hooksFailed {
        err := Wrap(err);
      }
    }

    // runStep after its before-step hooks, up to its return or a panic.
    method RunBody(step: string, hookErr: Err, scenarioErr: Err)
      returns (err: Err, panic: Option<Panic>, ghost body: seq<Event>, ghost exit: Exit)
      requires Valid()
      modifies this
      ensures Valid() && events == old(events) + body
      ensures BodyOk(step, env.ambiguous(step), hookErr, scenarioErr, body, exit)
      ensures ExitErr(exit) == Recovered(err, panic)
    {
      ghost var rest: seq<Event>;
      Note(Defined(step));
      if hookErr.Some? {
        Note(Stored(step, Failed));
        err, panic, rest, exit := hookErr, None, [Stored(step, Failed)], HookFailed(hookErr.value);
      } else if env.ambiguous(step) {
        err, panic, rest, exit := Some(Wrapped(Sentinel(Ambiguous))), None, [], NoMatch;
      } else {
        err, panic, rest, exit := RunPreflight(step, scenarioErr);
      }
      body := [Defined(step)] + rest;
      Associates(old(events), [Defined(step)], rest);
    }

    method RunPreflight(step: string, scenarioErr: Err)
      returns (err: Err, panic: Option<Panic>, ghost rest: seq<Event>, ghost exit: Exit)
      requires Valid()
      modifies this
      ensures Valid() && events == old(events) + rest
      ensures PreflightOk(step, scenarioErr, rest, exit)
      ensures ExitErr(exit) == Recovered(err, panic)
    {
      var (next, found) := env.preflight(user, step);
      Log(Preflighted(step, found), next);
      ghost var tail: seq<Event> := [];
      match found {
        case Refused(e) =>
          err, panic, exit := Some(e), None, Unresolved(e);
        case Broken(p) =>
          err, panic, exit := None, Some(p), Threw(None, p);
        case Resolved(missing) =>
          err, panic, tail, exit := RunResolved(step, missing, scenarioErr);
      }
      rest := [Preflighted(step, found)] + tail;
      Associates(old(events), [Preflighted(step, found)], tail);
    }

    method RunResolved(step: string, missing: seq<string>, scenarioErr: Err)
      returns (err: Err, panic: Option<Panic>, ghost rest: seq<Event>, ghost exit: Exit)
      requires Valid()
      modifies this
      ensures Valid() && events == old(events) + rest
      ensures ResolvedOk(step, missing, scenarioErr, rest, exit)
      ensures ExitErr(exit) == Recovered(err, panic)
    {
      if |missing| > 0 {
        Note(Stored(step, UndefinedStep));
        Note(Shown(step, UndefinedStep));
        return Some(Wrapped(Sentinel(Undefined))), None,
        [Stored(step, UndefinedStep), Shown(step, UndefinedStep)], Missing;
      }
      if scenarioErr.Some? {
        Note(Stored(step, Skipped));
        Note(Shown(step, Skipped));
        return None, None, [Stored(step, Skipped), Shown(step, Skipped)], SkippedOver;
      }
      var (next, outcome) := env.run(user, step);
      Log(Ran(step, outcome), next);
      rest := [Ran(step, outcome)];
      match outcome
      case Returned(e) =>
        return e, None, rest, Finished(e);
      case Panicked(p) =>
        return None, Some(p), rest, Threw(None, p);
    }

    // runStep up to its deferred function.
    method RunOpening(step: string, scenarioErr: Err, isFirst: bool)
      returns (err: Err, panic: Option<Panic>, ghost r: Report)
      requires Valid()
      modifies this
      ensures Valid() && events == old(events) + OpeningOf(r)
      ensures OpeningOk(SizesOf(env), step, env.ambiguous(step), scenarioErr, isFirst, r)
      ensures ExitErr(r.exit) == Recovered(err, panic)
    {
      ghost var first, second: seq<Event>, body, exit := [], [], [], SkippedOver;
      err, panic, first := RunFirstHooks(step, isFirst);
      if panic.Some? {
        exit := Threw(None, panic.value);
      } else {
        err, panic, second, body, exit := RunStepPart(step, err, scenarioErr);
      }
      r := Report(first, second, body, exit, [], None, [], None, [], None, []);
      AssociatesThree(old(events), first, second, body);
    }

    method RunFirstHooks(step: string, isFirst: bool) returns (err: Err, panic: Option<Panic>, ghost calls: seq<Event>)
      requires Valid()
      modifies this
      ensures Valid() && events == old(events) + calls && panic == PanickedIn(calls)
      ensures if isFirst then BeforeCalls(ScenarioScope, |env.beforeScenario|, step, calls) else calls == []
      ensures err == if panic.Some? then None else BeforeResult(None, calls)
    {
      err, panic, calls := None, None, [];
      if isFirst {
        err, panic, calls := RunBeforeScenarioHooks(step);
      }
    }

    method RunStepPart(step: string, hookErr: Err, scenarioErr: Err)
      returns (err: Err, panic: Option<Panic>, ghost calls: seq<Event>, ghost body: seq<Event>, ghost exit: Exit)
      requires Valid()
      modifies this
      ensures Valid() && events == old(events) + calls + body
      ensures StepPartOk(|env.beforeStep|, step, env.ambiguous(step), hookErr, scenarioErr, calls, body, exit)
      ensures ExitErr(exit) == Recovered(err, panic)
    {
      body := [];
      err, panic, calls := RunBeforeStepHooks(step, hookErr);
      if panic.Some? {
        exit := Threw(hookErr, panic.value);
      } else {
        err, panic, body, exit := RunBody(step, err, scenarioErr);
      }
    }

    method ConsultTest(recovered: Err) returns (err: Err, ghost consulted: seq<Event>)
      requires Valid()
      modifies this
      ensures Valid() && events == old(events) + consulted && ToldOk(recovered, consulted, err)
    {
      err, consulted := recovered, [];
      if err.None? {
        var test := env.testing(user);
        Log(Consulted(test), user);
        consulted := [Consulted(test)];
        if test.Some? {
          err := IsFailed(test.value);
        }
      }
    }

    method RunFinalHooks(scenarioErr: Err, isLast: bool, merged: Err) returns (err: Err, ghost calls: seq<Event>)
      requires Valid()
      modifies this
      ensures Valid() && events == old(events) + calls
      ensures FinalHooksOk(Triggers(strict, scenarioErr, isLast, merged), |env.afterScenario|, merged, calls, err)
    {
      err, calls := merged, [];
      if !ShouldFail(strict, scenarioErr) && (isLast || ShouldFail(strict, err)) {
        err, calls := RunAfterScenarioHooks(err);
      }
    }

    method NoteResult(step: string, earlyReturn: bool, err: Err)
      requires Valid()
      modifies this
      ensures Valid() && events == old(events) + FinalNotes(step, earlyReturn, err)
    {
      if earlyReturn {
        return;
      }
      Note(Stored(step, ResultOf(err)));
      Note(Shown(step, ResultOf(err)));
    }

    // The deferred function of runStep.
    method Conclude(step: string, recovered: Err, scenarioErr: Err, isLast: bool, ghost opening: Report)
      returns (err: Err, ghost r: Report)
      requires Valid() && recovered == ExitErr(opening.exit)
      modifies this
      ensures Valid() && events == old(events) + ClosingOf(r)
      ensures SameOpening(opening, r) && err == r.returned
      ensures ClosingOk(strict, SizesOf(env), step, scenarioErr, isLast, r)
    {
      var earlyReturn := scenarioErr.Some? || Is(recovered, Undefined);
      ghost var consulted, afterStep, afterScenario;
      err, consulted := ConsultTest(recovered);
      ghost var told := err;
      err, afterStep := RunAfterStepHooks(step, StatusOf(err, scenarioErr), err);
      ghost var merged := err;
      err, afterScenario := RunFinalHooks(scenarioErr, isLast, err);
      NoteResult(step, earlyReturn, err);
      ghost var closing := FinalNotes(step, earlyReturn, err);
      AssociatesThree(old(events), consulted, afterStep, afterScenario);
      Associates(old(events), consulted + afterStep + afterScenario, closing);
      r := Report(opening.beforeScenario, opening.beforeStep, opening.body, opening.exit,
                  consulted, told, afterStep, merged, afterScenario, err, closing);
    }

    method RunStep(step: string, scenarioErr: Err, isFirst: bool, isLast: bool) returns (err: Err, ghost r: Report)
      requires Valid()
      modifies this
      ensures Valid() && events == old(events) + EventsOf(r) && err == r.returned
      ensures StepOk(strict, SizesOf(env), step, env.ambiguous(step), scenarioErr, isFirst, isLast, r)
    {
      var panic;
      ghost var opening;
      err, panic, opening := RunOpening(step, scenarioErr, isFirst);
      err, r := Conclude(step, Recovered(err, panic), scenarioErr, isLast, opening);
      SameOpeningOk(SizesOf(env), step, env.ambiguous(step), scenarioErr, isFirst, opening, r);
      Associates(old(events), OpeningOf(r), ClosingOf(r));
    }

    method RunSteps(steps: seq<string>) returns (verdict: Err, ghost reports: seq<Report>)
      requires Valid()
      modifies this
      ensures Valid() && events == old(events) + AllEvents(reports)
      ensures ScenarioOk(strict, env, steps, reports) && verdict == ErrBefore(strict, reports)
    {
      verdict, reports := None, [];
      for i := 0 to |steps|
        invariant Valid() && events == old(events) + AllEvents(reports) && |reports| == i
        invariant StepsOk(strict, env, steps, reports) && verdict == ErrBefore(strict, reports)
      {
        var stepErr;
        ghost var r;
        stepErr, r := RunStep(steps[i], verdict, i == 0, i == |steps| - 1);
        StepsSnoc(strict, env, steps, reports, r);
        Associates(old(events), AllEvents(reports), EventsOf(r));
        reports := reports + [r];
        if verdict.None? || ShouldFail(strict, stepErr) {
          verdict := stepErr;
        }
      }
    }

    // A scenario without steps runs nothing and is undefined.
    method RunPickle(steps: seq<string>) returns (err: Err, ghost reports: seq<Report>)
      requires Valid()
      modifies this
      ensures Valid() && events == old(events) + AllEvents(reports)
      ensures ScenarioOk(strict, env, steps, reports)
      ensures err == if steps == [] then Some(Wrapped(Sentinel(Undefined))) else ErrBefore(strict, reports)
    {
      if |steps| == 0 {
        return Some(Wrapped(Sentinel(Undefined))), [];
      }
      err, reports := RunSteps(steps);
    }
  }
}
