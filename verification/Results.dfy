// What the log of a scenario says about results: the status every step stores and shows, the one
// its hooks are told, what a panic or the scenario's TestingT makes of a step, and the verdict.
// All of it is stated on errors and events, by the identities of errors.
module Results {
  import opened Ids
  import opened Errors
  import opened Steps
  import opened Scenarios
  import opened Runner
  import opened Verdicts

  // -------------------------------------------------------------------- stored and shown

  // The status of an error at the end of a step: the first of these identities that it has, in
  // the order pending, skipped, ambiguous; failed for any other error and passed for none.
  ghost predicate Answers(err: Err, status: Status) {
    && (status == Passed <==> err.None?)
    && (status == PendingStep <==> Is(err, Pending))
    && (status == Skipped <==> Is(err, Skip) && !Is(err, Pending))
    && (status == AmbiguousStep <==> Is(err, Ambiguous) && !Is(err, Pending) && !Is(err, Skip))
    && (status == Failed <==> err.Some? && !Is(err, Pending) && !Is(err, Skip) && !Is(err, Ambiguous))
  }

  // The deferred part of a step stores and shows the same status, that of the error the step
  // returns; or nothing, after an earlier error or where the step's own error is undefined.
  lemma DeferredShows<S>(strict: bool, env: Env<S>, steps: seq<string>, reports: seq<Report>, j: nat)
    requires ScenarioOk(strict, env, steps, reports) && j < |steps|
    ensures var r := reports[j];
      if (exists i :: 0 <= i < j && reports[i].returned.Some?) || Is(ExitErr(r.exit), Undefined)
      then r.closing == []
      else exists status ::
        Answers(r.returned, status) && r.closing == [Stored(steps[j], status), Shown(steps[j], status)]
  {
    assert StepAt(strict, env, steps, reports, j);
    CleanBefore(strict, reports, j);
    assert Answers(reports[j].returned, ResultOf(reports[j].returned));
  }

  lemma CleanBefore(strict: bool, reports: seq<Report>, j: nat)
    requires j <= |reports|
    ensures ErrBefore(strict, reports[..j]).None? <==> forall i :: 0 <= i < j ==> reports[i].returned.None?
  {
    CleanIff(strict, reports[..j]);
    assert forall i :: 0 <= i < j ==> reports[..j][i] == reports[i];
  }

  // ------------------------------------------------------------------- told to the hooks

  // The status told to after-step hooks: the first of ambiguous, pending, skipped and undefined
  // that the error has, failed for any other error; and without one, passed, unless an earlier step
  // returned an error.
  ghost predicate Tells(clean: bool, err: Err, status: Status) {
    && (status == AmbiguousStep <==> Is(err, Ambiguous))
    && (status == PendingStep <==> Is(err, Pending) && !Is(err, Ambiguous))
    && (status == Skipped <==> (err.None? && !clean) || (Is(err, Skip) && !Is(err, Ambiguous) && !Is(err, Pending)))
    && (status == UndefinedStep <==>
          Is(err, Undefined) && !Is(err, Ambiguous) && !Is(err, Pending) && !Is(err, Skip))
    && (status == Failed <==> err.Some? && forall kind :: kind != StopNow ==> !Is(err, kind))
    && (status == Passed <==> err.None? && clean)
  }

  lemma HooksAreTold<S>(strict: bool, env: Env<S>, steps: seq<string>, reports: seq<Report>, j: nat, k: nat)
    requires ScenarioOk(strict, env, steps, reports) && j < |steps| && k < |env.afterStep|
    ensures var r := reports[j];
      && |r.afterStep| == |env.afterStep| && r.afterStep[k].AfterStepHook?
      && r.afterStep[k].hook == k && r.afterStep[k].step == steps[j]
      && Tells(forall i :: 0 <= i < j ==> reports[i].returned.None?, r.told, r.afterStep[k].status)
  {
    assert StepAt(strict, env, steps, reports, j);
    CleanBefore(strict, reports, j);
    ToldStatus(ErrBefore(strict, reports[..j]), reports[j].told);
  }

  lemma ToldStatus(scenarioErr: Err, told: Err)
    ensures Tells(scenarioErr.None?, told, StatusOf(told, scenarioErr))
  {
    if StatusOf(told, scenarioErr) == Failed {
      forall kind | kind != StopNow ensures !Is(told, kind) {
      }
    } else {
      assert told.Some? ==> Is(told, Ambiguous) || Is(told, Pending) || Is(told, Skip) || Is(told, Undefined);
    }
  }

  // The error each after-step hook is given: it has the identities of the step's own error and of
  // those the hooks before it returned.
  lemma HooksAreGiven<S>(strict: bool, env: Env<S>, steps: seq<string>, reports: seq<Report>, j: nat, k: nat,
                         kind: Kind)
    requires ScenarioOk(strict, env, steps, reports) && j < |steps| && k < |env.afterStep|
    ensures var r := reports[j];
      && k < |r.afterStep| && r.afterStep[k].AfterStepHook?
      && (Is(r.afterStep[k].given, kind) <==>
            Is(r.told, kind) || exists i :: 0 <= i < k && Is(Added(r.afterStep[i]), kind))
  {
    assert StepAt(strict, env, steps, reports, j);
    var r := reports[j];
    GatheredHas(r.told, r.afterStep[..k], kind);
    FirstHave(r.afterStep, k, kind);
  }

  lemma FirstHave(calls: seq<Event>, k: nat, kind: Kind)
    requires k <= |calls|
    ensures SomeHas(calls[..k], kind) <==> exists i :: 0 <= i < k && Is(Added(calls[i]), kind)
  {
    assert forall i :: 0 <= i < k ==> calls[..k][i] == calls[i];
    if SomeHas(calls[..k], kind) {
      var i :| 0 <= i < k && Is(Added(calls[..k][i]), kind);
      assert Is(Added(calls[i]), kind);
    }
    if exists i :: 0 <= i < k && Is(Added(calls[i]), kind) {
      var i :| 0 <= i < k && Is(Added(calls[i]), kind);
      assert Is(Added(calls[..k][i]), kind);
    }
  }

  // ------------------------------------------------------------------ before the handler

  // What a step's body logs, by what its hooks, its match and the look-up of its nested steps came
  // to and whether an earlier step returned an error; and the error where the body decides it.
  ghost predicate BodyLogs(step: string, clean: bool, ambiguous: bool, r: Report) {
    && (HookPanicked(r) ==> r.body == [])
    && (!HookPanicked(r) && HookErred(r) ==> r.body == [Defined(step), Stored(step, Failed)])
    && (!HookPanicked(r) && !HookErred(r) && ambiguous ==> r.body == [Defined(step)] && Is(r.told, Ambiguous))
    && (!HookPanicked(r) && !HookErred(r) && !ambiguous ==> LookUpLogs(step, clean, r.body, r.told))
  }

  ghost predicate LookUpLogs(step: string, clean: bool, body: seq<Event>, told: Err) {
    && |body| >= 2 && body[0] == Defined(step) && body[1].Preflighted? && body[1].step == step
    && match body[1].found
       case Refused(e) => |body| == 2 && told == Some(e)
       case Broken(_) => |body| == 2
       case Resolved(missing) =>
         if missing != [] then
           body[2..] == [Stored(step, UndefinedStep), Shown(step, UndefinedStep)] && Is(told, Undefined)
         else if !clean then body[2..] == [Stored(step, Skipped), Shown(step, Skipped)]
         else |body| == 3 && body[2].Ran? && body[2].step == step
  }

  lemma StepBody<S>(strict: bool, env: Env<S>, steps: seq<string>, reports: seq<Report>, j: nat)
    requires ScenarioOk(strict, env, steps, reports) && j < |steps|
    ensures var clean := forall i :: 0 <= i < j ==> reports[i].returned.None?;
      BodyLogs(steps[j], clean, env.ambiguous(steps[j]), reports[j])
  {
    assert StepAt(strict, env, steps, reports, j);
    CleanBefore(strict, reports, j);
    var r := reports[j];
    var err := BeforeHookErr(r);
    var scenarioErr := ErrBefore(strict, reports[..j]);
    if !HookPanicked(r) {
      BodyOkLogs(steps[j], env.ambiguous(steps[j]), err, scenarioErr, r.body, r.exit, r.told, r.consulted);
    }
  }

  lemma BodyOkLogs(step: string, ambiguous: bool, hookErr: Err, scenarioErr: Err, body: seq<Event>, exit: Exit,
                   told: Err, consulted: seq<Event>)
    requires BodyOk(step, ambiguous, hookErr, scenarioErr, body, exit) && ToldOk(ExitErr(exit), consulted, told)
    ensures hookErr.Some? ==> body == [Defined(step), Stored(step, Failed)]
    ensures hookErr.None? && ambiguous ==> body == [Defined(step)] && Is(told, Ambiguous)
    ensures hookErr.None? && !ambiguous ==> LookUpLogs(step, scenarioErr.None?, body, told)
  {
    assert body == [body[0]] + body[1..];
    if hookErr.None? && !ambiguous {
      assert body[1] == body[1..][0] && body[2..] == body[1..][1..];
      assert PreflightOk(step, scenarioErr, body[1..], exit);
    }
  }

  // -------------------------------------------------------------------------- the handler

  // What a step that ran its handler is told to have come to. An error is kept; a panic is an
  // error without identity, unless it is the one with which FailNow and SkipNow stop a
  // handler; and without an error the scenario's TestingT decides: skipped, failed or fine.
  ghost predicate ComesTo(outcome: Outcome, consulted: seq<Event>, told: Err) {
    && (outcome.Returned? && outcome.err.Some? ==> consulted == [] && told == outcome.err)
    && (outcome.Panicked? && !Is(outcome.panic.err, StopNow) ==> consulted == [] && told == Some(Opaque))
    && (outcome == Returned(None) || (outcome.Panicked? && Is(outcome.panic.err, StopNow)) ==>
          |consulted| == 1 && consulted[0].Consulted? && Judged(consulted[0].test, told))
  }

  ghost predicate Judged(test: Option<TestState>, told: Err) {
    && (test.Some? && test.value.skipped ==> told == Some(Sentinel(Skip)))
    && (test.Some? && !test.value.skipped && test.value.failed ==> told == Some(Opaque))
    && (test.None? || (!test.value.skipped && !test.value.failed) ==> told == None)
  }

  lemma HandlerDecides<S>(strict: bool, env: Env<S>, steps: seq<string>, reports: seq<Report>, j: nat)
    requires ScenarioOk(strict, env, steps, reports) && j < |steps|
    requires |reports[j].body| == 3 && reports[j].body[2].Ran?
    ensures ComesTo(reports[j].body[2].outcome, reports[j].consulted, reports[j].told)
  {
    assert StepAt(strict, env, steps, reports, j);
    var r := reports[j];
    RanLast(SizesOf(env), steps[j], env.ambiguous(steps[j]), ErrBefore(strict, reports[..j]), j == 0, r);
  }

  lemma RanLast(n: Sizes, step: string, ambiguous: bool, scenarioErr: Err, isFirst: bool, r: Report)
    requires OpeningOk(n, step, ambiguous, scenarioErr, isFirst, r) && |r.body| == 3 && r.body[2].Ran?
    ensures var outcome := r.body[2].outcome;
      r.exit == if outcome.Returned? then Finished(outcome.err) else Threw(None, outcome.panic)
  {
    assert r.body[1..][1..] == [r.body[2]];
    assert r.body[1..][0] == r.body[1];
    assert PreflightOk(step, scenarioErr, r.body[1..], r.exit);
  }

  // -------------------------------------------------------------------------- the verdict

  // An error that fails a scenario: not a skip, and undefined or pending only when strict.
  ghost predicate Fails(strict: bool, err: Err) {
    err.Some? && !Is(err, Skip) && (strict || (!Is(err, Undefined) && !Is(err, Pending)))
  }

  lemma VerdictFails(strict: bool, reports: seq<Report>)
    ensures ShouldFail(strict, ErrBefore(strict, reports)) <==>
      exists i :: 0 <= i < |reports| && Fails(strict, reports[i].returned)
  {
    ScenarioFailsIff(strict, reports);
    forall i | 0 <= i < |reports|
      ensures ShouldFail(strict, reports[i].returned) <==> Fails(strict, reports[i].returned)
    {
    }
    if exists i :: 0 <= i < |reports| && ShouldFail(strict, reports[i].returned) {
      var i :| 0 <= i < |reports| && ShouldFail(strict, reports[i].returned);
      assert Fails(strict, reports[i].returned);
    }
    if exists i :: 0 <= i < |reports| && Fails(strict, reports[i].returned) {
      var i :| 0 <= i < |reports| && Fails(strict, reports[i].returned);
      assert ShouldFail(strict, reports[i].returned);
    }
  }

  // ------------------------------------------------------------------------ concrete runs

  // No hooks, and every handler does the same under the same TestingT.
  function PlainEnv(outcome: Outcome, test: Option<TestState>): Env<int> {
    Env([], [], (step: string) => false, (s: int, step: string) => (s, Resolved([])),
        (s: int, step: string) => (s, outcome), [], [], (s: int) => test)
  }

  // The log of its one step: what the handler did, what its TestingT then said, and the result.
  ghost predicate PlainStep(outcome: Outcome, test: Option<TestState>, r: Report) {
    && EventsOf(r) == [Defined("one"), Preflighted("one", Resolved([])), Ran("one", outcome)] + r.consulted + r.closing
    && r.returned == r.told && ComesTo(outcome, r.consulted, r.told)
    && (r.consulted != [] ==> r.consulted[0] == Consulted(test))
    && (!(outcome.Returned? && Is(outcome.err, Undefined)) ==> Shows(r.told, r.closing))
  }

  ghost predicate Shows(err: Err, notes: seq<Event>) {
    exists status :: Answers(err, status) && notes == [Stored("one", status), Shown("one", status)]
  }

  lemma PlainLog(strict: bool, outcome: Outcome, test: Option<TestState>, reports: seq<Report>)
    requires ScenarioOk(strict, PlainEnv(outcome, test), ["one"], reports)
    requires RecordsAll(PlainEnv(outcome, test), 0, AllEvents(reports))
    ensures |reports| == 1 && AllEvents(reports) == EventsOf(reports[0]) && PlainStep(outcome, test, reports[0])
  {
    OneReport(reports);
    assert StepAt(strict, PlainEnv(outcome, test), ["one"], reports, 0);
    assert reports[..0] == [];
    PlainReport(strict, outcome, test, reports[0]);
  }

  lemma PlainReport(strict: bool, outcome: Outcome, test: Option<TestState>, r: Report)
    requires StepOk(strict, SizesOf(PlainEnv(outcome, test)), "one", false, None, true, true, r)
    requires RecordsAll(PlainEnv(outcome, test), 0, EventsOf(r))
    ensures PlainStep(outcome, test, r)
  {
    PlainOpening(outcome, test, r);
    PlainClosing(strict, SizesOf(PlainEnv(outcome, test)), r);
    PlainTold(outcome, r.exit, r.consulted, r.told);
    PlainConsulted(outcome, test, r);
    if !(outcome.Returned? && Is(outcome.err, Undefined)) {
      assert Answers(r.told, ResultOf(r.told));
    }
  }

  lemma PlainTold(outcome: Outcome, exit: Exit, consulted: seq<Event>, told: Err)
    requires ToldOk(ExitErr(exit), consulted, told)
    requires exit == if outcome.Returned? then Finished(outcome.err) else Threw(None, outcome.panic)
    ensures ComesTo(outcome, consulted, told)
    ensures |consulted| <= 1 && (consulted != [] ==> consulted[0].Consulted?)
    ensures Is(ExitErr(exit), Undefined) ==> outcome.Returned? && Is(outcome.err, Undefined)
  {
  }

  lemma PlainClosing(strict: bool, n: Sizes, r: Report)
    requires ClosingOk(strict, n, "one", None, true, r) && n.afterStep == 0 && n.afterScenario == 0
    ensures ClosingOf(r) == r.consulted + r.closing && r.returned == r.told
    ensures r.closing == FinalNotes("one", Is(ExitErr(r.exit), Undefined), r.told)
  {
  }

  lemma PlainOpening(outcome: Outcome, test: Option<TestState>, r: Report)
    requires OpeningOk(SizesOf(PlainEnv(outcome, test)), "one", false, None, true, r)
    requires RecordsAll(PlainEnv(outcome, test), 0, EventsOf(r))
    ensures OpeningOf(r) == r.body == [Defined("one"), Preflighted("one", Resolved([])), Ran("one", outcome)]
    ensures r.exit == if outcome.Returned? then Finished(outcome.err) else Threw(None, outcome.panic)
  {
    NoHooks(SizesOf(PlainEnv(outcome, test)), r);
    PlainBody(outcome, test, r.body, r.exit, r.body + ClosingOf(r));
  }

  lemma NoHooks(n: Sizes, r: Report)
    requires OpeningOk(n, "one", false, None, true, r) && n.beforeScenario == 0 && n.beforeStep == 0
    ensures r.beforeScenario == [] && r.beforeStep == [] && OpeningOf(r) == r.body
    ensures EventsOf(r) == r.body + ClosingOf(r) && BodyOk("one", false, None, None, r.body, r.exit)
  {
  }

  lemma PlainBody(outcome: Outcome, test: Option<TestState>, body: seq<Event>, exit: Exit, events: seq<Event>)
    requires BodyOk("one", false, None, None, body, exit) && body <= events
    requires RecordsAll(PlainEnv(outcome, test), 0, events)
    ensures body == [Defined("one"), Preflighted("one", Resolved([])), Ran("one", outcome)]
    ensures exit == if outcome.Returned? then Finished(outcome.err) else Threw(None, outcome.panic)
  {
    assert PreflightOk("one", None, body[1..], exit);
    var at := RecordsOne(PlainEnv(outcome, test), 0, events, 1);
    assert events[1] == body[1..][0];
    at := RecordsOne(PlainEnv(outcome, test), 0, events, 2);
    assert events[2] == body[1..][1..][0];
  }

  lemma PlainConsulted(outcome: Outcome, test: Option<TestState>, r: Report)
    requires RecordsAll(PlainEnv(outcome, test), 0, EventsOf(r)) && |OpeningOf(r)| == 3
    requires |r.consulted| <= 1 && (r.consulted != [] ==> r.consulted[0].Consulted?)
    ensures r.consulted != [] ==> r.consulted[0] == Consulted(test)
  {
    if r.consulted != [] {
      assert EventsOf(r)[3] == r.consulted[0];
      var at := RecordsOne(PlainEnv(outcome, test), 0, EventsOf(r), 3);
    }
  }

  // One step, run.
  method RunPlain(strict: bool, outcome: Outcome, test: Option<TestState>)
    returns (err: Err, events: seq<Event>, ghost r: Report)
    ensures events == EventsOf(r) && err == r.told && PlainStep(outcome, test, r)
  {
    var env := PlainEnv(outcome, test);
    var suite := new Suite(env, strict, 0);
    ghost var reports;
    err, reports := suite.RunPickle(["one"]);
    events := suite.events;
    assert events == AllEvents(reports);
    PlainLog(strict, outcome, test, reports);
    r := reports[0];
    assert reports[..0] == [];
  }

  // A handler without an error passes its step.
  method RunPassingHandler() returns (err: Err, events: seq<Event>)
    ensures err == None
    ensures events == [Defined("one"), Preflighted("one", Resolved([])), Ran("one", Returned(None)), Consulted(None),
                       Stored("one", Passed), Shown("one", Passed)]
  {
    ghost var r;
    err, events, r := RunPlain(true, Returned(None), None);
    assert r.consulted == [Consulted(None)];
  }

  // One that returns an ordinary error fails it.
  method RunFailingHandler() returns (err: Err, events: seq<Event>)
    ensures err == Some(Opaque)
    ensures events == [Defined("one"), Preflighted("one", Resolved([])), Ran("one", Returned(Some(Opaque))),
                       Stored("one", Failed), Shown("one", Failed)]
  {
    ghost var r;
    err, events, r := RunPlain(true, Returned(Some(Opaque)), None);
  }

  // So does one that panics.
  method RunPanickingHandler() returns (err: Err, events: seq<Event>)
    ensures err == Some(Opaque)
    ensures events == [Defined("one"), Preflighted("one", Resolved([])), Ran("one", Panicked(Panic(None))),
                       Stored("one", Failed), Shown("one", Failed)]
  {
    ghost var r;
    err, events, r := RunPlain(true, Panicked(Panic(None)), None);
  }

  // FailNow stops a handler with a panic of its own; what it recorded fails the step.
  method RunFailNow() returns (err: Err, events: seq<Event>)
    ensures err == Some(Opaque)
    ensures events == [Defined("one"), Preflighted("one", Resolved([])),
                       Ran("one", Panicked(Panic(Some(Sentinel(StopNow))))), Consulted(Some(TestState(false, true))),
                       Stored("one", Failed), Shown("one", Failed)]
  {
    ghost var r;
    err, events, r := RunPlain(true, Panicked(Panic(Some(Sentinel(StopNow)))), Some(TestState(false, true)));
    assert r.consulted == [Consulted(Some(TestState(false, true)))];
  }

  // And SkipNow skips it.
  method RunSkipNow() returns (err: Err, events: seq<Event>)
    ensures err == Some(Sentinel(Skip))
    ensures events == [Defined("one"), Preflighted("one", Resolved([])),
                       Ran("one", Panicked(Panic(Some(Sentinel(StopNow))))), Consulted(Some(TestState(true, false))),
                       Stored("one", Skipped), Shown("one", Skipped)]
  {
    ghost var r;
    err, events, r := RunPlain(true, Panicked(Panic(Some(Sentinel(StopNow)))), Some(TestState(true, false)));
    assert r.consulted == [Consulted(Some(TestState(true, false)))];
  }

  // A pending step fails its scenario when strict, and only then.
  method RunPendingHandler(strict: bool) returns (err: Err, events: seq<Event>)
    ensures err == Some(Sentinel(Pending)) && (ShouldFail(strict, err) <==> strict)
    ensures events == [Defined("one"), Preflighted("one", Resolved([])), Ran("one", Returned(Some(Sentinel(Pending)))),
                       Stored("one", PendingStep), Shown("one", PendingStep)]
  {
    ghost var r;
    err, events, r := RunPlain(strict, Returned(Some(Sentinel(Pending))), None);
  }
}
