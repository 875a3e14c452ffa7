// What a scenario's log says, whatever the user code does: how often each hook ran,
// when handlers ran, what was stored, and when the scenario fails.
module Verdicts {
  import opened Ids
  import opened Errors
  import opened Steps
  import opened Scenarios
  import opened Runner

  // ------------------------------------------------------------------------ counting

  function Count(events: seq<Event>, want: Event -> bool): nat {
    if events == [] then 0
    else Count(events[..|events| - 1], want) + if want(events[|events| - 1]) then 1 else 0
  }

  lemma {:induction false} CountAppend(a: seq<Event>, b: seq<Event>, want: Event -> bool)
    ensures Count(a + b, want) == Count(a, want) + Count(b, want)
  {
    if b == [] {
      assert a + b == a;
    } else {
      CountAppend(a, b[..|b| - 1], want);
      assert (a + b)[..|a + b| - 1] == a + b[..|b| - 1];
    }
  }

  lemma {:induction false} CountNone(events: seq<Event>, want: Event -> bool)
    requires forall i :: 0 <= i < |events| ==> !want(events[i])
    ensures Count(events, want) == 0
  {
    if events != [] { CountNone(events[..|events| - 1], want); }
  }

  lemma {:induction false} CountOnly(events: seq<Event>, want: Event -> bool, k: nat)
    requires forall i {:trigger events[i]} :: 0 <= i < |events| ==> (want(events[i]) <==> i == k)
    ensures Count(events, want) == if k < |events| then 1 else 0
  {
    if events != [] { CountOnly(events[..|events| - 1], want, k); }
  }

  lemma CountReport(r: Report, want: Event -> bool)
    ensures Count(EventsOf(r), want) ==
      Count(r.beforeScenario, want) + Count(r.beforeStep, want) + Count(r.body, want) + Count(r.consulted, want)
      + Count(r.afterStep, want) + Count(r.afterScenario, want) + Count(r.closing, want)
  {
    CountAppend(OpeningOf(r), ClosingOf(r), want);
    CountAppend(r.beforeScenario + r.beforeStep, r.body, want);
    CountAppend(r.beforeScenario, r.beforeStep, want);
    CountAppend(r.consulted + r.afterStep + r.afterScenario, r.closing, want);
    CountAppend(r.consulted + r.afterStep, r.afterScenario, want);
    CountAppend(r.consulted, r.afterStep, want);
  }

  function BeforeScenario(k: nat): Event -> bool {
    (e: Event) => e.BeforeHook? && e.scope == ScenarioScope && e.hook == k
  }

  function AfterScenario(k: nat): Event -> bool {
    (e: Event) => e.AfterScenarioHook? && e.hook == k
  }

  function Handler(): Event -> bool {
    (e: Event) => e.Ran?
  }

  function Storing(): Event -> bool {
    (e: Event) => e.Stored?
  }

  // ------------------------------------------------------------- the phases of a step

  lemma BeforeCallsAre(scope: Scope, n: nat, step: string, calls: seq<Event>)
    requires BeforeCalls(scope, n, step, calls)
    ensures forall i {:trigger calls[i]} :: 0 <= i < |calls| ==> IsCall(scope, step, i, calls[i])
    ensures |calls| <= n && (PanickedIn(calls).None? ==> |calls| == n)
  {
    if PanickedIn(calls).Some? {
      forall i {:trigger calls[i]} | 0 <= i < |calls| ensures IsCall(scope, step, i, calls[i]) {
        if i < |calls| - 1 {
          assert calls[i] == calls[..|calls| - 1][i];
        }
      }
    }
  }

  predicate BodyEvent(e: Event) {
    e.Defined? || e.Preflighted? || e.Ran? || e.Stored? || e.Shown?
  }

  lemma BodyEventsAre(step: string, ambiguous: bool, hookErr: Err, scenarioErr: Err, body: seq<Event>, exit: Exit)
    requires BodyOk(step, ambiguous, hookErr, scenarioErr, body, exit)
    ensures forall i :: 0 <= i < |body| ==> BodyEvent(body[i])
  {
    if hookErr.None? && !ambiguous {
      var rest := body[1..];
      assert PreflightOk(step, scenarioErr, rest, exit);
      if rest[0].found.Resolved? {
        ResolvedEventsAre(step, rest[0].found.missing, scenarioErr, rest[1..], exit);
        assert forall i :: 2 <= i < |body| ==> body[i] == rest[1..][i - 2];
      }
      assert body[1] == rest[0];
    } else {
      assert forall i :: 1 <= i < |body| ==> body[i] == body[1..][i - 1];
    }
  }

  lemma ResolvedEventsAre(step: string, missing: seq<string>, scenarioErr: Err, rest: seq<Event>, exit: Exit)
    requires ResolvedOk(step, missing, scenarioErr, rest, exit)
    ensures forall i :: 0 <= i < |rest| ==> BodyEvent(rest[i])
  {
  }

  // Which events each phase of a step may log.
  ghost predicate PhasesOk(step: string, r: Report) {
    && (forall i {:trigger r.beforeScenario[i]} :: 0 <= i < |r.beforeScenario| ==>
         IsCall(ScenarioScope, step, i, r.beforeScenario[i]))
    && (forall i {:trigger r.beforeStep[i]} :: 0 <= i < |r.beforeStep| ==> IsCall(StepScope, step, i, r.beforeStep[i]))
    && (forall i :: 0 <= i < |r.body| ==> BodyEvent(r.body[i]))
    && (forall i :: 0 <= i < |r.consulted| ==> r.consulted[i].Consulted?)
    && (forall i :: 0 <= i < |r.afterStep| ==> r.afterStep[i].AfterStepHook?)
    && (forall i {:trigger r.afterScenario[i]} :: 0 <= i < |r.afterScenario| ==>
         r.afterScenario[i].AfterScenarioHook? && r.afterScenario[i].hook == i)
    && (forall i :: 0 <= i < |r.closing| ==> r.closing[i].Stored? || r.closing[i].Shown?)
  }

  lemma StepHasPhases(strict: bool, n: Sizes, step: string, ambiguous: bool, scenarioErr: Err, isFirst: bool,
                      isLast: bool, r: Report)
    requires StepOk(strict, n, step, ambiguous, scenarioErr, isFirst, isLast, r)
    ensures PhasesOk(step, r)
  {
    OpeningHasPhases(n, step, ambiguous, scenarioErr, isFirst, r);
    ClosingHasPhases(strict, n, step, scenarioErr, isLast, r);
  }

  lemma OpeningHasPhases(n: Sizes, step: string, ambiguous: bool, scenarioErr: Err, isFirst: bool, r: Report)
    requires OpeningOk(n, step, ambiguous, scenarioErr, isFirst, r)
    ensures forall i {:trigger r.beforeScenario[i]} :: 0 <= i < |r.beforeScenario| ==>
      IsCall(ScenarioScope, step, i, r.beforeScenario[i])
    ensures forall i {:trigger r.beforeStep[i]} :: 0 <= i < |r.beforeStep| ==>
      IsCall(StepScope, step, i, r.beforeStep[i])
    ensures forall i :: 0 <= i < |r.body| ==> BodyEvent(r.body[i])
  {
    if isFirst { BeforeCallsAre(ScenarioScope, n.beforeScenario, step, r.beforeScenario); }
    if PanickedIn(r.beforeScenario).None? {
      BeforeCallsAre(StepScope, n.beforeStep, step, r.beforeStep);
      var hookErr := BeforeResult(None, r.beforeScenario);
      if PanickedIn(r.beforeStep).None? {
        BodyEventsAre(step, ambiguous, BeforeResult(hookErr, r.beforeStep), scenarioErr, r.body, r.exit);
      }
    }
  }

  lemma ClosingHasPhases(strict: bool, n: Sizes, step: string, scenarioErr: Err, isLast: bool, r: Report)
    requires ClosingOk(strict, n, step, scenarioErr, isLast, r)
    ensures forall i :: 0 <= i < |r.consulted| ==> r.consulted[i].Consulted?
    ensures forall i :: 0 <= i < |r.afterStep| ==> r.afterStep[i].AfterStepHook?
    ensures forall i {:trigger r.afterScenario[i]} :: 0 <= i < |r.afterScenario| ==>
      r.afterScenario[i].AfterScenarioHook? && r.afterScenario[i].hook == i
    ensures forall i :: 0 <= i < |r.closing| ==> r.closing[i].Stored? || r.closing[i].Shown?
  {
    AfterStepCallsAre(n.afterStep, step, StatusOf(r.told, scenarioErr), r.told, r.afterStep);
    FinalHooksAre(Triggers(strict, scenarioErr, isLast, r.merged), n.afterScenario, r.merged, r.afterScenario,
                  r.returned);
  }

  lemma AfterStepCallsAre(n: nat, step: string, status: Status, told: Err, calls: seq<Event>)
    requires AfterStepCalls(n, step, status, told, calls)
    ensures forall i :: 0 <= i < |calls| ==> calls[i].AfterStepHook?
  {
  }

  lemma FinalHooksAre(triggers: bool, n: nat, merged: Err, calls: seq<Event>, returned: Err)
    requires FinalHooksOk(triggers, n, merged, calls, returned)
    ensures forall i {:trigger calls[i]} :: 0 <= i < |calls| ==> calls[i].AfterScenarioHook? && calls[i].hook == i
  {
  }

  // -------------------------------------------------------------------- scenario hooks

  lemma HooksInPhases(step: string, r: Report, k: nat)
    requires PhasesOk(step, r)
    ensures Count(EventsOf(r), BeforeScenario(k)) == if k < |r.beforeScenario| then 1 else 0
    ensures Count(EventsOf(r), AfterScenario(k)) == if k < |r.afterScenario| then 1 else 0
  {
    BeforeInPhases(step, r, k);
    AfterInPhases(step, r, k);
  }

  lemma AfterInPhases(step: string, r: Report, k: nat)
    requires PhasesOk(step, r)
    ensures Count(EventsOf(r), AfterScenario(k)) == if k < |r.afterScenario| then 1 else 0
  {
    var want := AfterScenario(k);
    CountReport(r, want);
    CountNone(r.beforeScenario, want);
    CountNone(r.beforeStep, want);
    CountNone(r.body, want);
    CountNone(r.consulted, want);
    CountNone(r.afterStep, want);
    CountOnly(r.afterScenario, want, k);
    CountNone(r.closing, want);
  }

  lemma BeforeInPhases(step: string, r: Report, k: nat)
    requires PhasesOk(step, r)
    ensures Count(EventsOf(r), BeforeScenario(k)) == if k < |r.beforeScenario| then 1 else 0
  {
    var want := BeforeScenario(k);
    CountReport(r, want);
    CountOnly(r.beforeScenario, want, k);
    CountNone(r.beforeStep, want);
    CountNone(r.body, want);
    CountNone(r.consulted, want);
    CountNone(r.afterStep, want);
    CountNone(r.afterScenario, want);
    CountNone(r.closing, want);
  }

  // Handlers run, and results are stored, only in the body and (stored) at the end.
  lemma BodyInPhases(step: string, r: Report)
    requires PhasesOk(step, r)
    ensures Count(EventsOf(r), Handler()) == Count(r.body, Handler())
    ensures Count(EventsOf(r), Storing()) == Count(r.body, Storing()) + Count(r.closing, Storing())
  {
    OutsideBody(step, r, Handler());
    OutsideBody(step, r, Storing());
    CountNone(r.closing, Handler());
  }

  lemma OutsideBody(step: string, r: Report, want: Event -> bool)
    requires PhasesOk(step, r) && forall e: Event :: want(e) ==> e.Ran? || e.Stored?
    ensures Count(EventsOf(r), want) == Count(r.body, want) + Count(r.closing, want)
  {
    CountReport(r, want);
    CountNone(r.beforeScenario, want);
    CountNone(r.beforeStep, want);
    CountNone(r.consulted, want);
    CountNone(r.afterStep, want);
    CountNone(r.afterScenario, want);
  }

  lemma AfterRunsInStep(strict: bool, n: Sizes, step: string, ambiguous: bool, scenarioErr: Err, isFirst: bool,
                        isLast: bool, r: Report, k: nat)
    requires StepOk(strict, n, step, ambiguous, scenarioErr, isFirst, isLast, r) && k < n.afterScenario
    ensures Count(EventsOf(r), AfterScenario(k)) == if Triggers(strict, scenarioErr, isLast, r.merged) then 1 else 0
  {
    StepHasPhases(strict, n, step, ambiguous, scenarioErr, isFirst, isLast, r);
    HooksInPhases(step, r, k);
  }

  lemma BeforeRunsInStep(strict: bool, n: Sizes, step: string, ambiguous: bool, scenarioErr: Err, isFirst: bool,
                         isLast: bool, r: Report, k: nat)
    requires StepOk(strict, n, step, ambiguous, scenarioErr, isFirst, isLast, r)
    ensures Count(EventsOf(r), BeforeScenario(k)) == if k < |r.beforeScenario| then 1 else 0
    ensures !isFirst ==> r.beforeScenario == []
  {
    StepHasPhases(strict, n, step, ambiguous, scenarioErr, isFirst, isLast, r);
    HooksInPhases(step, r, k);
  }

  // The scenario had not failed, the step failed it, and the after-scenario hooks that
  // this triggered turned the failure into something forgiven.
  ghost predicate ForgivenAt(strict: bool, reports: seq<Report>, i: nat)
    requires i < |reports|
  {
    !ShouldFail(strict, ErrBefore(strict, reports[..i]))
    && ShouldFail(strict, reports[i].merged) && !ShouldFail(strict, reports[i].returned)
  }

  ghost function Forgivings(strict: bool, reports: seq<Report>, m: nat): nat
    requires m <= |reports|
  {
    if m == 0 then 0 else Forgivings(strict, reports, m - 1) + if ForgivenAt(strict, reports, m - 1) then 1 else 0
  }

  lemma PrefixStep(strict: bool, reports: seq<Report>, m: nat)
    requires m < |reports|
    ensures AllEvents(reports[..m + 1]) == AllEvents(reports[..m]) + EventsOf(reports[m])
    ensures ErrBefore(strict, reports[..m + 1]) ==
      var before := ErrBefore(strict, reports[..m]);
      if before.None? || ShouldFail(strict, reports[m].returned) then reports[m].returned else before
  {
    assert reports[..m + 1][..m] == reports[..m];
  }

  // Before the last step, every run of the hooks either failed the scenario or was forgiven.
  lemma {:induction false} AfterRunsBeforeLast<S>(strict: bool, env: Env<S>, steps: seq<string>, reports: seq<Report>,
                                                  k: nat, m: nat)
    requires ScenarioOk(strict, env, steps, reports) && k < |env.afterScenario| && m < |steps|
    ensures Count(AllEvents(reports[..m]), AfterScenario(k)) ==
      Forgivings(strict, reports, m) + if ShouldFail(strict, ErrBefore(strict, reports[..m])) then 1 else 0
  {
    if m > 0 {
      var i := m - 1;
      AfterRunsBeforeLast(strict, env, steps, reports, k, i);
      PrefixStep(strict, reports, i);
      CountAppend(AllEvents(reports[..i]), EventsOf(reports[i]), AfterScenario(k));
      assert StepAt(strict, env, steps, reports, i);
      AfterRunsInStep(strict, SizesOf(env), steps[i], env.ambiguous(steps[i]), ErrBefore(strict, reports[..i]), i == 0,
                      false, reports[i], k);
    }
  }

  // Every after-scenario hook runs once, and once more for every failure before the last
  // step that the hooks themselves forgave.
  lemma AfterScenarioHooksRun<S>(strict: bool, env: Env<S>, steps: seq<string>, reports: seq<Report>, k: nat)
    requires ScenarioOk(strict, env, steps, reports) && steps != [] && k < |env.afterScenario|
    ensures Count(AllEvents(reports), AfterScenario(k)) == 1 + Forgivings(strict, reports, |steps| - 1)
  {
    var last := |steps| - 1;
    AfterRunsBeforeLast(strict, env, steps, reports, k, last);
    PrefixStep(strict, reports, last);
    assert reports[..last + 1] == reports;
    CountAppend(AllEvents(reports[..last]), EventsOf(reports[last]), AfterScenario(k));
    assert StepAt(strict, env, steps, reports, last);
    AfterRunsInStep(strict, SizesOf(env), steps[last], env.ambiguous(steps[last]), ErrBefore(strict, reports[..last]),
                    last == 0, true, reports[last], k);
  }

  // A hook's error that would not fail the scenario by itself, given for a failing step.
  ghost predicate HookForgives(strict: bool, reports: seq<Report>, i: nat)
    requires i < |reports|
  {
    && !ShouldFail(strict, ErrBefore(strict, reports[..i])) && ShouldFail(strict, reports[i].merged)
    && exists j :: 0 <= j < |reports[i].afterScenario| && Forgiven(strict, Added(reports[i].afterScenario[j]))
  }

  lemma ForgivenByHook<S>(strict: bool, env: Env<S>, steps: seq<string>, reports: seq<Report>, i: nat)
    requires ScenarioOk(strict, env, steps, reports) && i < |steps|
    ensures ForgivenAt(strict, reports, i) <==> HookForgives(strict, reports, i)
  {
    assert StepAt(strict, env, steps, reports, i);
    if ShouldFail(strict, reports[i].merged) {
      AfterScenarioForgives(strict, reports[i].merged, reports[i].afterScenario);
    }
  }

  lemma {:induction false} NoForgivings(strict: bool, reports: seq<Report>, m: nat)
    requires m <= |reports|
    ensures Forgivings(strict, reports, m) == 0 <==> forall i: nat :: i < m ==> !ForgivenAt(strict, reports, i)
  {
    if m > 0 { NoForgivings(strict, reports, m - 1); }
  }

  // Exactly once, precisely when no after-scenario hook answers a failure before the last
  // step with an error that is itself forgiven (ErrSkip, or undefined and pending steps
  // when not strict).
  lemma AfterScenarioHooksRunOnceIff<S>(strict: bool, env: Env<S>, steps: seq<string>, reports: seq<Report>, k: nat)
    requires ScenarioOk(strict, env, steps, reports) && steps != [] && k < |env.afterScenario|
    ensures Count(AllEvents(reports), AfterScenario(k)) == 1 <==>
      forall i: nat :: i < |steps| - 1 ==> !HookForgives(strict, reports, i)
  {
    AfterScenarioHooksRun(strict, env, steps, reports, k);
    NoForgivings(strict, reports, |steps| - 1);
    forall i: nat | i < |steps| - 1 ensures ForgivenAt(strict, reports, i) <==> HookForgives(strict, reports, i) {
      ForgivenByHook(strict, env, steps, reports, i);
    }
  }

  lemma {:induction false} BeforeRunsAfterFirst<S>(strict: bool, env: Env<S>, steps: seq<string>, reports: seq<Report>,
                                                   k: nat, m: nat)
    requires ScenarioOk(strict, env, steps, reports) && 1 <= m <= |steps|
    ensures Count(AllEvents(reports[..m]), BeforeScenario(k)) == if k < |reports[0].beforeScenario| then 1 else 0
    ensures reports[0].beforeScenario <= AllEvents(reports[..m])
  {
    var i := m - 1;
    PrefixStep(strict, reports, i);
    CountAppend(AllEvents(reports[..i]), EventsOf(reports[i]), BeforeScenario(k));
    assert StepAt(strict, env, steps, reports, i);
    BeforeRunsInStep(strict, SizesOf(env), steps[i], env.ambiguous(steps[i]), ErrBefore(strict, reports[..i]), i == 0,
                     i == |steps| - 1, reports[i], k);
    if i > 0 {
      BeforeRunsAfterFirst(strict, env, steps, reports, k, i);
    } else {
      assert AllEvents(reports[..0]) == [];
    }
  }

  // Before-scenario hooks come first, in order, and each runs once; a panic among them,
  // and nothing else, keeps those after it from running.
  lemma BeforeScenarioHooksRunOnce<S>(strict: bool, env: Env<S>, steps: seq<string>, reports: seq<Report>, k: nat)
    requires ScenarioOk(strict, env, steps, reports) && steps != [] && k < |env.beforeScenario|
    ensures BeforeCalls(ScenarioScope, |env.beforeScenario|, steps[0], reports[0].beforeScenario)
    ensures reports[0].beforeScenario <= AllEvents(reports)
    ensures Count(AllEvents(reports), BeforeScenario(k)) == if k < |reports[0].beforeScenario| then 1 else 0
    ensures k >= |reports[0].beforeScenario| ==> PanickedIn(reports[0].beforeScenario).Some?
  {
    BeforeRunsAfterFirst(strict, env, steps, reports, k, |steps|);
    assert reports[..|steps|] == reports;
    assert StepAt(strict, env, steps, reports, 0);
    BeforeCallsAre(ScenarioScope, |env.beforeScenario|, steps[0], reports[0].beforeScenario);
  }

  // ------------------------------------------------------------------------- verdicts

  // The scenario fails exactly when some step's returned error fails it.
  lemma {:induction false} ScenarioFailsIff(strict: bool, reports: seq<Report>)
    ensures ShouldFail(strict, ErrBefore(strict, reports)) <==>
      exists i :: 0 <= i < |reports| && ShouldFail(strict, reports[i].returned)
  {
    if reports != [] {
      var init := reports[..|reports| - 1];
      ScenarioFailsIff(strict, init);
      assert forall i :: 0 <= i < |init| ==> init[i] == reports[i];
      if ShouldFail(strict, ErrBefore(strict, init)) {
        var i :| 0 <= i < |init| && ShouldFail(strict, init[i].returned);
        assert ShouldFail(strict, reports[i].returned);
      }
      assert ShouldFail(strict, reports[|reports| - 1].returned) ==>
        exists i :: 0 <= i < |reports| && ShouldFail(strict, reports[i].returned);
    }
  }

  lemma {:induction false} CleanIff(strict: bool, reports: seq<Report>)
    ensures ErrBefore(strict, reports).None? <==> forall i :: 0 <= i < |reports| ==> reports[i].returned.None?
  {
    if reports != [] {
      var init := reports[..|reports| - 1];
      CleanIff(strict, init);
      assert forall i :: 0 <= i < |init| ==> init[i] == reports[i];
    }
  }

  // The before hooks went through, the step matched one definition and so did all
  // of its nested steps.
  ghost predicate Reached(ambiguous: bool, r: Report) {
    && PanickedIn(r.beforeScenario).None? && PanickedIn(r.beforeStep).None?
    && !AnyAdded(r.beforeScenario) && !AnyAdded(r.beforeStep) && !ambiguous
    && |r.body| >= 2 && r.body[1].Preflighted? && r.body[1].found == Resolved([])
  }

  lemma HandlerInStep(strict: bool, n: Sizes, step: string, ambiguous: bool, scenarioErr: Err, isFirst: bool,
                      isLast: bool, r: Report)
    requires StepOk(strict, n, step, ambiguous, scenarioErr, isFirst, isLast, r)
    ensures Count(EventsOf(r), Handler()) == if scenarioErr.None? && Reached(ambiguous, r) then 1 else 0
  {
    StepHasPhases(strict, n, step, ambiguous, scenarioErr, isFirst, isLast, r);
    BodyInPhases(step, r);
    HandlerInBody(n, step, ambiguous, scenarioErr, isFirst, r);
  }

  lemma HandlerInBody(n: Sizes, step: string, ambiguous: bool, scenarioErr: Err, isFirst: bool, r: Report)
    requires OpeningOk(n, step, ambiguous, scenarioErr, isFirst, r)
    ensures Count(r.body, Handler()) == if scenarioErr.None? && Reached(ambiguous, r) then 1 else 0
  {
    var want := Handler();
    if PanickedIn(r.beforeScenario).None? && PanickedIn(r.beforeStep).None? {
      GatheredSome(None, r.beforeScenario);
      var hookErr := BeforeResult(None, r.beforeScenario);
      GatheredSome(hookErr, r.beforeStep);
      var err := BeforeResult(hookErr, r.beforeStep);
      if err.None? && !ambiguous && r.body[1].found == Resolved([]) && scenarioErr.None? {
        assert r.body[1..][1..] == r.body[2..];
        assert |r.body| == 3 && r.body[2].Ran?;
        CountOnly(r.body, want, 2);
      } else {
        NoHandlerInBody(step, ambiguous, err, scenarioErr, r.body, r.exit);
      }
    }
  }

  lemma NoHandlerInBody(step: string, ambiguous: bool, hookErr: Err, scenarioErr: Err, body: seq<Event>, exit: Exit)
    requires BodyOk(step, ambiguous, hookErr, scenarioErr, body, exit)
    requires hookErr.Some? || ambiguous || scenarioErr.Some? || body[1].found != Resolved([])
    ensures Count(body, Handler()) == 0
  {
    forall i | 0 <= i < |body| ensures !body[i].Ran? {
      if i >= 1 { assert body[i] == body[1..][i - 1]; }
      if i >= 2 { assert body[i] == body[1..][1..][i - 2]; }
    }
    CountNone(body, Handler());
  }

  // A step's handler runs, and then once, exactly when the step is reached and every
  // earlier step returned no error at all, forgiven or not.
  lemma HandlerRunsIff<S>(strict: bool, env: Env<S>, steps: seq<string>, reports: seq<Report>, j: nat)
    requires ScenarioOk(strict, env, steps, reports) && j < |steps|
    ensures Count(EventsOf(reports[j]), Handler()) ==
      if (forall i :: 0 <= i < j ==> reports[i].returned.None?) && Reached(env.ambiguous(steps[j]), reports[j])
      then 1 else 0
  {
    assert StepAt(strict, env, steps, reports, j);
    CleanIff(strict, reports[..j]);
    assert forall i :: 0 <= i < j ==> reports[..j][i] == reports[i];
    HandlerInStep(strict, SizesOf(env), steps[j], env.ambiguous(steps[j]), ErrBefore(strict, reports[..j]), j == 0,
                  j == |steps| - 1, reports[j]);
  }

  // -------------------------------------------------------------------- stored results

  predicate StoresInBody(exit: Exit) {
    exit.HookFailed? || exit.Missing? || exit.SkippedOver?
  }

  lemma StoredInBody(n: Sizes, step: string, ambiguous: bool, scenarioErr: Err, isFirst: bool, r: Report)
    requires OpeningOk(n, step, ambiguous, scenarioErr, isFirst, r)
    ensures Count(r.body, Storing()) == if StoresInBody(r.exit) then 1 else 0
  {
    var want := Storing();
    if PanickedIn(r.beforeScenario).None? && PanickedIn(r.beforeStep).None? {
      var hookErr := BeforeResult(None, r.beforeScenario);
      StoredByBody(step, ambiguous, BeforeResult(hookErr, r.beforeStep), scenarioErr, r.body, r.exit);
    }
  }

  lemma StoredByBody(step: string, ambiguous: bool, hookErr: Err, scenarioErr: Err, body: seq<Event>, exit: Exit)
    requires BodyOk(step, ambiguous, hookErr, scenarioErr, body, exit)
    ensures Count(body, Storing()) == if StoresInBody(exit) then 1 else 0
  {
    if hookErr.Some? {
      assert body == [body[0]] + body[1..];
      CountOnly(body, Storing(), 1);
    } else if ambiguous {
      assert body == [body[0]] + body[1..];
      CountNone(body, Storing());
    } else {
      var tail := body[1..][1..];
      assert body == [body[0], body[1]] + tail;
      CountOnly(body, Storing(), if StoresInBody(exit) then 2 else |body|);
    }
  }

  // ------------------------------------------------ stored results, by what the user code did

  ghost predicate HookPanicked(r: Report) {
    PanickedIn(r.beforeScenario).Some? || PanickedIn(r.beforeStep).Some?
  }

  ghost predicate HookErred(r: Report) {
    SomeAdded(r.beforeScenario) || SomeAdded(r.beforeStep)
  }

  ghost predicate HookSaid(r: Report, kind: Kind) {
    SomeHas(r.beforeScenario, kind) || SomeHas(r.beforeStep, kind)
  }

  ghost predicate HandlerSaid(r: Report, kind: Kind) {
    |r.body| == 3 && r.body[2].Ran? && r.body[2].outcome.Returned? && Is(r.body[2].outcome.err, kind)
  }

  // Two results: a before-hook failed with anything but ErrUndefined, and nothing before it.
  ghost predicate TwoResults(clean: bool, r: Report) {
    clean && !HookPanicked(r) && HookErred(r) && !HookSaid(r, Undefined)
  }

  // No result: after an earlier error, a step with a panicking hook, more than one match
  // or nested steps that cannot be looked up; without one, ErrUndefined from the look-up
  // or from the handler.
  ghost predicate NoResult(clean: bool, ambiguous: bool, r: Report) {
    if HookPanicked(r) then !clean
    else if HookErred(r) then false
    else if ambiguous then !clean
    else
      && |r.body| >= 2 && r.body[1].Preflighted?
      && match r.body[1].found
         case Refused(e) => !clean || Has(e, Undefined)
         case Broken(_) => !clean
         case Resolved(missing) => clean && missing == [] && HandlerSaid(r, Undefined)
  }

  // The error in which a step's before-hooks end, by what each of them returned.
  lemma BeforeHookErr(r: Report) returns (err: Err)
    ensures err == BeforeResult(BeforeResult(None, r.beforeScenario), r.beforeStep)
    ensures err.Some? <==> HookErred(r)
    ensures Is(err, Undefined) <==> HookSaid(r, Undefined)
  {
    var first := BeforeResult(None, r.beforeScenario);
    err := BeforeResult(first, r.beforeStep);
    AnyAddedIs(r.beforeScenario);
    AnyAddedIs(r.beforeStep);
    GatheredSome(first, r.beforeStep);
    GatheredHas(None, r.beforeScenario, Undefined);
    GatheredHas(first, r.beforeStep, Undefined);
  }

  function StoredBy(scenarioErr: Err, exit: Exit): nat {
    (if StoresInBody(exit) then 1 else 0) + if EarlyReturn(scenarioErr, exit) then 0 else 1
  }

  lemma StoredByStep(n: Sizes, step: string, ambiguous: bool, scenarioErr: Err, isFirst: bool, r: Report)
    requires OpeningOk(n, step, ambiguous, scenarioErr, isFirst, r)
    ensures StoredBy(scenarioErr, r.exit) ==
      if TwoResults(scenarioErr.None?, r) then 2 else if NoResult(scenarioErr.None?, ambiguous, r) then 0 else 1
  {
    var err := BeforeHookErr(r);
    if !HookPanicked(r) && err.None? && !ambiguous {
      StoredByPreflight(step, scenarioErr, r.body, r.exit);
    }
  }

  lemma StoredByPreflight(step: string, scenarioErr: Err, body: seq<Event>, exit: Exit)
    requires BodyOk(step, false, None, scenarioErr, body, exit)
    ensures |body| >= 2 && body[1].Preflighted?
    ensures StoredBy(scenarioErr, exit) ==
      match body[1].found
      case Refused(e) => if scenarioErr.Some? || Has(e, Undefined) then 0 else 1
      case Broken(_) => if scenarioErr.Some? then 0 else 1
      case Resolved(missing) =>
        if scenarioErr.None? && missing == [] && body[2].Ran? && body[2].outcome.Returned?
        && Is(body[2].outcome.err, Undefined) then 0 else 1
  {
    assert body[1] == body[1..][0];
    assert PreflightOk(step, scenarioErr, body[1..], exit);
    assert body[2..] == body[1..][1..];
  }

  lemma StoredInStep(strict: bool, n: Sizes, step: string, ambiguous: bool, scenarioErr: Err, isFirst: bool,
                     isLast: bool, r: Report)
    requires StepOk(strict, n, step, ambiguous, scenarioErr, isFirst, isLast, r)
    ensures Count(EventsOf(r), Storing()) == StoredBy(scenarioErr, r.exit)
  {
    StepHasPhases(strict, n, step, ambiguous, scenarioErr, isFirst, isLast, r);
    BodyInPhases(step, r);
    StoredInBody(n, step, ambiguous, scenarioErr, isFirst, r);
    CountOnly(r.closing, Storing(), 0);
  }

  // How many results a step stores, by what its hooks, its look-up and its handler did
  // and whether an earlier step returned an error.
  lemma ResultsStored<S>(strict: bool, env: Env<S>, steps: seq<string>, reports: seq<Report>, j: nat)
    requires ScenarioOk(strict, env, steps, reports) && j < |steps|
    ensures var clean := forall i :: 0 <= i < j ==> reports[i].returned.None?;
      Count(EventsOf(reports[j]), Storing()) ==
        if TwoResults(clean, reports[j]) then 2
        else if NoResult(clean, env.ambiguous(steps[j]), reports[j]) then 0 else 1
  {
    assert StepAt(strict, env, steps, reports, j);
    var scenarioErr, r, ambiguous := ErrBefore(strict, reports[..j]), reports[j], env.ambiguous(steps[j]);
    StoredInStep(strict, SizesOf(env), steps[j], ambiguous, scenarioErr, j == 0, j == |steps| - 1, r);
    StoredByStep(SizesOf(env), steps[j], ambiguous, scenarioErr, j == 0, r);
    CleanIff(strict, reports[..j]);
    assert forall i :: 0 <= i < j ==> reports[..j][i] == reports[i];
  }

  // ---------------------------------------------------------------- failing families

  // Every handler returns the same; the only hooks are after-scenario hooks.
  function HandlerEnv(err: Err, hooks: seq<(int, Err) -> (int, Err)>): Env<int> {
    Env([], [], (step: string) => false,
        (s: int, step: string) => (s, Resolved([])),
        (s: int, step: string) => (s, Returned(err)),
        [], hooks, (s: int) => None)
  }

  // Every handler fails; the one after-scenario hook answers with ErrSkip.
  function SkippingEnv(): Env<int> {
    HandlerEnv(Some(Opaque), [(s: int, err: Err) => (s, Some(Sentinel(Skip)))])
  }

  // One before-step hook, which always fails.
  function FailingHookEnv(): Env<int> {
    HandlerEnv(None, []).(beforeStep := [(s: int, step: string) => (s, Returned(Some(Opaque)))])
  }

  lemma {:induction false} RecordsPrefix<S>(env: Env<S>, s: S, a: seq<Event>, b: seq<Event>)
    requires RecordsAll(env, s, a + b)
    ensures RecordsAll(env, s, a)
  {
    if b == [] {
      assert a + b == a;
    } else {
      assert (a + b)[..|a + b| - 1] == a + b[..|b| - 1];
      RecordsPrefix(env, s, a, b[..|b| - 1]);
    }
  }

  lemma RecordsOne<S>(env: Env<S>, s: S, events: seq<Event>, i: nat) returns (at: S)
    requires RecordsAll(env, s, events) && i < |events|
    ensures Records(env, at, events[i])
  {
    assert events == events[..i + 1] + events[i + 1..];
    RecordsPrefix(env, s, events[..i + 1], events[i + 1..]);
    assert events[..i + 1][..i] == events[..i];
    at := PlayAll(env, s, events[..i]);
  }

  lemma TwoReports(reports: seq<Report>)
    requires |reports| == 2
    ensures AllEvents(reports) == EventsOf(reports[0]) + EventsOf(reports[1])
  {
    assert reports[..1][..0] == [] && reports[..1] == [reports[0]];
    assert AllEvents(reports[..1]) == [] + EventsOf(reports[0]);
  }

  lemma FirstRecords(reports: seq<Report>)
    requires |reports| == 2 && RecordsAll(SkippingEnv(), 0, AllEvents(reports))
    ensures RecordsAll(SkippingEnv(), 0, EventsOf(reports[0]))
  {
    TwoReports(reports);
    RecordsPrefix(SkippingEnv(), 0, EventsOf(reports[0]), EventsOf(reports[1]));
  }

  // Two steps: the failure of the first is skipped over, so the hook runs again at the last
  // step.
  lemma ForgivingHookRunsTwice(reports: seq<Report>)
    requires ScenarioOk(true, SkippingEnv(), ["one", "two"], reports)
    requires RecordsAll(SkippingEnv(), 0, AllEvents(reports))
    ensures Count(AllEvents(reports), AfterScenario(0)) == 2
  {
    var env := SkippingEnv();
    AfterScenarioHooksRun(true, env, ["one", "two"], reports, 0);
    assert StepAt(true, env, ["one", "two"], reports, 0);
    assert reports[..0] == [];
    FirstRecords(reports);
    FailureIsSkipped(reports[0]);
    assert Forgivings(true, reports, 1) == Forgivings(true, reports, 0) + 1;
  }

  lemma HandlerReturns(err: Err, hooks: seq<(int, Err) -> (int, Err)>, r: Report)
    requires OpeningOk(SizesOf(HandlerEnv(err, hooks)), "one", false, None, true, r)
    requires RecordsAll(HandlerEnv(err, hooks), 0, EventsOf(r))
    ensures r.beforeScenario == [] && r.beforeStep == [] && r.exit == Finished(err)
    ensures |r.body| == 3 && r.body[1] == Preflighted("one", Resolved([])) && r.body[2] == Ran("one", Returned(err))
  {
    var env, events := HandlerEnv(err, hooks), EventsOf(r);
    assert r.beforeScenario == [] && r.beforeStep == [];
    assert events == r.body + ClosingOf(r);
    assert PreflightOk("one", None, r.body[1..], r.exit);
    var at := RecordsOne(env, 0, events, 1);
    assert events[1] == r.body[1..][0];
    assert r.body[1..][0].found == Resolved([]);
    at := RecordsOne(env, 0, events, 2);
    assert events[2] == r.body[1..][1..][0];
  }

  lemma FailureIsSkipped(r: Report)
    requires StepOk(true, SizesOf(SkippingEnv()), "one", false, None, true, false, r)
    requires RecordsAll(SkippingEnv(), 0, EventsOf(r))
    ensures ShouldFail(true, r.merged) && !ShouldFail(true, r.returned)
  {
    HandlerReturns(Some(Opaque), SkippingEnv().afterScenario, r);
    assert r.merged == Some(Opaque);
    assert EventsOf(r) == r.body + (r.afterScenario + r.closing);
    assert EventsOf(r)[|r.body|] == r.afterScenario[0];
    var at := RecordsOne(SkippingEnv(), 0, EventsOf(r), |r.body|);
    assert Added(r.afterScenario[0]) == Some(Sentinel(Skip));
    AfterScenarioForgives(true, r.merged, r.afterScenario);
  }

  // The same, run.
  method RunForgivingHook() returns (err: Err, events: seq<Event>)
    ensures Count(events, AfterScenario(0)) == 2
  {
    var env := SkippingEnv();
    var suite := new Suite(env, true, 0);
    ghost var reports;
    err, reports := suite.RunPickle(["one", "two"]);
    events := suite.events;
    assert events == AllEvents(reports);
    ForgivingHookRunsTwice(reports);
  }

  // A failing before-step hook stores a result for its step, and the deferred function another.
  method RunFailingHook() returns (err: Err, events: seq<Event>)
    ensures Count(events, Storing()) == 2
  {
    var env := FailingHookEnv();
    var suite := new Suite(env, true, 0);
    ghost var reports;
    err, reports := suite.RunPickle(["one"]);
    events := suite.events;
    OneReport(reports);
    assert StepAt(true, env, ["one"], reports, 0);
    assert reports[..0] == [];
    HookFails(reports[0]);
    ResultsStored(true, env, ["one"], reports, 0);
  }

  // A handler that returns ErrUndefined leaves its step without a result.
  method RunUndefinedHandler() returns (err: Err, events: seq<Event>)
    ensures Count(events, Storing()) == 0
  {
    var env := HandlerEnv(Some(Sentinel(Undefined)), []);
    var suite := new Suite(env, true, 0);
    ghost var reports;
    err, reports := suite.RunPickle(["one"]);
    events := suite.events;
    OneReport(reports);
    assert StepAt(true, env, ["one"], reports, 0);
    assert reports[..0] == [];
    HandlerReturns(Some(Sentinel(Undefined)), [], reports[0]);
    ResultsStored(true, env, ["one"], reports, 0);
  }

  lemma OneReport(reports: seq<Report>)
    requires |reports| == 1
    ensures AllEvents(reports) == EventsOf(reports[0])
  {
    assert reports[..0] == [];
  }

  lemma HookFails(r: Report)
    requires OpeningOk(SizesOf(FailingHookEnv()), "one", false, None, true, r)
    requires RecordsAll(FailingHookEnv(), 0, EventsOf(r))
    ensures TwoResults(true, r)
  {
    assert r.beforeScenario == [];
    assert r.beforeStep != [] && EventsOf(r)[0] == r.beforeStep[0];
    var at := RecordsOne(FailingHookEnv(), 0, EventsOf(r), 0);
    assert IsCall(StepScope, "one", 0, r.beforeStep[0]);
    assert Added(r.beforeStep[0]) == Some(Opaque);
  }

  // ----------------------------------------------------- hooks that never forgive

  // No after-scenario hook ever returns an error that would pass by itself.
  ghost predicate NeverForgives<S(!new)>(strict: bool, env: Env<S>) {
    forall k, s, err {:trigger env.afterScenario[k](s, err)} ::
      0 <= k < |env.afterScenario| ==> !Forgiven(strict, env.afterScenario[k](s, err).1)
  }

  lemma {:induction false} InAllEvents(reports: seq<Report>, i: nat, e: Event)
    requires i < |reports| && e in EventsOf(reports[i])
    ensures e in AllEvents(reports)
  {
    var n := |reports| - 1;
    if i < n { InAllEvents(reports[..n], i, e); }
  }

  lemma HookNeverForgives<S(!new)>(strict: bool, env: Env<S>, s: S, steps: seq<string>, reports: seq<Report>, i: nat)
    requires ScenarioOk(strict, env, steps, reports) && RecordsAll(env, s, AllEvents(reports))
    requires NeverForgives(strict, env)
    requires i < |steps|
    ensures !HookForgives(strict, reports, i)
  {
    assert StepAt(strict, env, steps, reports, i);
    forall j | 0 <= j < |reports[i].afterScenario| ensures !Forgiven(strict, Added(reports[i].afterScenario[j])) {
      var e := reports[i].afterScenario[j];
      assert e in ClosingOf(reports[i]);
      InAllEvents(reports, i, e);
      var n :| 0 <= n < |AllEvents(reports)| && AllEvents(reports)[n] == e;
      var at := RecordsOne(env, s, AllEvents(reports), n);
      assert e.AfterScenarioHook?;
    }
  }

  // Then each after-scenario hook runs exactly once, whatever else happens.
  lemma UnforgivingHooksRunOnce<S(!new)>(strict: bool, env: Env<S>, s: S, steps: seq<string>, reports: seq<Report>,
                                         k: nat)
    requires ScenarioOk(strict, env, steps, reports) && RecordsAll(env, s, AllEvents(reports))
    requires NeverForgives(strict, env)
    requires steps != [] && k < |env.afterScenario|
    ensures Count(AllEvents(reports), AfterScenario(k)) == 1
  {
    forall i: nat | i < |steps| - 1 ensures !HookForgives(strict, reports, i) {
      HookNeverForgives(strict, env, s, steps, reports, i);
    }
    AfterScenarioHooksRunOnceIff(strict, env, steps, reports, k);
  }
}
