// The end of Execute (workflow/executor.go) and of Resume (workflow/resume.go): the
// integration of the results and the closing of the run record, as durable steps.
module Finishing {
  import opened Ids
  import opened Git
  import opened Scheduler
  import opened Worker
  import opened Integrator
  import opened Durable
  import opened Crashes
  import opened Launched

  method AllSuccessful(results: seq<TaskResult>) returns (all: bool)
    ensures all <==> forall i :: 0 <= i < |results| ==> results[i].status == Success
  {
    for i := 0 to |results|
      invariant forall j :: 0 <= j < i ==> results[j].status == Success
    {
      if results[i].status != Success {
        return false;
      }
    }
    return true;
  }

  lemma SuccessInOrder(j: Journal)
    ensures AllSucceeded(j) <==> forall i :: 0 <= i < |j.tasks| ==> InOrder(j.tasks)[i].status == Success
  {
    var ids := Ascending(j.tasks.Keys);
    forall id | id in j.tasks ensures exists i :: 0 <= i < |ids| && ids[i] == id {
      assert id in ids;
    }
    forall i | 0 <= i < |ids| ensures ids[i] in j.tasks && InOrder(j.tasks)[i] == j.tasks[ids[i]] {
      assert ids[i] in ids;
    }
  }

  // A process whose main loop is over.
  ghost predicate AtEnd(plan: Plan, w: World) {
    && WorldOk(plan, w) && w.memory.Some? && MayClose(plan, w.memory.value) && InLastRun(w.memory.value.result.runs)
  }

  ghost predicate MayClose(plan: Plan, m: Memory) {
    m.landing.None? && Ended(m.sched.states) == plan.needs.Keys
  }

  // And every result so far is persisted.
  ghost predicate LoopOver(plan: Plan, w: World, way: Way) {
    WorldOk(plan, w) && w.memory.Some? && !w.memory.value.broken && MayIntegrate(plan, w.memory.value, way)
  }

  // What the closing steps find in memory.
  ghost predicate Finds(m: Memory, results: seq<TaskResult>, runs: nat, was: Integration, priorCompleted: bool) {
    && results == InOrder(m.result.tasks) && runs == |m.result.runs|
    && was == m.result.integration && priorCompleted == PriorCompleted(m.result.runs)
  }

  function IntegrationStep(runs: nat, recorded: Recorded, way: Way): Durable.Step {
    if runs == 1 then IntegrateFirst(way) else IntegrateAgain(recorded, way)
  }

  lemma Integrating(plan: Plan, w: World, runs: nat, recorded: Recorded, way: Way) returns (w': World)
    requires LoopOver(plan, w, way) && runs == |w.memory.value.result.runs|
    ensures var step := IntegrationStep(runs, recorded, way);
      && Durable.Enabled(plan, w, step) && w' == Durable.After(plan, w, step)
      && Durable.Next(plan, w, w') && WorldOk(plan, w')
      && w'.disk == w.disk && w'.memory == Some(Settle(w.memory.value, IntegrationOutcome(plan, w.memory.value, step)))
  {
    var step := IntegrationStep(runs, recorded, way);
    assert Durable.Enabled(plan, w, step);
    IntegrateKeeps(plan, w, step);
    w' := Durable.After(plan, w, step);
  }

  lemma Saving(plan: Plan, w: World, wrote: bool) returns (w': World)
    requires WorldOk(plan, w) && w.memory.Some? && w.memory.value.landing.None? && !w.memory.value.broken
    ensures Durable.Next(plan, w, w') && WorldOk(plan, w') && w'.memory.Some?
    ensures var m, m' := w.memory.value, w'.memory.value;
      && m'.broken == !wrote && m'.sched.states == m.sched.states && m'.landing == m.landing
      && m'.result == m.result && m'.integrated == m.integrated
  {
    SaveKeeps(plan, w, wrote);
    w' := Durable.After(plan, w, Save(wrote));
    assert Durable.Enabled(plan, w, Save(wrote));
  }

  // The record is closed with this status, in memory and, if it is written, on disk.
  ghost predicate Closed(w: World, status: RunStatus, after: Integration, wrote: bool) {
    && w.memory.Some? && w.memory.value.result.integration == after
    && LastStatus(w.memory.value.result) == Some(status)
    && (wrote ==> w.disk.journal == w.memory.value.result)
  }

  function LastStatus(j: Journal): Option<RunStatus> {
    if j.runs == [] then None else Some(j.runs[|j.runs| - 1].status)
  }

  lemma Closing(plan: Plan, w: World, status: RunStatus, at: string, wrote: bool) returns (w': World)
    requires WorldOk(plan, w) && w.memory.Some? && Durable.Enabled(plan, w, Finish(status, at, wrote))
    ensures Durable.Next(plan, w, w') && WorldOk(plan, w') && Closed(w', status, w.memory.value.result.integration,
                                                                     wrote)
    ensures w'.memory.value.result.tasks == w.memory.value.result.tasks && MayClose(plan, w'.memory.value)
    ensures !wrote ==> w'.disk == w.disk
  {
    FinishKeeps(plan, w, status, at, wrote);
    w' := Durable.After(plan, w, Finish(status, at, wrote));
  }

  // The integration contains the baseline and every task's commit.
  ghost predicate ContainsEvery(plan: Plan, j: Journal, integration: Option<Commit>) {
    && integration.Some? && Ancestor(plan.baseline, integration.value)
    && forall id :: id in j.tasks ==> j.tasks[id].commit.Some? && Ancestor(j.tasks[id].commit.value, integration.value)
  }

  // Integrate the results of a run and close its record. The steps form a chain; the
  // record says success exactly when the integration went through, it was persisted, the
  // repository is unchanged and every task succeeded. A resumed run that fails after its
  // context has ended counts as cancelled.
  method IntegrateAndClose(plan: Plan, ghost w: World, results: seq<TaskResult>, runs: nat, was: Integration,
                           priorCompleted: bool, recorded: Recorded, way: Way, e: Ending, at: string,
                           ghost wrote: bool)
    returns (o: Outcome, status: RunStatus, ghost ws: seq<World>)
    requires LoopOver(plan, w, way) && Finds(w.memory.value, results, runs, was, priorCompleted) && at != ""
    ensures Chain(plan, ws) && ws[0] == w && ClosesAgain(plan, w, ws[|ws| - 1])
    ensures Integrates(plan, w.memory.value, IntegrationStep(runs, recorded, way), o)
    ensures Closed(ws[|ws| - 1], status, o.after, wrote)
    ensures status == FirstStatus(w.memory.value, o, e)
  {
    o := IntegrateResults(plan, w, results, runs, was, priorCompleted, recorded, way);
    var all := AllSuccessful(results);
    SuccessInOrder(w.memory.value.result);
    status := if o.error.None? && (runs != 1 || e.saves) && e.intact && all then Succeeded
      else if runs != 1 && e.endedSince then RunCancelled else RunFailed;
    ws := CloseChain(plan, w, runs, recorded, way, e.saves, status, at, wrote);
  }

  method IntegrateResults(plan: Plan, ghost w: World, results: seq<TaskResult>, runs: nat, was: Integration,
                          priorCompleted: bool, recorded: Recorded, way: Way)
    returns (o: Outcome)
    requires LoopOver(plan, w, way) && Finds(w.memory.value, results, runs, was, priorCompleted)
    ensures Integrates(plan, w.memory.value, IntegrationStep(runs, recorded, way), o)
  {
    SoundBefore(plan, w);
    if runs == 1 {
      o := Integrate(plan.baseline, results, way);
    } else {
      o := IntegrateResumed(plan.baseline, was, priorCompleted, recorded, results, way);
    }
  }

  // The status before anything is recorded.
  ghost function FirstStatus(m: Memory, o: Outcome, e: Ending): RunStatus {
    if Completes(m, Some(o), e) then Succeeded
    else if |m.result.runs| != 1 && e.endedSince then RunCancelled else RunFailed
  }

  // What the end of a run meets, in this order.
  datatype Ending = Ending(
    ended: bool,       // the context has ended when the loop is over
    untouched: bool,   // the repository is unchanged before the integration
    saves: bool,       // Execute's write after the integration goes through
    intact: bool,      // the repository is unchanged after it
    endedSince: bool,  // the context has ended when Resume chooses the status
    wrote: bool,       // the write of the closed record goes through
    tracked: bool,     // the plan has scenarios to record
    records: bool,     // RecordImplementation accepts the result
    rewrote: bool)     // the write of the record closed again goes through

  // Everything a success needs before its record is closed.
  ghost predicate Completes(m: Memory, o: Option<Outcome>, e: Ending) {
    && o.Some? && o.value.error.None? && (|m.result.runs| == 1 ==> e.saves) && e.intact && AllSucceeded(m.result)
  }

  // A success whose recording then fails.
  ghost predicate Retracted(m: Memory, o: Option<Outcome>, e: Ending) {
    Completes(m, o, e) && e.wrote && e.tracked && !e.records
  }

  // The last write of the record goes through. Execute writes nothing more once a write has
  // failed, Resume tries again.
  ghost predicate Written(m: Memory, o: Option<Outcome>, e: Ending) {
    if Retracted(m, o, e) then e.rewrote
    else e.wrote && (|m.result.runs| == 1 ==> !m.broken && (o.Some? ==> e.saves))
  }

  // The status the run ends with, and whether the caller gets no error.
  ghost predicate Verdict(m: Memory, o: Option<Outcome>, e: Ending, status: RunStatus, ok: bool) {
    && (status == Succeeded || status == RunCancelled || status == RunFailed)
    && (ok <==> Completes(m, o, e) && e.wrote && (e.tracked ==> e.records))
    && (status == Succeeded <==> Completes(m, o, e) && !Retracted(m, o, e))
    && (status == RunCancelled <==>
        if |m.result.runs| == 1 then !m.broken && e.ended else !Completes(m, o, e) && (e.ended || e.endedSince))
  }

  // The same, said out in full: without an error exactly when the journal is whole, the context
  // alive, the repository unchanged, the integration made and saved, every task a success, the
  // record written and, on a tracked plan, the implementation recorded.
  lemma VerdictMeans(m: Memory, o: Option<Outcome>, e: Ending, status: RunStatus, ok: bool)
    requires Verdict(m, o, e, status, ok) && (o.Some? <==> !m.broken && !e.ended && e.untouched)
    ensures ok <==>
      && !m.broken && !e.ended && e.untouched && o.value.error == None && (|m.result.runs| == 1 ==> e.saves) && e.intact
      && (forall id :: id in m.result.tasks ==> m.result.tasks[id].status == Scheduler.Success)
      && e.wrote && (e.tracked ==> e.records)
    ensures ok ==> status == Succeeded
    ensures status == Succeeded && !ok ==> !e.wrote
    ensures !ok && e.wrote ==> status == RunFailed || status == RunCancelled
    ensures status == RunCancelled && |m.result.runs| == 1 ==> e.ended
    ensures status == RunCancelled && |m.result.runs| != 1 ==> e.ended || e.endedSince
  {
  }

  // The world a run ends in: its record is closed with this status, on disk too if the last
  // write goes through. A retraction that cannot be written leaves a success there.
  ghost predicate Ends(plan: Plan, m: Memory, o: Option<Outcome>, e: Ending, status: RunStatus, last: World) {
    && WorldOk(plan, last)
    && Closed(last, status, if o.Some? then o.value.after else m.result.integration, Written(m, o, e))
    && (Retracted(m, o, e) && !e.rewrote ==> LastStatus(last.disk.journal) == Some(Succeeded))
    && (status == Succeeded ==> o.Some? && ContainsEvery(plan, m.result, o.value.after.commit))
  }

  // By a chain of durable steps from the end of the loop.
  ghost predicate EndsBySteps(plan: Plan, w: World, o: Option<Outcome>, e: Ending, status: RunStatus) {
    w.memory.Some? && exists ws :: EndingChain(plan, ws, w, o, e, status)
  }

  ghost predicate EndingChain(plan: Plan, ws: seq<World>, w: World, o: Option<Outcome>, e: Ending, status: RunStatus) {
    Chain(plan, ws) && ws[0] == w && w.memory.Some? && Ends(plan, w.memory.value, o, e, status, ws[|ws| - 1])
  }

  // The end of a run, from the end of its loop: a broken journal, an ended context and a
  // changed repository close the record at once; otherwise the results are integrated, the
  // record is closed and the implementation recorded; and where that fails, the record is
  // closed again as failed.
  method FinishRun(plan: Plan, ghost w: World, results: seq<TaskResult>, runs: nat, was: Integration,
                   priorCompleted: bool, broken: bool, recorded: Recorded, way: Way, e: Ending, at: string,
                   againAt: string)
    returns (o: Option<Outcome>, status: RunStatus, ok: bool)
    requires AtEnd(plan, w) && Finds(w.memory.value, results, runs, was, priorCompleted)
    requires broken == w.memory.value.broken && |way.turns| == |results| && at != "" && againAt != ""
    ensures EndsBySteps(plan, w, o, e, status)
    ensures o.Some? <==> !broken && !e.ended && e.untouched
    ensures o.Some? ==> Integrates(plan, w.memory.value, IntegrationStep(runs, recorded, way), o.value)
    ensures Verdict(w.memory.value, o, e, status, ok)
  {
    if broken || e.ended || !e.untouched {
      o, ok := None, false;
      status := if (runs == 1 && !broken && e.ended) || (runs != 1 && (e.ended || e.endedSince))
        then RunCancelled else RunFailed;
      CloseAtOnce(plan, w, e, status, at);
      return;
    }
    var outcome;
    outcome, status, ok :=
      IntegrateAndRecord(plan, w, results, runs, was, priorCompleted, recorded, way, e, at, againAt);
    o := Some(outcome);
  }

  ghost predicate Integrates(plan: Plan, m: Memory, step: Durable.Step, o: Outcome) {
    && (step.IntegrateFirst? || step.IntegrateAgain?) && MayIntegrate(plan, m, step.way)
    && o == IntegrationOutcome(plan, m, step)
  }

  method IntegrateAndRecord(plan: Plan, ghost w: World, results: seq<TaskResult>, runs: nat, was: Integration,
                            priorCompleted: bool, recorded: Recorded, way: Way, e: Ending, at: string,
                            againAt: string)
    returns (o: Outcome, status: RunStatus, ok: bool)
    requires AtEnd(plan, w) && Finds(w.memory.value, results, runs, was, priorCompleted)
    requires !w.memory.value.broken && |way.turns| == |results| && !e.ended && at != "" && againAt != ""
    ensures EndsBySteps(plan, w, Some(o), e, status)
    ensures Integrates(plan, w.memory.value, IntegrationStep(runs, recorded, way), o)
    ensures Verdict(w.memory.value, Some(o), e, status, ok)
  {
    SizeOfResults(plan, w, way);
    ghost var ws;
    o, status, ws := IntegrateAndClose(plan, w, results, runs, was, priorCompleted, recorded, way, e, at,
                                       e.wrote && (runs != 1 || e.saves));
    ok := status == Succeeded && e.wrote;
    if ok && e.tracked && !e.records {
      status, ok := RunFailed, false;
      VerdictAfter(w.memory.value, o, e, true);
      CloseOnceMore(plan, w, ws, o, e, againAt);
    } else {
      VerdictAfter(w.memory.value, o, e, false);
      ClosedEnds(plan, w, ws, o, e);
    }
  }

  lemma VerdictAfter(m: Memory, o: Outcome, e: Ending, retracted: bool)
    requires !e.ended && !m.broken
    requires retracted <==> FirstStatus(m, o, e) == Succeeded && e.wrote && e.tracked && !e.records
    ensures retracted <==> Retracted(m, Some(o), e)
    ensures Verdict(m, Some(o), e, if retracted then RunFailed else FirstStatus(m, o, e),
                    !retracted && FirstStatus(m, o, e) == Succeeded && e.wrote)
  {
  }

  // Where nothing is retracted, the world is the one the run was closed in.
  lemma ClosedEnds(plan: Plan, w: World, ws: seq<World>, o: Outcome, e: Ending)
    requires Chain(plan, ws) && ws[0] == w && ClosesAgain(plan, w, ws[|ws| - 1])
    requires !w.memory.value.broken && !Retracted(w.memory.value, Some(o), e)
    requires Closed(ws[|ws| - 1], FirstStatus(w.memory.value, o, e), o.after,
                    e.wrote && (|w.memory.value.result.runs| != 1 || e.saves))
    ensures EndsBySteps(plan, w, Some(o), e, FirstStatus(w.memory.value, o, e))
  {
    if Completes(w.memory.value, Some(o), e) {
      ContainedAtEnd(plan, w, ws[|ws| - 1], o);
    }
    assert EndingChain(plan, ws, w, Some(o), e, FirstStatus(w.memory.value, o, e));
  }

  // The record is closed, and could be closed again.
  ghost predicate ClosesAgain(plan: Plan, w: World, last: World) {
    && w.memory.Some? && WorldOk(plan, last) && last.memory.Some? && MayClose(plan, last.memory.value)
    && last.memory.value.result.tasks == w.memory.value.result.tasks
  }

  lemma SizeOfResults(plan: Plan, w: World, way: Way)
    requires AtEnd(plan, w) && |way.turns| == |InOrder(w.memory.value.result.tasks)|
    ensures |way.turns| == |w.memory.value.result.tasks| && MayIntegrate(plan, w.memory.value, way)
  {
  }

  // Without an integration.
  lemma CloseAtOnce(plan: Plan, w: World, e: Ending, status: RunStatus, at: string)
    requires AtEnd(plan, w) && (status == RunFailed || status == RunCancelled) && at != ""
    ensures EndsBySteps(plan, w, None, e, status)
  {
    var wrote := e.wrote && (|w.memory.value.result.runs| != 1 || !w.memory.value.broken);
    MayFinish(plan, w, status, at, wrote);
    var closed := Closing(plan, w, status, at, wrote);
    var ws := OneStep(plan, w, closed);
    assert EndingChain(plan, ws, w, None, e, status);
  }

  // After a recording that failed.
  lemma CloseOnceMore(plan: Plan, w: World, ws: seq<World>, o: Outcome, e: Ending, at: string)
    requires Chain(plan, ws) && ws[0] == w && Closed(ws[|ws| - 1], Succeeded, o.after, true)
    requires ClosesAgain(plan, w, ws[|ws| - 1]) && Retracted(w.memory.value, Some(o), e) && at != ""
    ensures EndsBySteps(plan, w, Some(o), e, RunFailed)
  {
    MayFinish(plan, ws[|ws| - 1], RunFailed, at, e.rewrote);
    var closed := Closing(plan, ws[|ws| - 1], RunFailed, at, e.rewrote);
    var longer := Further(plan, ws, closed);
    assert EndingChain(plan, longer, w, Some(o), e, RunFailed);
  }

  lemma SoundBefore(plan: Plan, w: World)
    requires WorldOk(plan, w) && w.memory.Some?
    ensures IntegrationSound(plan.baseline, w.memory.value.result.integration) && |w.memory.value.result.runs| >= 1
  {
  }

  // Integrated and, in a first run, persisted: all that is left is to close the record.
  ghost predicate ReadyToClose(plan: Plan, w: World, before: World, o: Outcome, persisted: bool) {
    && WorldOk(plan, before) && w.memory.Some? && before.memory.Some?
    && var m, m' := w.memory.value, before.memory.value;
       && m'.landing.None? && m'.sched.states == m.sched.states && m'.result == m.result.(integration := o.after)
       && m'.integrated == o.error.None? && m'.broken == !persisted
  }

  lemma IntegratedIsReady(plan: Plan, w: World, runs: nat, recorded: Recorded, way: Way) returns (w': World)
    requires LoopOver(plan, w, way) && runs == |w.memory.value.result.runs|
    ensures Durable.Next(plan, w, w')
    ensures ReadyToClose(plan, w, w', IntegrationOutcome(plan, w.memory.value, IntegrationStep(runs, recorded, way)),
                         true)
  {
    w' := Integrating(plan, w, runs, recorded, way);
  }

  lemma SavedIsReady(plan: Plan, w: World, w': World, o: Outcome, wrote: bool) returns (saved: World)
    requires ReadyToClose(plan, w, w', o, true)
    ensures Durable.Next(plan, w', saved) && ReadyToClose(plan, w, saved, o, wrote)
  {
    saved := Saving(plan, w', wrote);
  }

  lemma MayFinish(plan: Plan, w: World, status: RunStatus, at: string, wrote: bool)
    requires w.memory.Some? && w.memory.value.landing.None? && at != ""
    requires Ended(w.memory.value.sched.states) == plan.needs.Keys
    requires status == RunFailed || status == RunCancelled ||
      (status == Succeeded && AllSucceeded(w.memory.value.result)
      && w.memory.value.integrated && !w.memory.value.broken)
    ensures Durable.Enabled(plan, w, Finish(status, at, wrote))
  {
  }

  lemma ReadyCloses(plan: Plan, w: World, before: World, o: Outcome, persisted: bool, status: RunStatus, at: string,
                    wrote: bool)
    returns (closed: World)
    requires ReadyToClose(plan, w, before, o, persisted) && at != ""
    requires Ended(w.memory.value.sched.states) == plan.needs.Keys
    requires status == RunFailed || status == RunCancelled ||
      (status == Succeeded && persisted && o.error.None? && AllSucceeded(w.memory.value.result))
    ensures Durable.Next(plan, before, closed) && WorldOk(plan, closed) && Closed(closed, status, o.after, wrote)
    ensures closed.memory.value.result.tasks == w.memory.value.result.tasks && MayClose(plan, closed.memory.value)
  {
    MayFinish(plan, before, status, at, wrote);
    closed := Closing(plan, before, status, at, wrote);
  }

  // The steps up to there.
  lemma OpenChain(plan: Plan, w: World, before: World, o: Outcome, first: bool, saves: bool) returns (ws: seq<World>)
    requires Durable.Next(plan, w, before) && ReadyToClose(plan, w, before, o, true)
    ensures Chain(plan, ws) && ws[0] == w && ReadyToClose(plan, w, ws[|ws| - 1], o, !first || saves)
  {
    if first {
      var saved := SavedIsReady(plan, w, before, o, saves);
      ws := TwoSteps(plan, w, before, saved);
    } else {
      ws := OneStep(plan, w, before);
    }
  }

  lemma CloseChain(plan: Plan, w: World, runs: nat, recorded: Recorded, way: Way, saves: bool, status: RunStatus,
                   at: string, wrote: bool)
    returns (ws: seq<World>)
    requires LoopOver(plan, w, way) && runs == |w.memory.value.result.runs| && at != ""
    requires status == RunFailed || status == RunCancelled ||
      (status == Succeeded && (runs == 1 ==> saves) && AllSucceeded(w.memory.value.result)
      && IntegrationOutcome(plan, w.memory.value, IntegrationStep(runs, recorded, way)).error.None?)
    ensures Chain(plan, ws) && ws[0] == w && WorldOk(plan, ws[|ws| - 1])
    ensures Closed(ws[|ws| - 1], status,
                   IntegrationOutcome(plan, w.memory.value, IntegrationStep(runs, recorded, way)).after, wrote)
    ensures ws[|ws| - 1].memory.value.result.tasks == w.memory.value.result.tasks
    ensures MayClose(plan, ws[|ws| - 1].memory.value)
  {
    var o := IntegrationOutcome(plan, w.memory.value, IntegrationStep(runs, recorded, way));
    var before := IntegratedIsReady(plan, w, runs, recorded, way);
    ws := OpenChain(plan, w, before, o, runs == 1, saves);
    var closed := ReadyCloses(plan, w, ws[|ws| - 1], o, runs != 1 || saves, status, at, wrote);
    ws := Further(plan, ws, closed);
  }

  lemma ContainedAtEnd(plan: Plan, w: World, last: World, o: Outcome)
    requires w.memory.Some? && WorldOk(plan, last) && Closed(last, Succeeded, o.after, false)
    requires last.memory.value.result.tasks == w.memory.value.result.tasks
    ensures ContainsEvery(plan, w.memory.value.result, o.after.commit)
  {
    var j := last.memory.value.result;
    assert AllSucceeded(j) && IntegratesAll(j);
    forall id | id in j.tasks ensures j.tasks[id].commit.Some? {
      assert EntryOk(plan, last.disk.checkpoints, |j.runs|, j.tasks[id], id);
      assert CheckpointOk(plan, last.disk, id);
    }
  }
}
