// The run records of workflow/executor.go and workflow/resume.go over whole durable runs: where
// every record comes from, and what becomes of the one a crash leaves in progress.
module Histories {
  import opened Ids
  import opened Worker
  import opened Durable
  import opened Crashes
  import Scheduler

  // A run with the steps it takes.
  ghost predicate Traced(plan: Plan, run: seq<World>, steps: seq<Durable.Step>) {
    && PlanOk(plan) && Durable.IsRun(plan, run) && |steps| == |run| - 1
    && forall i {:trigger steps[i]} :: 0 <= i < |steps| ==> Takes(plan, run[i], steps[i], run[i + 1])
  }

  ghost predicate Takes(plan: Plan, w: World, step: Durable.Step, w': World) {
    Durable.Enabled(plan, w, step) && w' == Durable.After(plan, w, step)
  }

  // Every run has such steps.
  lemma {:induction false} Trace(plan: Plan, run: seq<World>) returns (steps: seq<Durable.Step>)
    requires PlanOk(plan) && Durable.IsRun(plan, run)
    ensures Traced(plan, run, steps)
  {
    steps := [];
    for i := 0 to |run| - 1
      invariant |steps| == i
      invariant forall k {:trigger steps[k]} :: 0 <= k < i ==> Takes(plan, run[k], steps[k], run[k + 1])
    {
      var step := StepAt(plan, run, i);
      steps := steps + [step];
    }
  }

  // ----------------------------------------------------------------------- one step

  function Last(runs: seq<RunRecord>): RunRecord
    requires runs != []
  {
    runs[|runs| - 1]
  }

  // The same history with another last record.
  ghost predicate Reclosed(before: seq<RunRecord>, after: seq<RunRecord>) {
    |after| == |before| > 0 && after[..|after| - 1] == before[..|before| - 1]
  }

  // Resume leaves all records as they were but the one in progress, which it closes as interrupted
  // with the tasks of the journal, and opens a new one.
  lemma ResumedHistory(plan: Plan, w: World, step: Durable.Step)
    requires WorldOk(plan, w) && Durable.Enabled(plan, w, step) && step.Resume?
    ensures var j, runs := w.disk.journal, Durable.After(plan, w, step).disk.journal.runs;
      && j.runs != [] && |runs| == |j.runs| + 1
      && Last(runs) == RunRecord(|j.runs| + 1, true, step.startedAt, "", InProgress, map[])
      && Reclosed(j.runs, runs[..|j.runs|])
      && (if Last(j.runs).status == InProgress
          then runs[|j.runs| - 1] ==
            Last(j.runs).(status := Interrupted, finishedAt := step.closedAt, tasks := j.tasks)
          else runs[|j.runs| - 1] == Last(j.runs))
      && Durable.After(plan, w, step).memory.Some?
      && Durable.After(plan, w, step).memory.value.result.runs == runs
  {
  }

  // It takes over the checkpointed results; every other task is pending again, with the attempts and
  // the worktree it had and without a commit.
  lemma ResumedTasks(plan: Plan, w: World, step: Durable.Step, id: Id)
    requires WorldOk(plan, w) && Durable.Enabled(plan, w, step) && step.Resume? && id in plan.needs
    ensures var w' := Durable.After(plan, w, step);
      && id in w'.disk.journal.tasks && id in w.disk.journal.tasks
      && w'.memory.Some? && id in w'.memory.value.result.tasks && id in w'.memory.value.offsets
      && var now, was := w'.memory.value.result.tasks[id], w.disk.journal.tasks[id];
         && (id in w.disk.checkpoints ==>
               w'.disk.journal.tasks[id] == w.disk.checkpoints[id].task && now == w.disk.checkpoints[id].task)
         && (id !in w.disk.checkpoints ==>
               && w'.disk.journal.tasks[id] == was
               && now == TaskResult(Scheduler.Pending, was.attempts, was.worktree, None, false))
         && w'.memory.value.offsets[id] == now.attempts
         && w'.memory.value.jobs == step.jobs && !w'.memory.value.broken && !w'.memory.value.integrated
  {
    if id in w.disk.checkpoints {
      assert CheckpointOk(plan, w.disk, id);
    } else {
      assert EntryOk(plan, w.disk.checkpoints, |w.disk.journal.runs|, w.disk.journal.tasks[id], id);
    }
  }

  // Within a process only the last record changes, and that only by Finish, which closes it with
  // its status and the tasks of that moment; the disk's records are those of before or
  // those of memory.
  lemma ProcessHistory(plan: Plan, w: World, step: Durable.Step)
    requires Durable.Enabled(plan, w, step) && !step.Resume? && w.memory.Some? && w.memory.value.result.runs != []
    ensures var m, w' := w.memory.value, Durable.After(plan, w, step);
      && (step.Crash? <==> w'.memory.None?)
      && (!step.Finish? && !step.Crash? ==> w'.memory.value.result.runs == m.result.runs)
      && (step.Finish? ==>
            && Reclosed(m.result.runs, w'.memory.value.result.runs)
            && Last(w'.memory.value.result.runs) ==
                 Last(m.result.runs).(status := step.status, finishedAt := step.at, tasks := m.result.tasks)
            && step.status in {Succeeded, RunFailed, RunCancelled})
      && (w'.disk.journal.runs == w.disk.journal.runs
          || (w'.memory.Some? && w'.disk.journal.runs == w'.memory.value.result.runs))
      && (step.Finish? && step.wrote ==> w'.disk.journal.runs == w'.memory.value.result.runs)
  {
    if step.Finish? {
      var m, w' := w.memory.value, Durable.After(plan, w, step);
      assert w'.memory.value.result.runs[..|m.result.runs| - 1] == m.result.runs[..|m.result.runs| - 1];
    } else if Journals(step) {
      JournallingPersists(plan, w, step);
      WrittenKeepsRuns(plan, w, step);
    }
  }

  lemma WrittenKeepsRuns(plan: Plan, w: World, step: Durable.Step)
    requires Durable.Enabled(plan, w, step) && Journals(step) && !step.Finish?
    ensures Written(w, step).Some? && w.memory.Some?
    ensures Written(w, step).value.result.runs == w.memory.value.result.runs
  {
  }

  // ------------------------------------------------------------------------ every run

  // Step i of a process closes its record so; a Resume closes it so.
  ghost predicate ClosedAt(run: seq<World>, steps: seq<Durable.Step>, i: nat, k: nat, record: RunRecord)
    requires i < |steps| == |run| - 1
  {
    && steps[i].Finish? && run[i].memory.Some? && |run[i].disk.journal.runs| == k + 1
    && record.status == steps[i].status && record.finishedAt == steps[i].at
    && record.tasks == run[i].memory.value.result.tasks
  }

  ghost predicate InterruptedAt(run: seq<World>, steps: seq<Durable.Step>, i: nat, k: nat, record: RunRecord)
    requires i < |steps| == |run| - 1
  {
    var j := run[i].disk.journal;
    && steps[i].Resume? && |j.runs| == k + 1 && j.runs[k].status == InProgress
    && record == j.runs[k].(status := Interrupted, finishedAt := steps[i].closedAt, tasks := j.tasks)
  }

  // Where the record at position k comes from, as seen at moment n.
  ghost predicate Accounted(run: seq<World>, steps: seq<Durable.Step>, n: nat, k: nat, record: RunRecord)
    requires n < |run| && |steps| == |run| - 1
  {
    match record.status
    case InProgress => k == |run[n].disk.journal.runs| - 1
    case Interrupted => exists i: nat :: i < n && InterruptedAt(run, steps, i, k, record)
    case _ => exists i: nat :: i < n && ClosedAt(run, steps, i, k, record)
  }

  // The invariant: what memory will write agrees with the disk but for the last record.
  ghost predicate AllAccounted(run: seq<World>, steps: seq<Durable.Step>, n: nat)
    requires n < |run| && |steps| == |run| - 1
  {
    var d, m := run[n].disk.journal, run[n].memory;
    && d.runs != []
    && (forall k: nat :: k < |d.runs| ==> Accounted(run, steps, n, k, d.runs[k]))
    && (m.Some? ==>
          Reclosed(d.runs, m.value.result.runs)
          && Accounted(run, steps, n, |d.runs| - 1, Last(m.value.result.runs)))
  }

  lemma AccountedLater(run: seq<World>, steps: seq<Durable.Step>, n: nat, k: nat, record: RunRecord)
    requires n + 1 < |run| && |steps| == |run| - 1 && Accounted(run, steps, n, k, record)
    requires record.status != InProgress || |run[n + 1].disk.journal.runs| == |run[n].disk.journal.runs|
    ensures Accounted(run, steps, n + 1, k, record)
  {
  }

  lemma ResumeAccounts(plan: Plan, run: seq<World>, steps: seq<Durable.Step>, n: nat)
    requires Traced(plan, run, steps) && n + 1 < |run| && AllAccounted(run, steps, n) && steps[n].Resume?
    ensures AllAccounted(run, steps, n + 1)
  {
    assert Takes(plan, run[n], steps[n], run[n + 1]);
    RunKeepsWorld(plan, run, n);
    ResumedHistory(plan, run[n], steps[n]);
    var before, after := run[n].disk.journal.runs, run[n + 1].disk.journal.runs;
    forall k: nat | k < |after| ensures Accounted(run, steps, n + 1, k, after[k]) {
      if k < |before| - 1 {
        assert after[k] == after[..|before|][..|before| - 1][k] == before[..|before| - 1][k];
        assert Accounted(run, steps, n, k, before[k]);
        AccountedLater(run, steps, n, k, before[k]);
      } else if k == |before| - 1 {
        assert Accounted(run, steps, n, k, before[k]);
        if before[k].status == InProgress { assert InterruptedAt(run, steps, n, k, after[k]); }
        else { AccountedLater(run, steps, n, k, before[k]); }
      }
    }
  }

  lemma StepAccounts(plan: Plan, run: seq<World>, steps: seq<Durable.Step>, n: nat)
    requires Traced(plan, run, steps) && n + 1 < |run| && AllAccounted(run, steps, n)
    requires !steps[n].Resume? && !steps[n].Touch?
    ensures AllAccounted(run, steps, n + 1)
  {
    assert Takes(plan, run[n], steps[n], run[n + 1]);
    ProcessHistory(plan, run[n], steps[n]);
    var d, d', m, m' := run[n].disk.journal.runs, run[n + 1].disk.journal.runs, run[n].memory, run[n + 1].memory;
    var last := |d| - 1;
    if m'.Some? {
      if steps[n].Finish? { assert ClosedAt(run, steps, n, last, Last(m'.value.result.runs)); }
      else { AccountedLater(run, steps, n, last, Last(m'.value.result.runs)); }
    }
    forall k: nat | k < |d'| ensures Accounted(run, steps, n + 1, k, d'[k]) {
      if k < last {
        assert d'[k] == d'[..last][k] == d[..last][k];
      }
      if k < last || d' == d {
        assert Accounted(run, steps, n, k, d[k]);
        AccountedLater(run, steps, n, k, d[k]);
      }
    }
  }

  lemma TouchAccounts(plan: Plan, run: seq<World>, steps: seq<Durable.Step>, n: nat)
    requires Traced(plan, run, steps) && n + 1 < |run| && AllAccounted(run, steps, n) && steps[n].Touch?
    ensures AllAccounted(run, steps, n + 1)
  {
    assert Takes(plan, run[n], steps[n], run[n + 1]);
    var runs := run[n].disk.journal.runs;
    forall k: nat | k < |runs| ensures Accounted(run, steps, n + 1, k, runs[k]) {
      assert Accounted(run, steps, n, k, runs[k]);
      AccountedLater(run, steps, n, k, runs[k]);
    }
  }

  // Every record of every durable run is accounted for: the last may be in progress, an
  // interrupted one was in progress when a Resume found it, and any other was closed by its own
  // process with that status and the tasks of that moment.
  lemma {:induction false} RecordsAccounted(plan: Plan, run: seq<World>, steps: seq<Durable.Step>, n: nat)
    requires Traced(plan, run, steps) && n < |run|
    ensures AllAccounted(run, steps, n)
  {
    if n > 0 {
      RecordsAccounted(plan, run, steps, n - 1);
      if steps[n - 1].Resume? {
        ResumeAccounts(plan, run, steps, n - 1);
      } else if steps[n - 1].Touch? {
        TouchAccounts(plan, run, steps, n - 1);
      } else {
        StepAccounts(plan, run, steps, n - 1);
      }
    }
  }

  // A record that is not the last stays as it is.
  lemma StepKeepsRecord(plan: Plan, run: seq<World>, steps: seq<Durable.Step>, n: nat, k: nat)
    requires Traced(plan, run, steps) && n + 1 < |run| && k + 1 < |run[n].disk.journal.runs|
    ensures k + 1 < |run[n + 1].disk.journal.runs|
    ensures run[n + 1].disk.journal.runs[k] == run[n].disk.journal.runs[k]
  {
    assert Takes(plan, run[n], steps[n], run[n + 1]);
    RecordsAccounted(plan, run, steps, n);
    var d, d' := run[n].disk.journal.runs, run[n + 1].disk.journal.runs;
    if steps[n].Resume? {
      RunKeepsWorld(plan, run, n);
      ResumedHistory(plan, run[n], steps[n]);
      assert d'[k] == d'[..|d|][..|d| - 1][k] == d[..|d| - 1][k];
    } else if !steps[n].Touch? {
      ProcessHistory(plan, run[n], steps[n]);
      if d' != d {
        assert d'[k] == d'[..|d| - 1][k] == run[n].memory.value.result.runs[..|d| - 1][k] == d[..|d| - 1][k];
      }
    }
  }

  lemma {:induction false} RecordStays(plan: Plan, run: seq<World>, steps: seq<Durable.Step>, i: nat, n: nat, k: nat)
    requires Traced(plan, run, steps) && i <= n < |run| && k + 1 < |run[i].disk.journal.runs|
    ensures k + 1 < |run[n].disk.journal.runs|
    ensures run[n].disk.journal.runs[k] == run[i].disk.journal.runs[k]
  {
    if i < n {
      RecordStays(plan, run, steps, i, n - 1, k);
      StepKeepsRecord(plan, run, steps, n - 1, k);
    }
  }

  // A record is interrupted exactly when its process left it in progress and a Resume found it so.
  lemma InterruptedIff(plan: Plan, run: seq<World>, steps: seq<Durable.Step>, n: nat, k: nat)
    requires Traced(plan, run, steps) && n < |run| && k < |run[n].disk.journal.runs|
    ensures run[n].disk.journal.runs[k].status == Interrupted <==>
      exists i: nat :: i < n && FoundInProgress(run, steps, i, k)
  {
    RecordsAccounted(plan, run, steps, n);
    assert Accounted(run, steps, n, k, run[n].disk.journal.runs[k]);
    if run[n].disk.journal.runs[k].status == Interrupted {
      var i: nat :| i < n && InterruptedAt(run, steps, i, k, run[n].disk.journal.runs[k]);
      assert FoundInProgress(run, steps, i, k);
    }
    forall i: nat | i < n && FoundInProgress(run, steps, i, k)
      ensures run[n].disk.journal.runs[k].status == Interrupted
    {
      FoundStaysInterrupted(plan, run, steps, i, n, k);
    }
  }

  lemma FoundStaysInterrupted(plan: Plan, run: seq<World>, steps: seq<Durable.Step>, i: nat, n: nat, k: nat)
    requires Traced(plan, run, steps) && i < n < |run| && FoundInProgress(run, steps, i, k)
    ensures k < |run[n].disk.journal.runs| && run[n].disk.journal.runs[k].status == Interrupted
  {
    assert Takes(plan, run[i], steps[i], run[i + 1]);
    RunKeepsWorld(plan, run, i);
    ResumedHistory(plan, run[i], steps[i]);
    RecordStays(plan, run, steps, i + 1, n, k);
  }

  ghost predicate FoundInProgress(run: seq<World>, steps: seq<Durable.Step>, i: nat, k: nat)
    requires i < |steps| == |run| - 1
  {
    steps[i].Resume? && |run[i].disk.journal.runs| == k + 1 && run[i].disk.journal.runs[k].status == InProgress
  }

  // Once a process has written its record closed, it stays so.
  ghost predicate StaysClosed(w: World, k: nat) {
    && k < |w.disk.journal.runs| && w.disk.journal.runs[k].status != InProgress
    && (w.memory.Some? && |w.disk.journal.runs| == k + 1 ==>
          |w.memory.value.result.runs| == k + 1 && Last(w.memory.value.result.runs).status != InProgress)
  }

  lemma FinishCloses(plan: Plan, w: World, step: Durable.Step)
    requires Durable.Enabled(plan, w, step) && step.Finish? && step.wrote && w.memory.value.result.runs != []
    ensures StaysClosed(Durable.After(plan, w, step), |w.memory.value.result.runs| - 1)
  {
    ProcessHistory(plan, w, step);
  }

  lemma StepStaysClosed(plan: Plan, run: seq<World>, steps: seq<Durable.Step>, n: nat, k: nat)
    requires Traced(plan, run, steps) && n + 1 < |run| && StaysClosed(run[n], k)
    ensures StaysClosed(run[n + 1], k)
  {
    assert Takes(plan, run[n], steps[n], run[n + 1]);
    RecordsAccounted(plan, run, steps, n);
    if k + 1 < |run[n].disk.journal.runs| {
      StepKeepsRecord(plan, run, steps, n, k);
    } else if steps[n].Resume? {
      RunKeepsWorld(plan, run, n);
      ResumedHistory(plan, run[n], steps[n]);
    } else if !steps[n].Touch? && run[n].memory.Some? {
      ProcessHistory(plan, run[n], steps[n]);
    }
  }

  lemma {:induction false} RunStaysClosed(plan: Plan, run: seq<World>, steps: seq<Durable.Step>, i: nat, n: nat, k: nat)
    requires Traced(plan, run, steps) && i <= n < |run| && StaysClosed(run[i], k)
    ensures StaysClosed(run[n], k)
  {
    if i < n {
      RunStaysClosed(plan, run, steps, i, n - 1, k);
      StepStaysClosed(plan, run, steps, n - 1, k);
    }
  }

  // A process leaves its record in progress if it never finishes it, and only if it never writes
  // it finished.
  lemma LeftInProgress(plan: Plan, run: seq<World>, steps: seq<Durable.Step>, n: nat)
    requires Traced(plan, run, steps) && n < |run|
    ensures run[n].disk.journal.runs != []
    ensures var k := |run[n].disk.journal.runs| - 1;
      && (Last(run[n].disk.journal.runs).status == InProgress ==>
           forall i: nat :: i < n && FinishesAt(run, steps, i, k) ==> !steps[i].wrote)
      && (Last(run[n].disk.journal.runs).status != InProgress ==>
           exists i: nat :: i < n && FinishesAt(run, steps, i, k))
  {
    RecordsAccounted(plan, run, steps, n);
    var k := |run[n].disk.journal.runs| - 1;
    forall i: nat | i < n && FinishesAt(run, steps, i, k) && steps[i].wrote
      ensures Last(run[n].disk.journal.runs).status != InProgress
    {
      assert Takes(plan, run[i], steps[i], run[i + 1]);
      RecordsAccounted(plan, run, steps, i);
      FinishCloses(plan, run[i], steps[i]);
      RunStaysClosed(plan, run, steps, i + 1, n, k);
    }
    if Last(run[n].disk.journal.runs).status != InProgress {
      LastIsClosedByFinish(plan, run, steps, n);
    }
  }

  ghost predicate FinishesAt(run: seq<World>, steps: seq<Durable.Step>, i: nat, k: nat)
    requires i < |steps| == |run| - 1
  {
    steps[i].Finish? && |run[i].disk.journal.runs| == k + 1
  }

  // The last record is never interrupted, so it was its own process that closed it.
  lemma LastIsClosedByFinish(plan: Plan, run: seq<World>, steps: seq<Durable.Step>, n: nat)
    requires Traced(plan, run, steps) && n < |run| && run[n].disk.journal.runs != []
    requires Last(run[n].disk.journal.runs).status != InProgress
    ensures var k := |run[n].disk.journal.runs| - 1; exists i: nat :: i < n && FinishesAt(run, steps, i, k)
  {
    RecordsAccounted(plan, run, steps, n);
    var k := |run[n].disk.journal.runs| - 1;
    assert Accounted(run, steps, n, k, run[n].disk.journal.runs[k]);
    if run[n].disk.journal.runs[k].status == Interrupted {
      var i: nat :| i < n && InterruptedAt(run, steps, i, k, run[n].disk.journal.runs[k]);
      RunGrows(plan, run, steps, i, n);
    } else {
      var i: nat :| i < n && ClosedAt(run, steps, i, k, run[n].disk.journal.runs[k]);
      assert FinishesAt(run, steps, i, k);
    }
  }

  // A Resume at some moment makes the history longer for good.
  lemma RunGrows(plan: Plan, run: seq<World>, steps: seq<Durable.Step>, i: nat, n: nat)
    requires Traced(plan, run, steps) && i < n < |run| && steps[i].Resume?
    ensures |run[n].disk.journal.runs| > |run[i].disk.journal.runs|
  {
    assert Takes(plan, run[i], steps[i], run[i + 1]);
    RunKeepsWorld(plan, run, i);
    ResumedHistory(plan, run[i], steps[i]);
    RecordStays(plan, run, steps, i + 1, n, |run[i].disk.journal.runs| - 1);
  }

  // ------------------------------------------------------------ the journal's statuses

  // What the journal in memory says of every task is what the scheduler made of it; a running one
  // may not have been reported yet.
  ghost predicate Agrees(m: Memory, id: Id) {
    && id in m.sched.states && id in m.result.tasks
    && match m.sched.states[id]
       case Running =>
         m.result.tasks[id].status == Scheduler.Running || m.result.tasks[id].status == Scheduler.Pending
       case other => m.result.tasks[id].status == other
  }

  ghost predicate AllAgree(plan: Plan, w: World) {
    w.memory.Some? ==>
      forall id {:trigger Agrees(w.memory.value, id)} :: id in plan.needs ==> Agrees(w.memory.value, id)
  }

  lemma WrittenAgrees(plan: Plan, w: World, step: Durable.Step, id: Id)
    requires WorldOk(plan, w) && AllAgree(plan, w) && id in plan.needs
    requires Durable.Enabled(plan, w, step) && Journals(step) && Written(w, step).Some?
    ensures Agrees(Written(w, step).value, id)
  {
    assert Agrees(w.memory.value, id);
    if step.JournalLanding? {
      LandedIsSuccess(plan, w);
    }
    SubjectAgrees(w, step, id);
  }

  lemma LandedIsSuccess(plan: Plan, w: World)
    requires WorldOk(plan, w) && w.memory.Some? && w.memory.value.landing.Some?
    ensures w.memory.value.landing.value.result.status == Scheduler.Success
  {
    assert CheckpointOk(plan, w.disk, w.memory.value.landing.value.id);
  }

  // A write changes the status and the entry of one task alike.
  lemma SubjectAgrees(w: World, step: Durable.Step, id: Id)
    requires w.memory.Some? && Journals(step) && Written(w, step).Some? && Agrees(w.memory.value, id)
    requires step.JournalLanding? ==> w.memory.value.landing.value.result.status == Scheduler.Success
    requires step.ReportTask? ==>
      Scheduler.Has(w.memory.value.sched, step.id, Scheduler.Running) && step.update.status == Scheduler.Running
    requires step.Fail? ==> step.result.status == Scheduler.Failed || step.result.status == Scheduler.Cancelled
    ensures Agrees(Written(w, step).value, id)
  {
  }

  lemma JournallingAgrees(plan: Plan, w: World, step: Durable.Step)
    requires WorldOk(plan, w) && AllAgree(plan, w) && Durable.Enabled(plan, w, step) && Journals(step)
    ensures AllAgree(plan, Durable.After(plan, w, step))
  {
    JournallingPersists(plan, w, step);
    var w' := Durable.After(plan, w, step);
    forall id | id in plan.needs ensures Agrees(w'.memory.value, id) {
      WrittenAgrees(plan, w, step, id);
    }
  }

  lemma ResumeAgrees(plan: Plan, w: World, step: Durable.Step)
    requires WorldOk(plan, w) && Durable.Enabled(plan, w, step) && step.Resume?
    ensures AllAgree(plan, Durable.After(plan, w, step))
  {
    forall id | id in plan.needs ensures Agrees(Durable.After(plan, w, step).memory.value, id) {
      ResumedTasks(plan, w, step, id);
    }
  }

  lemma QuietAgrees(plan: Plan, w: World, step: Durable.Step)
    requires AllAgree(plan, w) && Durable.Enabled(plan, w, step) && !Journals(step) && !step.Resume?
    ensures AllAgree(plan, Durable.After(plan, w, step))
  {
    var w' := Durable.After(plan, w, step);
    if w'.memory.Some? {
      forall id | id in plan.needs ensures Agrees(w'.memory.value, id) {
        assert Agrees(w.memory.value, id);
      }
    }
  }

  lemma StepAgrees(plan: Plan, w: World, step: Durable.Step)
    requires WorldOk(plan, w) && AllAgree(plan, w) && Durable.Enabled(plan, w, step)
    ensures AllAgree(plan, Durable.After(plan, w, step))
  {
    if Journals(step) { JournallingAgrees(plan, w, step); }
    else if step.Resume? { ResumeAgrees(plan, w, step); }
    else { QuietAgrees(plan, w, step); }
  }

  lemma StartAgrees(plan: Plan, w: World)
    requires Start(plan, w)
    ensures AllAgree(plan, w)
  {
    forall id | id in plan.needs ensures Agrees(w.memory.value, id) {
    }
  }

  // At every moment of every run.
  lemma {:induction false} StatusesAgree(plan: Plan, run: seq<World>, steps: seq<Durable.Step>, n: nat)
    requires Traced(plan, run, steps) && n < |run|
    ensures AllAgree(plan, run[n])
  {
    if n == 0 {
      StartAgrees(plan, run[0]);
    } else {
      StatusesAgree(plan, run, steps, n - 1);
      RunKeepsWorld(plan, run, n - 1);
      assert Takes(plan, run[n - 1], steps[n - 1], run[n - 1 + 1]);
      StepAgrees(plan, run[n - 1], steps[n - 1]);
    }
  }

  // A write that goes through puts all of memory's journal on disk; once one has failed, nothing
  // but a Finish is written any more.
  lemma WritesAll(plan: Plan, w: World, step: Durable.Step)
    requires Durable.Enabled(plan, w, step) && (Journals(step) || step.Finish?) && w.memory.Some?
    ensures var w' := Durable.After(plan, w, step);
      && w'.memory.Some?
      && (step.wrote && (!w.memory.value.broken || step.Finish?) ==> w'.disk.journal == w'.memory.value.result)
      && (!step.wrote || (w.memory.value.broken && !step.Finish?) ==> w'.disk == w.disk)
      && (!step.wrote && !step.Finish? ==>
            w'.memory.value.broken && (w.memory.value.broken || w'.memory.value.sched.done))
  {
    if Journals(step) { JournallingPersists(plan, w, step); }
  }
}
