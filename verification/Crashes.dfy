// What every run of the durable workflow keeps, whatever crashes and resumes occur.
module Crashes {
  import opened Ids
  import opened Graph
  import opened Git
  import opened Scheduler
  import opened Worker
  import opened Integrator
  import opened Durable

  // ---------------------------------------------------------------- invariant

  ghost predicate CheckpointOk(plan: Plan, d: Disk, id: Id) {
    && id in plan.needs && id in d.checkpoints
    && var cp := d.checkpoints[id];
       && cp.baseline == plan.baseline && cp.task.status == Success && cp.task.commit.Some? && cp.task.checkpointed
       && cp.task.worktree.Some? && cp.task.worktree.value.task == id && cp.task.worktree.value in d.heads
       && Some(d.heads[cp.task.worktree.value]) == cp.task.commit
       && Ancestor(plan.baseline, cp.task.commit.value)
       && cp.dependencies.Keys == Elems(plan.needs[id])
       && (forall n :: n in plan.needs[id] ==> DependencyOk(plan, d, cp, n))
       && cp.task.attempts <= |d.journal.runs| * Budget(plan, id)
  }

  ghost predicate DependencyOk(plan: Plan, d: Disk, cp: Checkpoint, n: Id) {
    && n in d.checkpoints && n in cp.dependencies && cp.task.commit.Some?
    && Some(cp.dependencies[n]) == d.checkpoints[n].task.commit
    && Ancestor(cp.dependencies[n], cp.task.commit.value)
  }

  // One entry of a journal, on disk or in memory, against the checkpoints.
  ghost predicate EntryOk(plan: Plan, checkpoints: map<Id, Checkpoint>, runs: nat, r: TaskResult, id: Id) {
    && (r.status == Success ==> id in checkpoints && r == checkpoints[id].task)
    && (id in checkpoints ==> r.attempts <= checkpoints[id].task.attempts)
    && r.attempts <= runs * Budget(plan, id)
  }

  // The integration contains every successful task's commit.
  ghost predicate IntegratesAll(j: Journal) {
    && j.integration.commit.Some?
    && forall id :: id in j.tasks && j.tasks[id].status == Success && j.tasks[id].commit.Some? ==>
         Ancestor(j.tasks[id].commit.value, j.integration.commit.value)
  }

  ghost predicate JournalOk(plan: Plan, checkpoints: map<Id, Checkpoint>, j: Journal) {
    && j.tasks.Keys == plan.needs.Keys
    && ValidHistory(j.runs)
    && IntegrationSound(plan.baseline, j.integration)
    && (forall id {:trigger j.tasks[id]} :: id in plan.needs ==> EntryOk(plan, checkpoints, |j.runs|, j.tasks[id], id))
    && (j.runs[|j.runs| - 1].status == Succeeded ==> AllSucceeded(j) && IntegratesAll(j))
  }

  ghost predicate DiskOk(plan: Plan, d: Disk) {
    && JournalOk(plan, d.checkpoints, d.journal)
    && forall id {:trigger CheckpointOk(plan, d, id)} :: id in d.checkpoints ==> CheckpointOk(plan, d, id)
  }

  ghost predicate TaskOk(plan: Plan, d: Disk, m: Memory, id: Id) {
    && id in m.result.tasks && id in m.offsets && id in m.sched.states && id in d.journal.tasks
    && (m.sched.states[id] == Success <==> m.result.tasks[id].status == Success)
    && (id in d.checkpoints ==> m.sched.states[id] == Success || m.landing == Some(Landing(id, d.checkpoints[id].task)))
    && d.journal.tasks[id].attempts <= m.result.tasks[id].attempts
    && m.offsets[id] + Budget(plan, id) <= |m.result.runs| * Budget(plan, id)
  }

  ghost predicate MemoryOk(plan: Plan, d: Disk, m: Memory) {
    && JournalOk(plan, d.checkpoints, m.result)
    && |m.result.runs| == |d.journal.runs|
    && Inv(plan.needs, m.jobs, m.sched)
    && (forall id {:trigger TaskOk(plan, d, m, id)} :: id in plan.needs ==> TaskOk(plan, d, m, id))
    && (m.landing.Some? ==> LandingOk(d, m))
    && (m.integrated ==> Ended(m.sched.states) == plan.needs.Keys && IntegratesAll(m.result))
  }

  ghost predicate LandingOk(d: Disk, m: Memory)
    requires m.landing.Some?
  {
    var l := m.landing.value;
    Has(m.sched, l.id, Running) && l.id in d.checkpoints && d.checkpoints[l.id].task == l.result
  }

  ghost predicate WorldOk(plan: Plan, w: World) {
    && PlanOk(plan) && DiskOk(plan, w.disk)
    && (w.memory.Some? ==> MemoryOk(plan, w.disk, w.memory.value))
  }

  // ------------------------------------------------------------ single changes

  // Writing a journal that agrees with the checkpoints.
  lemma JournalWritten(plan: Plan, d: Disk, j: Journal)
    requires DiskOk(plan, d) && JournalOk(plan, d.checkpoints, j) && |j.runs| == |d.journal.runs|
    ensures DiskOk(plan, d.(journal := j))
  {
    var d' := d.(journal := j);
    forall id | id in d'.checkpoints ensures CheckpointOk(plan, d', id) {
      assert CheckpointOk(plan, d, id);
      forall n | n in plan.needs[id] ensures DependencyOk(plan, d', d'.checkpoints[id], n) {
        assert DependencyOk(plan, d, d.checkpoints[id], n);
      }
    }
  }

  lemma PersistKeeps(plan: Plan, w: World, m: Memory, wrote: bool)
    requires PlanOk(plan) && DiskOk(plan, w.disk) && MemoryOk(plan, w.disk, m)
    ensures WorldOk(plan, Persist(w, m, wrote))
  {
    if m.broken {
    } else if wrote {
      JournalWritten(plan, w.disk, m.result);
      var d' := w.disk.(journal := m.result);
      forall id | id in plan.needs ensures TaskOk(plan, d', m, id) {
        assert TaskOk(plan, w.disk, m, id);
      }
    } else {
      var m' := m.(broken := true, sched := m.sched.(done := true));
      StepKeepsInv(plan.needs, m.jobs, m.sched, Scheduler.EndContext);
      forall id | id in plan.needs ensures TaskOk(plan, w.disk, m', id) {
        assert TaskOk(plan, w.disk, m, id);
      }
    }
  }

  // Memory gives one task a new status and entry.
  lemma SetEntryOk(plan: Plan, d: Disk, m: Memory, id: Id, r: TaskResult)
    requires JournalOk(plan, d.checkpoints, m.result) && id in plan.needs
    requires EntryOk(plan, d.checkpoints, |m.result.runs|, r, id)
    requires m.result.runs[|m.result.runs| - 1].status != Succeeded
    ensures JournalOk(plan, d.checkpoints, m.result.(tasks := m.result.tasks[id := r]))
  {
    forall other | other in plan.needs
      ensures EntryOk(plan, d.checkpoints, |m.result.runs|, m.result.tasks[id := r][other], other)
    {
      assert m.result.tasks[other] == m.result.tasks[other];
    }
  }

  lemma SetTaskKeeps(plan: Plan, d: Disk, m: Memory, sched: State, landing: Option<Landing>, id: Id, r: TaskResult)
    requires DiskOk(plan, d) && MemoryOk(plan, d, m) && id in plan.needs
    requires Inv(plan.needs, m.jobs, sched)
    requires forall other :: other != id && other in plan.needs ==> sched.states[other] == m.sched.states[other]
    requires sched.states[id] == Success <==> r.status == Success
    requires EntryOk(plan, d.checkpoints, |m.result.runs|, r, id)
    requires m.result.tasks[id].attempts <= r.attempts
    requires m.result.runs[|m.result.runs| - 1].status != Succeeded && !m.integrated
    requires id in d.checkpoints ==> sched.states[id] == Success || landing == Some(Landing(id, d.checkpoints[id].task))
    requires landing == m.landing || (landing == None && m.landing.Some? && m.landing.value.id == id)
    requires landing.Some? ==> Has(sched, landing.value.id, Running)
    ensures MemoryOk(plan, d, SetTask(m.(sched := sched, landing := landing), id, r))
  {
    var m' := SetTask(m.(sched := sched, landing := landing), id, r);
    SetEntryOk(plan, d, m, id, r);
    forall other | other in plan.needs ensures TaskOk(plan, d, m', other) {
      assert TaskOk(plan, d, m, other);
    }
  }

  lemma UnfinishedRecord(plan: Plan, d: Disk, m: Memory, id: Id)
    requires MemoryOk(plan, d, m) && id in plan.needs && !Has(m.sched, id, Success)
    ensures m.result.runs[|m.result.runs| - 1].status != Succeeded
  {
    assert TaskOk(plan, d, m, id);
  }

  lemma NotYetIntegrated(plan: Plan, d: Disk, m: Memory, id: Id)
    requires MemoryOk(plan, d, m) && id in plan.needs && id in m.sched.states && !Terminal(m.sched.states[id])
    ensures !m.integrated
  {
    assert id !in Ended(m.sched.states);
  }

  lemma NotYetCheckpointed(plan: Plan, d: Disk, m: Memory, id: Id)
    requires MemoryOk(plan, d, m) && id in plan.needs && !Has(m.sched, id, Success)
    requires !(m.landing.Some? && m.landing.value.id == id)
    ensures id !in d.checkpoints
  {
    assert TaskOk(plan, d, m, id);
  }

  // ---------------------------------------------------------- the steps in turn

  lemma UnrunKeeps(plan: Plan, w: World, id: Id, status: Status, step: Scheduler.Step, wrote: bool)
    requires WorldOk(plan, w) && w.memory.Some? && w.memory.value.landing.None?
    requires (step == Sweep(id) && status == Cancelled) || (step == Block(id) && status == Blocked)
    requires Scheduler.Enabled(plan.needs, w.memory.value.jobs, w.memory.value.sched, step)
    requires id in w.memory.value.result.tasks
    ensures var m := w.memory.value;
      WorldOk(plan, Persist(w, SetTask(m.(sched := Scheduler.After(m.sched, step)), id, Unrun(m, id, status)), wrote))
  {
    var m := w.memory.value;
    var sched := Scheduler.After(m.sched, step);
    StepKeepsInv(plan.needs, m.jobs, m.sched, step);
    UnfinishedRecord(plan, w.disk, m, id);
    NotYetIntegrated(plan, w.disk, m, id);
    NotYetCheckpointed(plan, w.disk, m, id);
    assert EntryOk(plan, w.disk.checkpoints, |m.result.runs|, m.result.tasks[id], id);
    SetTaskKeeps(plan, w.disk, m, sched, None, id, Unrun(m, id, status));
    PersistKeeps(plan, w, SetTask(m.(sched := sched, landing := None), id, Unrun(m, id, status)), wrote);
  }

  lemma SchedulerStepKeeps(plan: Plan, w: World, step: Scheduler.Step)
    requires WorldOk(plan, w) && w.memory.Some?
    requires step.EndContext? || step.Check? || (step.Launch? && w.memory.value.landing.None?)
    requires Scheduler.Enabled(plan.needs, w.memory.value.jobs, w.memory.value.sched, step)
    ensures var m := w.memory.value;
      WorldOk(plan, w.(memory := Some(m.(sched := Scheduler.After(m.sched, step)))))
  {
    var m := w.memory.value;
    var m' := m.(sched := Scheduler.After(m.sched, step));
    StepKeepsInv(plan.needs, m.jobs, m.sched, step);
    forall id | id in plan.needs ensures TaskOk(plan, w.disk, m', id) {
      assert TaskOk(plan, w.disk, m, id);
    }
  }

  lemma MoveHeadKeeps(plan: Plan, w: World, id: Id, head: Commit)
    requires WorldOk(plan, w) && Durable.Enabled(plan, w, MoveHead(id, head))
    ensures WorldOk(plan, Durable.After(plan, w, MoveHead(id, head)))
  {
    var m, d := w.memory.value, w.disk;
    var d' := Durable.After(plan, w, MoveHead(id, head)).disk;
    NotYetCheckpointed(plan, d, m, id);
    forall other | other in d'.checkpoints ensures CheckpointOk(plan, d', other) {
      assert CheckpointOk(plan, d, other);
      forall n | n in plan.needs[other] ensures DependencyOk(plan, d', d'.checkpoints[other], n) {
        assert DependencyOk(plan, d, d.checkpoints[other], n);
      }
    }
    forall other | other in plan.needs ensures TaskOk(plan, d', m, other) {
      assert TaskOk(plan, d, m, other);
    }
  }

  lemma PlausibleFits(plan: Plan, d: Disk, m: Memory, id: Id, r: TaskResult)
    requires MemoryOk(plan, d, m) && id in plan.needs && Plausible(plan, m, id, r)
    ensures r.attempts <= |m.result.runs| * Budget(plan, id)
  {
    assert TaskOk(plan, d, m, id);
  }

  lemma ReportKeeps(plan: Plan, w: World, id: Id, update: TaskResult, wrote: bool)
    requires WorldOk(plan, w) && Durable.Enabled(plan, w, ReportTask(id, update, wrote))
    ensures WorldOk(plan, Durable.After(plan, w, ReportTask(id, update, wrote)))
  {
    var m := w.memory.value;
    UnfinishedRecord(plan, w.disk, m, id);
    NotYetIntegrated(plan, w.disk, m, id);
    NotYetCheckpointed(plan, w.disk, m, id);
    PlausibleFits(plan, w.disk, m, id, update);
    SetTaskKeeps(plan, w.disk, m, m.sched, m.landing, id, update);
    PersistKeeps(plan, w, SetTask(m, id, update), wrote);
  }

  lemma FailKeeps(plan: Plan, w: World, id: Id, r: TaskResult, wrote: bool)
    requires WorldOk(plan, w) && Durable.Enabled(plan, w, Fail(id, r, wrote))
    ensures WorldOk(plan, Durable.After(plan, w, Fail(id, r, wrote)))
  {
    var m := w.memory.value;
    var sched := Scheduler.After(m.sched, Complete(id, r.status));
    StepKeepsInv(plan.needs, m.jobs, m.sched, Complete(id, r.status));
    UnfinishedRecord(plan, w.disk, m, id);
    NotYetIntegrated(plan, w.disk, m, id);
    NotYetCheckpointed(plan, w.disk, m, id);
    PlausibleFits(plan, w.disk, m, id, r);
    SetTaskKeeps(plan, w.disk, m, sched, None, id, r);
    PersistKeeps(plan, w, SetTask(m.(sched := sched, landing := None), id, r), wrote);
  }

  // A checkpoint is written: its needs are all checkpointed with the commits it records.
  lemma LandKeeps(plan: Plan, w: World, id: Id, r: TaskResult)
    requires WorldOk(plan, w) && Durable.Enabled(plan, w, Land(id, r))
    ensures WorldOk(plan, Durable.After(plan, w, Land(id, r)))
  {
    var m, d := w.memory.value, w.disk;
    var w' := Durable.After(plan, w, Land(id, r));
    var m', d' := w'.memory.value, w'.disk;
    NotYetCheckpointed(plan, d, m, id);
    PlausibleFits(plan, d, m, id, r);
    NewCheckpointOk(plan, w, id, r);
    forall other | other in d'.checkpoints ensures CheckpointOk(plan, d', other) {
      if other != id {
        assert CheckpointOk(plan, d, other);
        forall n | n in plan.needs[other] ensures DependencyOk(plan, d', d'.checkpoints[other], n) {
          assert DependencyOk(plan, d, d.checkpoints[other], n);
        }
      }
    }
    LandEntries(plan, w, id, r);
  }

  lemma NewCheckpointOk(plan: Plan, w: World, id: Id, r: TaskResult)
    requires WorldOk(plan, w) && Durable.Enabled(plan, w, Land(id, r)) && id !in w.disk.checkpoints
    requires r.attempts <= |w.disk.journal.runs| * Budget(plan, id)
    ensures CheckpointOk(plan, Durable.After(plan, w, Land(id, r)).disk, id)
  {
    var m, d := w.memory.value, w.disk;
    var d' := Durable.After(plan, w, Land(id, r)).disk;
    assert Supported(plan.needs, m.sched, id);
    var cp := d'.checkpoints[id];
    forall n | n in plan.needs[id] ensures DependencyOk(plan, d', cp, n) {
      assert Has(m.sched, n, Success) && TaskOk(plan, d, m, n);
      assert EntryOk(plan, d.checkpoints, |m.result.runs|, m.result.tasks[n], n);
    }
    assert cp.dependencies.Keys == Elems(plan.needs[id]);
  }

  lemma MoreCheckpoints(plan: Plan, checkpoints: map<Id, Checkpoint>, j: Journal, id: Id, cp: Checkpoint)
    requires JournalOk(plan, checkpoints, j) && id !in checkpoints
    requires id in j.tasks && j.tasks[id].attempts <= cp.task.attempts
    ensures JournalOk(plan, checkpoints[id := cp], j)
  {
    forall other | other in plan.needs ensures EntryOk(plan, checkpoints[id := cp], |j.runs|, j.tasks[other], other) {
      assert EntryOk(plan, checkpoints, |j.runs|, j.tasks[other], other);
    }
  }

  lemma LandEntries(plan: Plan, w: World, id: Id, r: TaskResult)
    requires WorldOk(plan, w) && Durable.Enabled(plan, w, Land(id, r)) && id !in w.disk.checkpoints
    ensures var w' := Durable.After(plan, w, Land(id, r));
      && JournalOk(plan, w'.disk.checkpoints, w'.disk.journal)
      && MemoryOk(plan, w'.disk, w'.memory.value)
  {
    var m, d := w.memory.value, w.disk;
    var w' := Durable.After(plan, w, Land(id, r));
    var m', d' := w'.memory.value, w'.disk;
    assert TaskOk(plan, d, m, id);
    MoreCheckpoints(plan, d.checkpoints, d.journal, id, d'.checkpoints[id]);
    MoreCheckpoints(plan, d.checkpoints, m.result, id, d'.checkpoints[id]);
    forall other | other in plan.needs ensures TaskOk(plan, d', m', other) {
      assert TaskOk(plan, d, m, other);
    }
  }

  lemma JournalLandingKeeps(plan: Plan, w: World, wrote: bool)
    requires WorldOk(plan, w) && Durable.Enabled(plan, w, JournalLanding(wrote))
    ensures WorldOk(plan, Durable.After(plan, w, JournalLanding(wrote)))
  {
    var m := w.memory.value;
    var l := m.landing.value;
    var sched := Scheduler.After(m.sched, Complete(l.id, Success));
    StepKeepsInv(plan.needs, m.jobs, m.sched, Complete(l.id, Success));
    UnfinishedRecord(plan, w.disk, m, l.id);
    NotYetIntegrated(plan, w.disk, m, l.id);
    assert CheckpointOk(plan, w.disk, l.id);
    assert EntryOk(plan, w.disk.checkpoints, |m.result.runs|, m.result.tasks[l.id], l.id);
    SetTaskKeeps(plan, w.disk, m, sched, None, l.id, l.result);
    PersistKeeps(plan, w, SetTask(m.(sched := sched, landing := None), l.id, l.result), wrote);
  }

  // Replacing memory's journal by one with the same task entries.
  lemma NewResultKeeps(plan: Plan, d: Disk, m: Memory, j: Journal, integrated: bool)
    requires DiskOk(plan, d) && MemoryOk(plan, d, m) && JournalOk(plan, d.checkpoints, j)
    requires j.tasks == m.result.tasks && |j.runs| == |m.result.runs|
    requires integrated ==> Ended(m.sched.states) == plan.needs.Keys && IntegratesAll(j)
    ensures MemoryOk(plan, d, m.(result := j, integrated := integrated))
  {
    forall id | id in plan.needs ensures TaskOk(plan, d, m.(result := j, integrated := integrated), id) {
      assert TaskOk(plan, d, m, id);
    }
  }

  lemma ClosedJournalOk(plan: Plan, w: World, status: RunStatus, at: string, wrote: bool)
    requires WorldOk(plan, w) && Durable.Enabled(plan, w, Finish(status, at, wrote))
    ensures JournalOk(plan, w.disk.checkpoints, CloseRecord(w.memory.value.result, status, at))
  {
    var m, d := w.memory.value, w.disk;
    var j := CloseRecord(m.result, status, at);
    ClosedStaysValid(m.result, status, at);
    forall id | id in plan.needs ensures EntryOk(plan, d.checkpoints, |j.runs|, j.tasks[id], id) {
      assert EntryOk(plan, d.checkpoints, |m.result.runs|, m.result.tasks[id], id);
    }
  }

  lemma FinishKeeps(plan: Plan, w: World, status: RunStatus, at: string, wrote: bool)
    requires WorldOk(plan, w) && Durable.Enabled(plan, w, Finish(status, at, wrote))
    ensures WorldOk(plan, Durable.After(plan, w, Finish(status, at, wrote)))
  {
    var m, d := w.memory.value, w.disk;
    var j := CloseRecord(m.result, status, at);
    ClosedJournalOk(plan, w, status, at, wrote);
    NewResultKeeps(plan, d, m, j, m.integrated);
    if wrote {
      JournalWritten(plan, d, j);
      forall id | id in plan.needs ensures TaskOk(plan, d.(journal := j), m.(result := j), id) {
        assert TaskOk(plan, d, m, id);
      }
    }
  }

  // The integration that comes out contains what it has to because of how it was merged.
  lemma IntegrateKeeps(plan: Plan, w: World, step: Durable.Step)
    requires WorldOk(plan, w) && Durable.Enabled(plan, w, step) && (step.IntegrateFirst? || step.IntegrateAgain?)
    ensures WorldOk(plan, Durable.After(plan, w, step))
  {
    var m := w.memory.value;
    var o := IntegrationOutcome(plan, m, step);
    var results := InOrder(m.result.tasks);
    if step.IntegrateFirst? {
      MergedIntoSound(true, plan.baseline, None, results, step.way);
    } else {
      ReintegratedSound(plan.baseline, m.result.integration, PriorCompleted(m.result.runs), step.recorded, results,
                        step.way);
    }
    SettledJournalOk(plan, w.disk, m, o);
    NewResultKeeps(plan, w.disk, m, m.result.(integration := o.after), o.error.None?);
  }

  lemma SettledJournalOk(plan: Plan, d: Disk, m: Memory, o: Outcome)
    requires MemoryOk(plan, d, m) && InLastRun(m.result.runs)
    requires OutcomeSound(plan.baseline, InOrder(m.result.tasks), o)
    ensures JournalOk(plan, d.checkpoints, m.result.(integration := o.after))
    ensures o.error.None? ==> IntegratesAll(m.result.(integration := o.after))
  {
    NewIntegrationOk(plan, d.checkpoints, m.result, o.after);
    if o.error.None? {
      OutcomeIntegrates(plan.baseline, m.result, o);
    }
  }

  lemma NewIntegrationOk(plan: Plan, checkpoints: map<Id, Checkpoint>, j: Journal, after: Integration)
    requires JournalOk(plan, checkpoints, j) && InLastRun(j.runs) && IntegrationSound(plan.baseline, after)
    ensures JournalOk(plan, checkpoints, j.(integration := after))
  {
    forall id | id in plan.needs ensures EntryOk(plan, checkpoints, |j.runs|, j.(integration := after).tasks[id], id) {
      assert EntryOk(plan, checkpoints, |j.runs|, j.tasks[id], id);
    }
  }

  lemma OutcomeIntegrates(baseline: Commit, j: Journal, o: Outcome)
    requires OutcomeSound(baseline, InOrder(j.tasks), o) && o.error.None?
    ensures IntegratesAll(j.(integration := o.after))
  {
    forall id | id in j.tasks && j.tasks[id].status == Success && j.tasks[id].commit.Some?
      ensures Ancestor(j.tasks[id].commit.value, o.after.commit.value)
    {
      IntegratesEach(baseline, o.after.commit.value, j.tasks, id);
    }
  }

  // Whether a worktree is clean matters to recovery alone.
  lemma TouchKeeps(plan: Plan, w: World, worktree: Worktree, clean: bool)
    requires WorldOk(plan, w)
    ensures WorldOk(plan, Durable.After(plan, w, Touch(worktree, clean)))
  {
    var d, d' := w.disk, Durable.After(plan, w, Touch(worktree, clean)).disk;
    forall id | id in d'.checkpoints ensures CheckpointOk(plan, d', id) {
      assert CheckpointOk(plan, d, id);
      forall n | n in plan.needs[id] ensures DependencyOk(plan, d', d'.checkpoints[id], n) {
        assert DependencyOk(plan, d, d.checkpoints[id], n);
      }
    }
    if w.memory.Some? {
      forall id | id in plan.needs ensures TaskOk(plan, d', w.memory.value, id) {
        assert TaskOk(plan, d, w.memory.value, id);
      }
    }
  }

  // ---------------------------------------------------------------- resuming

  // Every checkpointed worktree is as clean as recovery wants it.
  ghost predicate AllClean(d: Disk) {
    forall id :: id in d.checkpoints && d.checkpoints[id].task.worktree.Some? ==>
      d.checkpoints[id].task.worktree.value !in d.unclean
  }

  ghost predicate CleanAt(d: Disk, id: Id) {
    id in d.checkpoints && d.checkpoints[id].task.worktree.Some? ==> d.checkpoints[id].task.worktree.value !in d.unclean
  }

  lemma AcceptedIffClean(plan: Plan, d: Disk, id: Id)
    requires PlanOk(plan) && DiskOk(plan, d) && id in plan.needs
    ensures Accepted(plan, d, id) <==> CleanAt(d, id)
  {
    assert EntryOk(plan, d.checkpoints, |d.journal.runs|, d.journal.tasks[id], id);
    if id in d.checkpoints { assert CheckpointOk(plan, d, id); }
  }

  // Recovery rejects a directory that the workflow itself wrote exactly when a
  // checkpointed worktree is not clean.
  lemma RecoverableIffClean(plan: Plan, d: Disk)
    requires PlanOk(plan) && DiskOk(plan, d)
    ensures Recoverable(plan, d) <==> AllClean(d)
    ensures ValidHistory(d.journal.runs)
  {
    forall id | id in plan.needs ensures Accepted(plan, d, id) <==> CleanAt(d, id) {
      AcceptedIffClean(plan, d, id);
    }
    forall id | id in d.checkpoints ensures id in plan.needs {
      assert CheckpointOk(plan, d, id);
    }
    assert AllClean(d) <==> forall id :: id in plan.needs ==> CleanAt(d, id);
    CheckpointsAreLinked(plan, d);
  }

  lemma CheckpointsAreLinked(plan: Plan, d: Disk)
    requires PlanOk(plan) && DiskOk(plan, d)
    ensures forall id :: id in plan.needs && id in d.checkpoints ==> Linked(plan, d, id)
  {
    forall id | id in plan.needs && id in d.checkpoints ensures Linked(plan, d, id) {
      assert CheckpointOk(plan, d, id);
      NoDupCardinality(plan.needs[id]);
      var cp := d.checkpoints[id];
      assert |cp.dependencies| == |cp.dependencies.Keys|;
      forall n | n in plan.needs[id] ensures DependencyOk(plan, d, cp, n) {}
    }
  }

  // The recovered successes are closed under needs, so the loop starts as it may.
  lemma ResumedStartsClosed(plan: Plan, d: Disk)
    requires PlanOk(plan) && DiskOk(plan, d)
    ensures Initial(plan.needs, StartOf(Recovered(plan, d)), d.checkpoints.Keys)
  {
    var s := StartOf(Recovered(plan, d));
    forall id | id in plan.needs ensures s.states[id] == if id in d.checkpoints then Success else Pending {
      assert EntryOk(plan, d.checkpoints, |d.journal.runs|, d.journal.tasks[id], id);
      if id in d.checkpoints { assert CheckpointOk(plan, d, id); }
    }
    forall id | id in d.checkpoints ensures id in plan.needs {
      assert CheckpointOk(plan, d, id);
    }
    forall id, n | id in d.checkpoints && n in plan.needs[id] ensures n in d.checkpoints {
      assert CheckpointOk(plan, d, id) && DependencyOk(plan, d, d.checkpoints[id], n);
    }
  }

  lemma RecoveredEntry(plan: Plan, d: Disk, id: Id, runs: nat)
    requires PlanOk(plan) && DiskOk(plan, d) && id in plan.needs && runs >= |d.journal.runs|
    ensures var r := Recovered(plan, d)[id];
      && EntryOk(plan, d.checkpoints, runs, r, id)
      && EntryOk(plan, d.checkpoints, runs, r.(status := Pending, commit := None, checkpointed := false), id)
      && d.journal.tasks[id].attempts <= r.attempts <= |d.journal.runs| * Budget(plan, id)
  {
    assert EntryOk(plan, d.checkpoints, |d.journal.runs|, d.journal.tasks[id], id);
    if id in d.checkpoints { assert CheckpointOk(plan, d, id); }
    TimesRises(|d.journal.runs|, runs, Budget(plan, id));
  }

  lemma TimesRises(a: nat, b: nat, c: nat)
    requires a <= b
    ensures a * c <= b * c
  {
  }

  lemma ResumedTaskOk(plan: Plan, d: Disk, jobs: nat, closedAt: string, startedAt: string, id: Id)
    requires PlanOk(plan) && DiskOk(plan, d) && id in plan.needs
    requires |CloseInterrupted(d.journal, closedAt).runs| == |d.journal.runs|
    ensures var w' := Resumed(plan, d, jobs, closedAt, startedAt);
      && EntryOk(plan, d.checkpoints, |d.journal.runs| + 1, w'.disk.journal.tasks[id], id)
      && EntryOk(plan, d.checkpoints, |d.journal.runs| + 1, w'.memory.value.result.tasks[id], id)
      && TaskOk(plan, w'.disk, w'.memory.value, id)
  {
    var n := |d.journal.runs|;
    RecoveredEntry(plan, d, id, n + 1);
    assert n * Budget(plan, id) + Budget(plan, id) == (n + 1) * Budget(plan, id);
    if id in d.checkpoints { assert CheckpointOk(plan, d, id); }
  }

  lemma LongerHistoryKeeps(plan: Plan, d: Disk, j: Journal, id: Id)
    requires PlanOk(plan) && DiskOk(plan, d) && id in d.checkpoints && |j.runs| == |d.journal.runs| + 1
    ensures CheckpointOk(plan, d.(journal := j), id)
  {
    assert CheckpointOk(plan, d, id);
    assert |d.journal.runs| * Budget(plan, id) <= |j.runs| * Budget(plan, id);
    forall x | x in plan.needs[id] ensures DependencyOk(plan, d.(journal := j), d.checkpoints[id], x) {
      assert DependencyOk(plan, d, d.checkpoints[id], x);
    }
  }

  lemma ResumeKeeps(plan: Plan, w: World, jobs: nat, closedAt: string, startedAt: string)
    requires WorldOk(plan, w) && Durable.Enabled(plan, w, Resume(jobs, closedAt, startedAt))
    ensures WorldOk(plan, Durable.After(plan, w, Resume(jobs, closedAt, startedAt)))
  {
    var d := w.disk;
    var w' := Resumed(plan, d, jobs, closedAt, startedAt);
    var d', m' := w'.disk, w'.memory.value;
    ReopenedStaysValid(d.journal, closedAt, startedAt);
    ResumedStartsClosed(plan, d);
    InitialInv(plan.needs, m'.jobs, m'.sched, d.checkpoints.Keys);
    forall id | id in plan.needs
      ensures EntryOk(plan, d.checkpoints, |d'.journal.runs|, d'.journal.tasks[id], id)
      ensures EntryOk(plan, d.checkpoints, |d'.journal.runs|, m'.result.tasks[id], id)
      ensures TaskOk(plan, d', m', id)
    {
      ResumedTaskOk(plan, d, jobs, closedAt, startedAt, id);
    }
    forall id | id in d'.checkpoints ensures CheckpointOk(plan, d', id) {
      LongerHistoryKeeps(plan, d, d'.journal, id);
    }
  }

  // ------------------------------------------------------------- every step

  lemma SweepKeeps(plan: Plan, w: World, id: Id, wrote: bool)
    requires WorldOk(plan, w) && Durable.Enabled(plan, w, SweepTask(id, wrote))
    ensures WorldOk(plan, Durable.After(plan, w, SweepTask(id, wrote)))
  {
    UnrunKeeps(plan, w, id, Cancelled, Sweep(id), wrote);
  }

  lemma BlockKeeps(plan: Plan, w: World, id: Id, wrote: bool)
    requires WorldOk(plan, w) && Durable.Enabled(plan, w, BlockTask(id, wrote))
    ensures WorldOk(plan, Durable.After(plan, w, BlockTask(id, wrote)))
  {
    UnrunKeeps(plan, w, id, Blocked, Block(id), wrote);
  }

  lemma QuietKeeps(plan: Plan, w: World, step: Durable.Step)
    requires WorldOk(plan, w) && Durable.Enabled(plan, w, step)
    requires step.EndContext? || step.Check? || step.LaunchTask?
    ensures WorldOk(plan, Durable.After(plan, w, step))
  {
    if step.LaunchTask? {
      SchedulerStepKeeps(plan, w, Launch(step.id));
    } else {
      SchedulerStepKeeps(plan, w, if step.Check? then Scheduler.Check else Scheduler.EndContext);
    }
  }

  lemma SaveKeeps(plan: Plan, w: World, wrote: bool)
    requires WorldOk(plan, w) && Durable.Enabled(plan, w, Save(wrote))
    ensures WorldOk(plan, Durable.After(plan, w, Save(wrote)))
  {
    PersistKeeps(plan, w, w.memory.value, wrote);
  }

  lemma CrashKeeps(plan: Plan, w: World)
    requires WorldOk(plan, w) && Durable.Enabled(plan, w, Crash)
    ensures WorldOk(plan, Durable.After(plan, w, Crash))
  {
  }

  lemma JournallingKeeps(plan: Plan, w: World, step: Durable.Step)
    requires WorldOk(plan, w) && Durable.Enabled(plan, w, step) && Journals(step)
    ensures WorldOk(plan, Durable.After(plan, w, step))
  {
    match step
    case SweepTask(id, wrote) => SweepKeeps(plan, w, id, wrote);
    case BlockTask(id, wrote) => BlockKeeps(plan, w, id, wrote);
    case ReportTask(id, update, wrote) => ReportKeeps(plan, w, id, update, wrote);
    case JournalLanding(wrote) => JournalLandingKeeps(plan, w, wrote);
    case Fail(id, r, wrote) => FailKeeps(plan, w, id, r, wrote);
    case Save(wrote) => SaveKeeps(plan, w, wrote);
  }

  // Starting and ending a process, and what happens outside of it.
  predicate Outer(step: Durable.Step) {
    step.Finish? || step.Crash? || step.Resume? || step.Touch?
  }

  lemma OuterKeeps(plan: Plan, w: World, step: Durable.Step)
    requires WorldOk(plan, w) && Durable.Enabled(plan, w, step) && Outer(step)
    ensures WorldOk(plan, Durable.After(plan, w, step))
  {
    match step
    case Finish(status, at, wrote) => FinishKeeps(plan, w, status, at, wrote);
    case Crash => CrashKeeps(plan, w);
    case Resume(jobs, closedAt, startedAt) => ResumeKeeps(plan, w, jobs, closedAt, startedAt);
    case Touch(worktree, clean) => TouchKeeps(plan, w, worktree, clean);
  }

  lemma StepKeepsWorld(plan: Plan, w: World, step: Durable.Step)
    requires WorldOk(plan, w) && Durable.Enabled(plan, w, step)
    ensures WorldOk(plan, Durable.After(plan, w, step))
  {
    if Journals(step) {
      JournallingKeeps(plan, w, step);
    } else if Outer(step) {
      OuterKeeps(plan, w, step);
    } else if step.IntegrateFirst? || step.IntegrateAgain? {
      IntegrateKeeps(plan, w, step);
    } else if step.MoveHead? {
      MoveHeadKeeps(plan, w, step.id, step.head);
    } else if step.Land? {
      LandKeeps(plan, w, step.id, step.result);
    } else {
      QuietKeeps(plan, w, step);
    }
  }

  // --------------------------------------------------------------- every run

  lemma StartIsOk(plan: Plan, w: World)
    requires PlanOk(plan) && Start(plan, w)
    ensures WorldOk(plan, w)
  {
    var m := w.memory.value;
    InitialInv(plan.needs, m.jobs, m.sched, {});
    forall id | id in plan.needs
      ensures EntryOk(plan, map[], 1, w.disk.journal.tasks[id], id) && TaskOk(plan, w.disk, m, id)
    {
    }
  }

  lemma StepAt(plan: Plan, run: seq<World>, i: nat) returns (step: Durable.Step)
    requires Durable.IsRun(plan, run) && i + 1 < |run|
    ensures Durable.Enabled(plan, run[i], step) && run[i + 1] == Durable.After(plan, run[i], step)
  {
    assert Durable.NextAt(plan, run, i);
    step :| Durable.Enabled(plan, run[i], step) && run[i + 1] == Durable.After(plan, run[i], step);
  }

  lemma MomentKeepsWorld(plan: Plan, run: seq<World>, i: nat)
    requires Durable.IsRun(plan, run) && i + 1 < |run| && WorldOk(plan, run[i])
    ensures WorldOk(plan, run[i + 1])
  {
    var step := StepAt(plan, run, i);
    StepKeepsWorld(plan, run[i], step);
  }

  // The invariant holds at every moment of every run.
  lemma {:induction false} RunKeepsWorld(plan: Plan, run: seq<World>, i: nat)
    requires PlanOk(plan) && Durable.IsRun(plan, run) && i < |run|
    ensures WorldOk(plan, run[i])
  {
    if i == 0 {
      StartIsOk(plan, run[0]);
    } else {
      RunKeepsWorld(plan, run, i - 1);
      MomentKeepsWorld(plan, run, i - 1);
    }
  }

  // Crash consistency: at every moment of every run the directory can be resumed if its
  // checkpointed worktrees are clean, and only then; a journal success has a checkpoint that
  // says the same; checkpoints are closed under needs and record the commits of their needs;
  // histories are valid and attempts bounded.
  lemma CrashConsistency(plan: Plan, run: seq<World>, i: nat, id: Id)
    requires PlanOk(plan) && Durable.IsRun(plan, run) && i < |run| && id in plan.needs
    ensures var d := run[i].disk;
      && d.journal.tasks.Keys == plan.needs.Keys && ValidHistory(d.journal.runs)
      && (Recoverable(plan, d) <==> AllClean(d))
      && (d.journal.tasks[id].status == Success ==>
           id in d.checkpoints && d.checkpoints[id].task == d.journal.tasks[id])
      && (id in d.checkpoints ==>
           d.checkpoints[id].task.commit.Some? && Ancestor(plan.baseline, d.checkpoints[id].task.commit.value))
      && (id in d.checkpoints ==> forall n :: n in plan.needs[id] ==> DependencyOk(plan, d, d.checkpoints[id], n))
      && d.journal.tasks[id].attempts <= |d.journal.runs| * Budget(plan, id)
  {
    RunKeepsWorld(plan, run, i);
    var d := run[i].disk;
    RecoverableIffClean(plan, d);
    assert EntryOk(plan, d.checkpoints, |d.journal.runs|, d.journal.tasks[id], id);
    if id in d.checkpoints { assert CheckpointOk(plan, d, id); }
  }

  // So after a crash at any moment of any run, Resume's checks pass exactly when every
  // checkpointed worktree is still clean.
  lemma ResumePassesIffClean(plan: Plan, run: seq<World>, i: nat, jobs: nat, closedAt: string, startedAt: string)
    requires PlanOk(plan) && Durable.IsRun(plan, run) && i < |run|
    requires jobs >= 1 && closedAt != "" && startedAt != ""
    ensures Durable.Enabled(plan, run[i].(memory := None), Resume(jobs, closedAt, startedAt)) <==> AllClean(run[i].disk)
  {
    RunKeepsWorld(plan, run, i);
    RecoverableIffClean(plan, run[i].disk);
  }

  // A run recorded as a success had every task succeed, and its integration holds
  // the baseline and every task's commit.
  lemma RecordedSuccessIsIntegrated(plan: Plan, run: seq<World>, i: nat, id: Id)
    requires PlanOk(plan) && Durable.IsRun(plan, run) && i < |run| && id in plan.needs
    requires var runs := run[i].disk.journal.runs; runs != [] && runs[|runs| - 1].status == Succeeded
    ensures var d := run[i].disk;
      && d.journal.integration.commit.Some? && Ancestor(plan.baseline, d.journal.integration.commit.value)
      && id in d.journal.tasks && d.journal.tasks[id].status == Success
      && id in d.checkpoints && d.checkpoints[id].task == d.journal.tasks[id]
      && d.checkpoints[id].task.commit.Some?
      && Ancestor(d.checkpoints[id].task.commit.value, d.journal.integration.commit.value)
  {
    RunKeepsWorld(plan, run, i);
    var d := run[i].disk;
    assert EntryOk(plan, d.checkpoints, |d.journal.runs|, d.journal.tasks[id], id);
    assert d.journal.tasks[id].status == Success;
    assert CheckpointOk(plan, d, id);
  }

  // The commit of a checkpointed task contains those of everything it transitively needs.
  lemma {:induction false} CommitsContainAncestors(plan: Plan, d: Disk, rank: map<Id, nat>, upper: Id, lower: Id)
    requires PlanOk(plan) && DiskOk(plan, d) && Ranked(plan.needs, rank)
    requires upper in d.checkpoints && Reaches(plan.needs, upper, lower)
    ensures lower in d.checkpoints && d.checkpoints[lower].task.commit.Some? && d.checkpoints[upper].task.commit.Some?
    ensures Ancestor(d.checkpoints[lower].task.commit.value, d.checkpoints[upper].task.commit.value)
    decreases if upper in rank then rank[upper] else 0
  {
    assert CheckpointOk(plan, d, upper);
    if upper != lower {
      ReachesFirst(plan.needs, upper, lower);
      var n :| n in plan.needs[upper] && Reaches(plan.needs, n, lower);
      assert DependencyOk(plan, d, d.checkpoints[upper], n);
      CommitsContainAncestors(plan, d, rank, n, lower);
      AncestorIsTransitive(d.checkpoints[lower].task.commit.value, d.checkpoints[n].task.commit.value,
                           d.checkpoints[upper].task.commit.value);
    }
  }

  // -------------------------------------------------- what later steps leave alone

  // Persisting leaves the checkpoints alone, and shows the old journal or the new.
  lemma PersistFacts(w: World, m: Memory, wrote: bool)
    ensures var w' := Persist(w, m, wrote);
      && w'.disk.checkpoints == w.disk.checkpoints && w'.disk.heads == w.disk.heads
      && (w'.disk.journal == w.disk.journal || w'.disk.journal == m.result)
      && w'.memory.Some? && w'.memory.value.result == m.result && w'.memory.value.landing == m.landing
      && (w'.memory.value.sched == m.sched || w'.memory.value.sched == Scheduler.After(m.sched, Scheduler.EndContext))
  {
  }

  // The memory that a journalling step writes.
  function Written(w: World, step: Durable.Step): Option<Memory> {
    if w.memory.None? then None
    else
      var m := w.memory.value;
      match step
      case SweepTask(id, _) =>
        if id in m.result.tasks
        then Some(SetTask(m.(sched := Put(m.sched, id, Cancelled)), id, Unrun(m, id, Cancelled))) else None
      case BlockTask(id, _) =>
        if id in m.result.tasks
        then Some(SetTask(m.(sched := Put(m.sched, id, Blocked)), id, Unrun(m, id, Blocked))) else None
      case ReportTask(id, update, _) => Some(SetTask(m, id, update))
      case JournalLanding(_) =>
        if m.landing.None? then None
        else
          var l := m.landing.value;
          Some(SetTask(m.(sched := Put(m.sched, l.id, Success).(checked := false), landing := None), l.id, l.result))
      case Fail(id, r, _) => Some(SetTask(m.(sched := Put(m.sched, id, r.status).(checked := false)), id, r))
      case Save(_) => Some(m)
      case _ => None
  }

  predicate Journals(step: Durable.Step) {
    step.SweepTask? || step.BlockTask? || step.ReportTask? || step.JournalLanding? || step.Fail? || step.Save?
  }

  lemma JournallingPersists(plan: Plan, w: World, step: Durable.Step)
    requires Durable.Enabled(plan, w, step) && Journals(step)
    ensures Written(w, step).Some? && Durable.After(plan, w, step) == Persist(w, Written(w, step).value, step.wrote)
  {
    match step
    case SweepTask(_, _) =>
    case BlockTask(_, _) =>
    case ReportTask(_, _, _) =>
    case JournalLanding(_) =>
    case Fail(_, _, _) =>
    case Save(_) =>
  }

  lemma LandKeepsOthers(plan: Plan, w: World, step: Durable.Step, id: Id)
    requires WorldOk(plan, w) && Durable.Enabled(plan, w, step) && step.Land? && id in w.disk.checkpoints
    ensures var w' := Durable.After(plan, w, step);
      id in w'.disk.checkpoints && w'.disk.checkpoints[id] == w.disk.checkpoints[id]
  {
    NotYetCheckpointed(plan, w.disk, w.memory.value, step.id);
  }

  lemma QuietStepKeepsDisk(plan: Plan, w: World, step: Durable.Step)
    requires Durable.Enabled(plan, w, step) && !Journals(step) && !step.Land?
    ensures Durable.After(plan, w, step).disk.checkpoints == w.disk.checkpoints
  {
  }

  lemma StepKeepsCheckpoints(plan: Plan, w: World, step: Durable.Step, id: Id)
    requires WorldOk(plan, w) && Durable.Enabled(plan, w, step) && id in w.disk.checkpoints
    ensures var w' := Durable.After(plan, w, step);
      id in w'.disk.checkpoints && w'.disk.checkpoints[id] == w.disk.checkpoints[id]
  {
    if step.Land? {
      LandKeepsOthers(plan, w, step, id);
    } else if Journals(step) {
      JournallingPersists(plan, w, step);
      PersistFacts(w, Written(w, step).value, step.wrote);
    } else {
      QuietStepKeepsDisk(plan, w, step);
    }
  }

  // The attempts that memory holds for a task do not fall, and are no fewer than the journal's.
  lemma WrittenKeepsAttempts(plan: Plan, w: World, step: Durable.Step, id: Id)
    requires WorldOk(plan, w) && Durable.Enabled(plan, w, step) && Journals(step) && id in plan.needs
    requires Written(w, step).Some?
    ensures id in Written(w, step).value.result.tasks && id in w.disk.journal.tasks
    ensures w.disk.journal.tasks[id].attempts <= Written(w, step).value.result.tasks[id].attempts
  {
    assert TaskOk(plan, w.disk, w.memory.value, id);
    if step.JournalLanding? {
      LandingKeepsAttempts(plan, w, step, id);
    }
  }

  lemma LandingKeepsAttempts(plan: Plan, w: World, step: Durable.Step, id: Id)
    requires WorldOk(plan, w) && Durable.Enabled(plan, w, step) && step.JournalLanding? && id in plan.needs
    requires Written(w, step).Some?
    ensures id in w.memory.value.result.tasks && id in Written(w, step).value.result.tasks
    ensures w.memory.value.result.tasks[id].attempts <= Written(w, step).value.result.tasks[id].attempts
  {
    var m := w.memory.value;
    assert EntryOk(plan, w.disk.checkpoints, |m.result.runs|, m.result.tasks[id], id);
  }

  lemma QuietStepKeepsAttempts(plan: Plan, w: World, step: Durable.Step, id: Id)
    requires WorldOk(plan, w) && Durable.Enabled(plan, w, step) && !Journals(step) && !step.Resume? && id in plan.needs
    ensures var w' := Durable.After(plan, w, step);
      id in w'.disk.journal.tasks && w.disk.journal.tasks[id].attempts <= w'.disk.journal.tasks[id].attempts
  {
    if step.Finish? {
      assert TaskOk(plan, w.disk, w.memory.value, id);
    }
  }

  lemma StepKeepsAttempts(plan: Plan, w: World, step: Durable.Step, id: Id)
    requires WorldOk(plan, w) && Durable.Enabled(plan, w, step) && id in plan.needs
    ensures var w' := Durable.After(plan, w, step);
      id in w'.disk.journal.tasks && w.disk.journal.tasks[id].attempts <= w'.disk.journal.tasks[id].attempts
  {
    if Journals(step) {
      JournallingPersists(plan, w, step);
      WrittenKeepsAttempts(plan, w, step, id);
      PersistFacts(w, Written(w, step).value, step.wrote);
    } else if step.Resume? {
      RecoveredEntry(plan, w.disk, id, |w.disk.journal.runs|);
    } else {
      QuietStepKeepsAttempts(plan, w, step, id);
    }
  }

  // Does this step make a task's own commands run?
  predicate Executes(step: Durable.Step, id: Id) {
    (step.LaunchTask? || step.MoveHead? || step.ReportTask? || step.Land? || step.Fail?) && step.id == id
  }

  // A step that executes a task needs it running, or ready to run, and not landing.
  lemma ExecutedIsUnfinished(plan: Plan, w: World, step: Durable.Step, id: Id)
    requires Durable.Enabled(plan, w, step) && Executes(step, id)
    ensures w.memory.Some? && !Has(w.memory.value.sched, id, Success)
    ensures !(w.memory.value.landing.Some? && w.memory.value.landing.value.id == id)
  {
  }

  lemma CheckpointedIsNotExecuted(plan: Plan, w: World, step: Durable.Step, id: Id)
    requires WorldOk(plan, w) && id in w.disk.checkpoints && Executes(step, id)
    ensures !Durable.Enabled(plan, w, step)
  {
    assert CheckpointOk(plan, w.disk, id);
    if Durable.Enabled(plan, w, step) {
      ExecutedIsUnfinished(plan, w, step, id);
      NotYetCheckpointed(plan, w.disk, w.memory.value, id);
    }
  }

  lemma {:induction false} CheckpointStays(plan: Plan, run: seq<World>, i: nat, j: nat, id: Id)
    requires PlanOk(plan) && Durable.IsRun(plan, run) && i <= j < |run| && id in run[i].disk.checkpoints
    ensures id in run[j].disk.checkpoints && run[j].disk.checkpoints[id] == run[i].disk.checkpoints[id]
    decreases j
  {
    if i < j {
      CheckpointStays(plan, run, i, j - 1, id);
      var taken := StepAt(plan, run, j - 1);
      RunKeepsWorld(plan, run, j - 1);
      StepKeepsCheckpoints(plan, run[j - 1], taken, id);
    }
  }

  // Once a task has a checkpoint, it keeps that checkpoint through every crash and
  // resume, and it is never executed again.
  lemma CheckpointedIsNeverRerun(plan: Plan, run: seq<World>, i: nat, j: nat, id: Id, step: Durable.Step)
    requires PlanOk(plan) && Durable.IsRun(plan, run) && i <= j < |run| && id in run[i].disk.checkpoints
    ensures id in run[j].disk.checkpoints && run[j].disk.checkpoints[id] == run[i].disk.checkpoints[id]
    ensures Executes(step, id) ==> !Durable.Enabled(plan, run[j], step)
  {
    CheckpointStays(plan, run, i, j, id);
    RunKeepsWorld(plan, run, j);
    if Executes(step, id) { CheckpointedIsNotExecuted(plan, run[j], step, id); }
  }

  // The attempts that the journal shows never fall, whatever is lost in a crash.
  lemma {:induction false} AttemptsNeverFall(plan: Plan, run: seq<World>, i: nat, j: nat, id: Id)
    requires PlanOk(plan) && Durable.IsRun(plan, run) && i <= j < |run| && id in plan.needs
    ensures id in run[i].disk.journal.tasks && id in run[j].disk.journal.tasks
    ensures run[i].disk.journal.tasks[id].attempts <= run[j].disk.journal.tasks[id].attempts
    decreases j
  {
    if i < j {
      AttemptsNeverFall(plan, run, i, j - 1, id);
      RunKeepsWorld(plan, run, j - 1);
      var step := StepAt(plan, run, j - 1);
      StepKeepsAttempts(plan, run[j - 1], step, id);
    } else {
      RunKeepsWorld(plan, run, i);
    }
  }

  // ------------------------------------------------- confluence across crashes

  // The scheduler step that a durable step performs, if it performs one.
  function SchedulerStep(w: World, step: Durable.Step): Option<Scheduler.Step> {
    match step
    case EndContext => Some(Scheduler.EndContext)
    case Check => Some(Scheduler.Check)
    case SweepTask(id, _) => Some(Sweep(id))
    case BlockTask(id, _) => Some(Block(id))
    case LaunchTask(id) => Some(Launch(id))
    case Fail(id, r, _) => Some(Complete(id, r.status))
    case JournalLanding(_) =>
      if w.memory.Some? && w.memory.value.landing.Some?
      then Some(Complete(w.memory.value.landing.value.id, Success)) else None
    case _ => None
  }

  ghost function Stepped(s: State, taken: Option<Scheduler.Step>): State {
    if taken.Some? then Scheduler.After(s, taken.value) else s
  }

  ghost predicate Follows(w: World, w': World, taken: Option<Scheduler.Step>)
    requires w.memory.Some?
  {
    && w'.memory.Some?
    && var s' := Stepped(w.memory.value.sched, taken);
       w'.memory.value.sched == s' || w'.memory.value.sched == Scheduler.After(s', Scheduler.EndContext)
  }

  lemma JournallingFollows(plan: Plan, w: World, step: Durable.Step)
    requires Durable.Enabled(plan, w, step) && Journals(step)
    ensures w.memory.Some? && Follows(w, Durable.After(plan, w, step), SchedulerStep(w, step))
  {
    JournallingPersists(plan, w, step);
    PersistFacts(w, Written(w, step).value, step.wrote);
    WrittenFollows(plan, w, step);
  }

  lemma WrittenFollows(plan: Plan, w: World, step: Durable.Step)
    requires Durable.Enabled(plan, w, step) && Journals(step) && Written(w, step).Some?
    ensures w.memory.Some? && Written(w, step).value.sched == Stepped(w.memory.value.sched, SchedulerStep(w, step))
  {
  }

  lemma QuietStepFollows(plan: Plan, w: World, step: Durable.Step)
    requires Durable.Enabled(plan, w, step) && w.memory.Some? && !Journals(step) && !step.Crash?
    ensures Follows(w, Durable.After(plan, w, step), SchedulerStep(w, step))
  {
  }

  lemma TakenIsEnabled(plan: Plan, w: World, step: Durable.Step)
    requires WorldOk(plan, w) && Durable.Enabled(plan, w, step) && w.memory.Some? && !step.Crash?
    ensures var taken := SchedulerStep(w, step);
      taken.Some? ==> Scheduler.Enabled(plan.needs, w.memory.value.jobs, w.memory.value.sched, taken.value)
  {
    if step.JournalLanding? {
      assert LandingOk(w.disk, w.memory.value);
    }
  }

  // Within one process every durable step is a scheduler step or none, after which a
  // failed write may also have ended the context.
  lemma StepRefinesScheduler(plan: Plan, w: World, step: Durable.Step)
    requires WorldOk(plan, w) && Durable.Enabled(plan, w, step) && w.memory.Some? && !step.Crash?
    ensures var s, taken := w.memory.value.sched, SchedulerStep(w, step);
      && (taken.Some? ==> Scheduler.Enabled(plan.needs, w.memory.value.jobs, s, taken.value))
      && Follows(w, Durable.After(plan, w, step), taken)
  {
    TakenIsEnabled(plan, w, step);
    if Journals(step) {
      JournallingFollows(plan, w, step);
    } else {
      QuietStepFollows(plan, w, step);
    }
  }

  // A task that ends by itself ends as its own outcome says.
  ghost predicate HonestDurableStep(own: map<Id, Status>, step: Durable.Step) {
    match step
    case Land(id, r) => id in own && own[id] == Success
    case Fail(id, r, wrote) => r.status == Failed ==> id in own && own[id] == Failed
    case _ => true
  }

  ghost predicate HonestNext(plan: Plan, own: map<Id, Status>, w: World, w': World) {
    exists step :: Durable.Enabled(plan, w, step) && w' == Durable.After(plan, w, step) && HonestDurableStep(own, step)
  }

  ghost predicate HonestAt(plan: Plan, own: map<Id, Status>, run: seq<World>, k: nat)
    requires k + 1 < |run|
  {
    HonestNext(plan, own, run[k], run[k + 1])
  }

  ghost predicate IsHonestRun(plan: Plan, own: map<Id, Status>, run: seq<World>) {
    Durable.IsRun(plan, run) &&
    forall k: nat {:trigger HonestAt(plan, own, run, k)} :: k + 1 < |run| ==> HonestAt(plan, own, run, k)
  }

  ghost predicate HonestWorld(own: map<Id, Status>, w: World) {
    && (forall id :: id in w.disk.checkpoints ==> id in own && own[id] == Success)
    && (w.memory.Some? ==> Honest(own, w.memory.value.sched))
  }

  lemma FollowsStaysHonest(own: map<Id, Status>, w: World, w': World, taken: Option<Scheduler.Step>)
    requires w.memory.Some? && Follows(w, w', taken) && Honest(own, Stepped(w.memory.value.sched, taken))
    ensures Honest(own, w'.memory.value.sched)
  {
  }

  // What a step adds to the checkpoints.
  lemma CheckpointsGrow(plan: Plan, w: World, step: Durable.Step)
    requires Durable.Enabled(plan, w, step)
    ensures Durable.After(plan, w, step).disk.checkpoints.Keys ==
      w.disk.checkpoints.Keys + if step.Land? then {step.id} else {}
  {
    if Journals(step) {
      JournallingPersists(plan, w, step);
      PersistFacts(w, Written(w, step).value, step.wrote);
    } else if !step.Land? {
      QuietStepKeepsDisk(plan, w, step);
    }
  }

  // What honesty needs to know of the invariant.
  lemma EarnedOutcome(plan: Plan, w: World, step: Durable.Step)
    requires WorldOk(plan, w) && Durable.Enabled(plan, w, step)
    ensures step.Fail? ==> step.result.status != Success
    ensures step.JournalLanding? ==>
      w.memory.Some? && w.memory.value.landing.Some? && w.memory.value.landing.value.id in w.disk.checkpoints
  {
    if step.JournalLanding? {
      assert LandingOk(w.disk, w.memory.value);
    }
  }

  lemma InnerStepKeepsHonest(plan: Plan, own: map<Id, Status>, w: World, step: Durable.Step)
    requires WorldOk(plan, w) && Durable.Enabled(plan, w, step) && HonestDurableStep(own, step)
    requires HonestWorld(own, w) && w.memory.Some? && !step.Crash?
    ensures var w' := Durable.After(plan, w, step); w'.memory.Some? && Honest(own, w'.memory.value.sched)
  {
    StepRefinesScheduler(plan, w, step);
    EarnedOutcome(plan, w, step);
    OutcomeIsOwn(own, w, step);
    FollowsStaysHonest(own, w, Durable.After(plan, w, step), SchedulerStep(w, step));
  }

  lemma StepKeepsHonest(plan: Plan, own: map<Id, Status>, w: World, step: Durable.Step)
    requires WorldOk(plan, w) && Durable.Enabled(plan, w, step) && HonestDurableStep(own, step)
    requires HonestWorld(own, w)
    ensures HonestWorld(own, Durable.After(plan, w, step))
  {
    CheckpointsGrow(plan, w, step);
    if step.Resume? {
      ResumedIsHonest(plan, own, w.disk, step.jobs, step.closedAt, step.startedAt);
    } else if w.memory.Some? && !step.Crash? {
      InnerStepKeepsHonest(plan, own, w, step);
    } else {
      IdleStep(plan, w, step);
    }
  }

  lemma IdleStep(plan: Plan, w: World, step: Durable.Step)
    requires Durable.Enabled(plan, w, step) && !step.Resume? && (w.memory.None? || step.Crash?)
    ensures Durable.After(plan, w, step).memory.None?
  {
  }

  lemma ResumedIsHonest(plan: Plan, own: map<Id, Status>, d: Disk, jobs: nat, closedAt: string, startedAt: string)
    requires PlanOk(plan) && DiskOk(plan, d) && HonestWorld(own, World(d, None))
    ensures HonestWorld(own, Resumed(plan, d, jobs, closedAt, startedAt))
  {
    ResumedStartsClosed(plan, d);
  }

  lemma PutStaysHonest(own: map<Id, Status>, s: State, id: Id, status: Status)
    requires Honest(own, s) && (status == Success || status == Failed ==> id in own && own[id] == status)
    ensures Honest(own, Put(s, id, status))
  {
  }

  lemma OutcomeIsOwn(own: map<Id, Status>, w: World, step: Durable.Step)
    requires HonestDurableStep(own, step) && HonestWorld(own, w) && w.memory.Some?
    requires step.Fail? ==> step.result.status != Success
    requires step.JournalLanding? ==>
      w.memory.value.landing.Some? && w.memory.value.landing.value.id in w.disk.checkpoints
    ensures Honest(own, Stepped(w.memory.value.sched, SchedulerStep(w, step)))
  {
    var m := w.memory.value;
    match step
    case Fail(id, r, _) => PutStaysHonest(own, m.sched, id, r.status);
    case JournalLanding(_) => PutStaysHonest(own, m.sched, m.landing.value.id, Success);
    case SweepTask(id, _) => PutStaysHonest(own, m.sched, id, Cancelled);
    case BlockTask(id, _) => PutStaysHonest(own, m.sched, id, Blocked);
    case LaunchTask(id) => PutStaysHonest(own, m.sched, id, Running);
    case _ =>
  }

  lemma {:induction false} HonestRunStaysHonest(plan: Plan, own: map<Id, Status>, run: seq<World>, i: nat)
    requires PlanOk(plan) && IsHonestRun(plan, own, run) && i < |run|
    ensures HonestWorld(own, run[i])
  {
    if i > 0 {
      HonestRunStaysHonest(plan, own, run, i - 1);
      RunKeepsWorld(plan, run, i - 1);
      assert HonestAt(plan, own, run, i - 1);
      NextKeepsHonest(plan, own, run[i - 1], run[i]);
    }
  }

  lemma NextKeepsHonest(plan: Plan, own: map<Id, Status>, w: World, w': World)
    requires WorldOk(plan, w) && HonestWorld(own, w) && HonestNext(plan, own, w, w')
    ensures HonestWorld(own, w')
  {
    var step :| Durable.Enabled(plan, w, step) && w' == Durable.After(plan, w, step) && HonestDurableStep(own, step);
    StepKeepsHonest(plan, own, w, step);
  }

  // However often a plan is interrupted and resumed, the run that finally finishes
  // uncancelled ends with the statuses of an uninterrupted execution.
  lemma ConfluenceAcrossCrashes(plan: Plan, own: map<Id, Status>, rank: map<Id, nat>, run: seq<World>)
    requires PlanOk(plan) && Ranked(plan.needs, rank) && own.Keys == plan.needs.Keys && IsHonestRun(plan, own, run)
    requires var last := run[|run| - 1].memory;
      last.Some? && !last.value.sched.done && Ended(last.value.sched.states) == plan.needs.Keys
    ensures run[|run| - 1].memory.value.sched.states == map id | id in plan.needs :: Verdict(plan.needs, own, rank, id)
  {
    RunKeepsWorld(plan, run, |run| - 1);
    HonestRunStaysHonest(plan, own, run, |run| - 1);
    FinishedWorldIsVerdict(plan, own, rank, run[|run| - 1]);
  }

  lemma FinishedWorldIsVerdict(plan: Plan, own: map<Id, Status>, rank: map<Id, nat>, w: World)
    requires WorldOk(plan, w) && HonestWorld(own, w) && w.memory.Some?
    requires Ranked(plan.needs, rank) && own.Keys == plan.needs.Keys
    requires !w.memory.value.sched.done && Ended(w.memory.value.sched.states) == plan.needs.Keys
    ensures w.memory.value.sched.states == map id | id in plan.needs :: Verdict(plan.needs, own, rank, id)
  {
    FinishedIsVerdictMap(plan.needs, w.memory.value.jobs, own, rank, w.memory.value.sched);
  }
}
