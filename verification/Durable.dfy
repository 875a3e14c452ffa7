// workflow/resume.go with the persistence of workflow/executor.go: a run directory
// holds a journal (result.json), one checkpoint per completed task, and the task
// worktrees. A world is that directory plus, while the process lives, its memory.
module Durable {
  import opened Ids
  import opened Graph
  import opened Git
  import opened Scheduler
  import opened Worker
  import opened Integrator

  datatype Plan = Plan(needs: Needs, attempts: map<Id, nat>, baseline: Commit)

  datatype RunStatus = InProgress | Succeeded | RunFailed | RunCancelled | Interrupted | Unrecognised(text: string)

  datatype RunRecord = RunRecord(
    sequence: int, resumed: bool, startedAt: string, finishedAt: string, status: RunStatus, tasks: map<Id, TaskResult>)

  datatype Journal = Journal(tasks: map<Id, TaskResult>, runs: seq<RunRecord>, integration: Integration)

  datatype Checkpoint = Checkpoint(baseline: Commit, task: TaskResult, dependencies: map<Id, Commit>)

  // `unclean` are the worktrees whose git status is not empty.
  datatype Disk = Disk(
    journal: Journal, checkpoints: map<Id, Checkpoint>, heads: map<Worktree, Commit>, unclean: set<Worktree>)

  // A success whose checkpoint is written and whose journal entry is not.
  datatype Landing = Landing(id: Id, result: TaskResult)

  // `jobs` is the limit of this run, `broken` is persistErr, `offsets` the attempts with
  // which each task entered this run, `integrated` that the integration went through.
  datatype Memory = Memory(
    jobs: nat, result: Journal, sched: State, offsets: map<Id, nat>, broken: bool, landing: Option<Landing>,
    integrated: bool)

  datatype World = World(disk: Disk, memory: Option<Memory>)

  ghost predicate PlanOk(plan: Plan) {
    && Known(plan.needs) && Unrepeated(plan.needs) && !HasCycle(plan.needs)
    && plan.attempts.Keys == plan.needs.Keys
  }

  // ------------------------------------------------------------- run history

  predicate RecordOk(runs: seq<RunRecord>, i: nat)
    requires i < |runs|
  {
    var run := runs[i];
    && run.sequence == i + 1 && run.startedAt != "" && run.resumed == (i > 0)
    && match run.status
       case InProgress => i == |runs| - 1 && run.finishedAt == ""
       case Unrecognised(_) => false
       case _ => run.finishedAt != ""
  }

  ghost predicate ValidHistory(runs: seq<RunRecord>) {
    runs != [] && forall i: nat :: i < |runs| ==> RecordOk(runs, i)
  }

  lemma RecordsAre(runs: seq<RunRecord>)
    ensures forall i: nat :: i < |runs| ==> (RecordOk(runs, i) <==>
      && runs[i].sequence == i + 1 && runs[i].startedAt != "" && (runs[i].resumed <==> i > 0)
      && !runs[i].status.Unrecognised?
      && if runs[i].status == InProgress then i == |runs| - 1 && runs[i].finishedAt == "" else runs[i].finishedAt != "")
  {
  }

  // validateRunHistory
  method ValidateRunHistory(runs: seq<RunRecord>) returns (ok: bool)
    ensures ok <==> ValidHistory(runs)
    ensures ok <==> runs != [] && forall i :: 0 <= i < |runs| ==>
      && runs[i].sequence == i + 1 && runs[i].startedAt != "" && (runs[i].resumed <==> i > 0)
      && !runs[i].status.Unrecognised?
      && if runs[i].status == InProgress then i == |runs| - 1 && runs[i].finishedAt == "" else runs[i].finishedAt != ""
  {
    RecordsAre(runs);
    if |runs| == 0 {
      return false;
    }
    for index := 0 to |runs|
      invariant forall i: nat :: i < index ==> RecordOk(runs, i)
    {
      var run := runs[index];
      if run.sequence != index + 1 || run.startedAt == "" || run.resumed != (index > 0) {
        assert !RecordOk(runs, index);
        return false;
      }
      match run.status {
        case InProgress =>
          if index != |runs| - 1 || run.finishedAt != "" {
            assert !RecordOk(runs, index);
            return false;
          }
        case Unrecognised(_) =>
          assert !RecordOk(runs, index);
          return false;
        case _ =>
          if run.finishedAt == "" {
            assert !RecordOk(runs, index);
            return false;
          }
      }
    }
    return true;
  }

  // finishRunRecord, and closeInterruptedRun with status Interrupted.
  function CloseRecord(j: Journal, status: RunStatus, at: string): Journal {
    if j.runs == [] then j
    else
      var last := |j.runs| - 1;
      j.(runs := j.runs[last := j.runs[last].(finishedAt := at, status := status, tasks := j.tasks)])
  }

  lemma ClosingKeepsHistory(j: Journal, status: RunStatus, at: string)
    requires ValidHistory(j.runs) && at != "" && !status.InProgress? && !status.Unrecognised?
    ensures ValidHistory(CloseRecord(j, status, at).runs)
    ensures var last := |j.runs| - 1;
      CloseRecord(j, status, at).runs ==
        j.runs[..last] + [j.runs[last].(status := status, finishedAt := at, tasks := j.tasks)]
  {
    var runs := CloseRecord(j, status, at).runs;
    forall i: nat | i < |runs| ensures RecordOk(runs, i) {
      assert RecordOk(j.runs, i);
    }
  }

  function CloseInterrupted(j: Journal, at: string): Journal {
    if j.runs != [] && j.runs[|j.runs| - 1].status.InProgress? then CloseRecord(j, Interrupted, at) else j
  }

  function OpenRecord(runs: seq<RunRecord>, at: string): seq<RunRecord> {
    runs + [RunRecord(|runs| + 1, true, at, "", InProgress, map[])]
  }

  lemma ReopeningKeepsHistory(j: Journal, closedAt: string, startedAt: string)
    requires ValidHistory(j.runs) && closedAt != "" && startedAt != ""
    ensures ValidHistory(OpenRecord(CloseInterrupted(j, closedAt).runs, startedAt))
    ensures var last := j.runs[|j.runs| - 1];
      OpenRecord(CloseInterrupted(j, closedAt).runs, startedAt) ==
        j.runs[..|j.runs| - 1]
        + [if last.status == InProgress then last.(status := Interrupted, finishedAt := closedAt, tasks := j.tasks)
           else last]
        + [RunRecord(|j.runs| + 1, true, startedAt, "", InProgress, map[])]
  {
    var closed := CloseInterrupted(j, closedAt).runs;
    if j.runs[|j.runs| - 1].status.InProgress? { ClosingKeepsHistory(j, Interrupted, closedAt); }
    var runs := OpenRecord(closed, startedAt);
    forall i: nat | i < |runs| ensures RecordOk(runs, i) {
      if i < |closed| { assert RecordOk(closed, i); }
    }
  }

  // Only that they stay valid.
  lemma ClosedStaysValid(j: Journal, status: RunStatus, at: string)
    requires ValidHistory(j.runs) && at != "" && !status.InProgress? && !status.Unrecognised?
    ensures ValidHistory(CloseRecord(j, status, at).runs)
  {
    ClosingKeepsHistory(j, status, at);
  }

  lemma ReopenedStaysValid(j: Journal, closedAt: string, startedAt: string)
    requires ValidHistory(j.runs) && closedAt != "" && startedAt != ""
    ensures ValidHistory(OpenRecord(CloseInterrupted(j, closedAt).runs, startedAt))
  {
    ReopeningKeepsHistory(j, closedAt, startedAt);
  }

  // ------------------------------------------------------------------ recovery

  datatype RecoverError =
    | MissingCheckpoint(id: Id)
    | InvalidIdentity(id: Id)
    | ConflictingResult(id: Id)
    | ConflictingAttempts(id: Id)
    | BadWorktree(id: Id)
    | UncleanWorktree(id: Id)
    | MissingBaseline(id: Id)
    | InvalidDependencies(id: Id)

  // The checks on one task's checkpoint, against the journal and its worktree.
  predicate Accepted(plan: Plan, d: Disk, id: Id)
    requires id in d.journal.tasks
  {
    var journal := d.journal.tasks[id];
    if id !in d.checkpoints then journal.status != Success
    else
      var cp := d.checkpoints[id];
      && cp.baseline == plan.baseline && cp.task.status == Success && cp.task.commit.Some? && cp.task.checkpointed
      && (journal.status == Success ==>
           journal.commit == cp.task.commit && journal.worktree == cp.task.worktree
           && journal.attempts == cp.task.attempts && journal.checkpointed)
      && (journal.status != Success ==> journal.attempts <= cp.task.attempts)
      && cp.task.worktree.Some? && cp.task.worktree.value in d.heads
      && Some(d.heads[cp.task.worktree.value]) == cp.task.commit
      && cp.task.worktree.value !in d.unclean
      && Ancestor(plan.baseline, cp.task.commit.value)
  }

  // The checks between a checkpoint and those of its needs.
  predicate Linked(plan: Plan, d: Disk, id: Id)
    requires id in plan.needs && id in d.checkpoints
  {
    var cp := d.checkpoints[id];
    && |cp.dependencies| == |plan.needs[id]|
    && cp.task.commit.Some?
    && forall n :: n in plan.needs[id] ==>
         && n in d.checkpoints && n in cp.dependencies
         && Some(cp.dependencies[n]) == d.checkpoints[n].task.commit
         && Ancestor(cp.dependencies[n], cp.task.commit.value)
  }

  ghost predicate Recoverable(plan: Plan, d: Disk)
    requires d.journal.tasks.Keys == plan.needs.Keys
  {
    && (forall id :: id in plan.needs ==> Accepted(plan, d, id))
    && (forall id :: id in plan.needs && id in d.checkpoints ==> Linked(plan, d, id))
  }

  function Recovered(plan: Plan, d: Disk): map<Id, TaskResult>
    requires d.journal.tasks.Keys == plan.needs.Keys
  {
    map id | id in plan.needs :: if id in d.checkpoints then d.checkpoints[id].task else d.journal.tasks[id]
  }

  // The first loop of recoverCompletedTasks, for one task.
  method AcceptCheckpoint(plan: Plan, d: Disk, id: Id) returns (error: Option<RecoverError>)
    requires id in d.journal.tasks
    ensures error.None? <==> Accepted(plan, d, id)
  {
    var journal := d.journal.tasks[id];
    if id !in d.checkpoints {
      return if journal.status == Success then Some(MissingCheckpoint(id)) else None;
    }
    var cp := d.checkpoints[id];
    if cp.baseline != plan.baseline || cp.task.status != Success || cp.task.commit.None? || !cp.task.checkpointed {
      return Some(InvalidIdentity(id));
    }
    if journal.status == Success
      && (journal.commit != cp.task.commit || journal.worktree != cp.task.worktree
          || journal.attempts != cp.task.attempts || !journal.checkpointed) {
      return Some(ConflictingResult(id));
    }
    if journal.status != Success && journal.attempts > cp.task.attempts {
      return Some(ConflictingAttempts(id));
    }
    if cp.task.worktree.None? || cp.task.worktree.value !in d.heads
        || d.heads[cp.task.worktree.value] != cp.task.commit.value {
      return Some(BadWorktree(id));
    }
    if cp.task.worktree.value in d.unclean {
      return Some(UncleanWorktree(id));
    }
    if !Ancestor(plan.baseline, cp.task.commit.value) {
      return Some(MissingBaseline(id));
    }
    return None;
  }

  method LinkCheckpoint(plan: Plan, d: Disk, id: Id) returns (linked: bool)
    requires id in plan.needs && id in d.checkpoints && d.checkpoints[id].task.commit.Some?
    ensures linked <==> Linked(plan, d, id)
  {
    var cp := d.checkpoints[id];
    var needs := plan.needs[id];
    if |cp.dependencies| != |needs| {
      return false;
    }
    for k := 0 to |needs|
      invariant forall i :: 0 <= i < k ==>
        && needs[i] in d.checkpoints && needs[i] in cp.dependencies
        && Some(cp.dependencies[needs[i]]) == d.checkpoints[needs[i]].task.commit
        && Ancestor(cp.dependencies[needs[i]], cp.task.commit.value)
    {
      var need := needs[k];
      assert need in plan.needs[id];
      if need !in d.checkpoints || need !in cp.dependencies
          || Some(cp.dependencies[need]) != d.checkpoints[need].task.commit {
        return false;
      }
      if !Ancestor(cp.dependencies[need], cp.task.commit.value) {
        return false;
      }
    }
    return true;
  }

  // recoverCompletedTasks: the recovered results, or the first check that fails.
  method RecoverCompletedTasks(plan: Plan, d: Disk, tasks: seq<Id>)
    returns (r: Result<map<Id, TaskResult>, RecoverError>)
    requires d.journal.tasks.Keys == plan.needs.Keys && forall id :: id in tasks <==> id in plan.needs
    ensures r.Ok? <==> Recoverable(plan, d)
    ensures r.Ok? ==> r.value == Recovered(plan, d)
  {
    r := AcceptCheckpoints(plan, d, tasks);
    if r.Ok? {
      var error := LinkCheckpoints(plan, d, tasks);
      if error.Some? {
        r := Err(error.value);
      }
    }
  }

  method AcceptCheckpoints(plan: Plan, d: Disk, tasks: seq<Id>) returns (r: Result<map<Id, TaskResult>, RecoverError>)
    requires d.journal.tasks.Keys == plan.needs.Keys && forall id :: id in tasks <==> id in plan.needs
    ensures r.Ok? <==> forall id :: id in plan.needs ==> Accepted(plan, d, id)
    ensures r.Ok? ==> r.value == Recovered(plan, d)
  {
    var results := d.journal.tasks;
    for k := 0 to |tasks|
      invariant Accepting(plan, d, Elems(tasks[..k]), results)
    {
      var id := tasks[k];
      assert id in plan.needs;
      var error := AcceptCheckpoint(plan, d, id);
      if error.Some? {
        return Err(error.value);
      }
      assert tasks[..k + 1] == tasks[..k] + [id];
      ElemsSnoc(tasks[..k], id);
      AcceptingNext(plan, d, Elems(tasks[..k]), results, id);
      if id in d.checkpoints {
        results := results[id := d.checkpoints[id].task];
      }
    }
    assert tasks[..|tasks|] == tasks && Elems(tasks) == plan.needs.Keys;
    AllAccepted(plan, d, results);
    return Ok(results);
  }

  // The tasks looked at are accepted, and their checkpoints' results taken over.
  ghost predicate Accepting(plan: Plan, d: Disk, seen: set<Id>, results: map<Id, TaskResult>) {
    && seen <= plan.needs.Keys && results.Keys == plan.needs.Keys == d.journal.tasks.Keys
    && (forall id :: id in seen ==> Accepted(plan, d, id))
    && forall id :: id in plan.needs ==>
      results[id] == if id in seen && id in d.checkpoints then d.checkpoints[id].task else d.journal.tasks[id]
  }

  lemma AcceptingNext(plan: Plan, d: Disk, seen: set<Id>, results: map<Id, TaskResult>, id: Id)
    requires Accepting(plan, d, seen, results) && id in plan.needs && Accepted(plan, d, id)
    ensures Accepting(plan, d, seen + {id},
                      if id in d.checkpoints then results[id := d.checkpoints[id].task] else results)
  {
  }

  lemma AllAccepted(plan: Plan, d: Disk, results: map<Id, TaskResult>)
    requires Accepting(plan, d, plan.needs.Keys, results)
    ensures results == Recovered(plan, d)
  {
  }

  method LinkCheckpoints(plan: Plan, d: Disk, tasks: seq<Id>) returns (error: Option<RecoverError>)
    requires d.journal.tasks.Keys == plan.needs.Keys && forall id :: id in tasks <==> id in plan.needs
    requires forall id :: id in plan.needs ==> Accepted(plan, d, id)
    ensures error.None? <==> forall id :: id in plan.needs && id in d.checkpoints ==> Linked(plan, d, id)
  {
    for k := 0 to |tasks|
      invariant forall i :: 0 <= i < k && tasks[i] in d.checkpoints ==> Linked(plan, d, tasks[i])
    {
      var id := tasks[k];
      assert id in plan.needs;
      if id in d.checkpoints {
        assert Accepted(plan, d, id);
        var linked := LinkCheckpoint(plan, d, id);
        if !linked {
          return Some(InvalidDependencies(id));
        }
      }
    }
    return None;
  }

  // --------------------------------------------------------------- step relation

  datatype Step =
    | EndContext
    | Check
    | SweepTask(id: Id, wrote: bool)
    | BlockTask(id: Id, wrote: bool)
    | LaunchTask(id: Id)
    | MoveHead(id: Id, head: Commit)                       // the task's own commands
    | ReportTask(id: Id, update: TaskResult, wrote: bool)  // update() by a worker
    | Land(id: Id, result: TaskResult)                     // writeTaskCheckpoint
    | JournalLanding(wrote: bool)                          // update() after it
    | Fail(id: Id, result: TaskResult, wrote: bool)        // any other completion
    | IntegrateFirst(way: Way)                             // integrateResults
    | IntegrateAgain(recorded: Recorded, way: Way)         // integrateResumedResults
    | Save(wrote: bool)
    | Finish(status: RunStatus, at: string, wrote: bool)
    | Crash
    | Resume(jobs: nat, closedAt: string, startedAt: string)
    | Touch(worktree: Worktree, clean: bool)               // by anyone, at any time

  // persist and update: write the whole journal unless an earlier write failed; a
  // failing write ends the run context.
  function Persist(w: World, m: Memory, wrote: bool): World {
    if m.broken then w.(memory := Some(m))
    else if wrote then World(w.disk.(journal := m.result), Some(m))
    else w.(memory := Some(m.(broken := true, sched := m.sched.(done := true))))
  }

  function SetTask(m: Memory, id: Id, r: TaskResult): Memory {
    m.(result := m.result.(tasks := m.result.tasks[id := r]))
  }

  function Budget(plan: Plan, id: Id): nat {
    if id in plan.attempts then plan.attempts[id] else 0
  }

  // What a result of the current run may say about attempts and worktree.
  ghost predicate Plausible(plan: Plan, m: Memory, id: Id, r: TaskResult) {
    && id in m.result.tasks && id in m.offsets
    && m.result.tasks[id].attempts <= r.attempts <= m.offsets[id] + Budget(plan, id)
    && (r.worktree.Some? ==> r.worktree.value == Worktree(id, |m.result.runs|))
  }

  // The commits of the needs, as memory has them.
  ghost predicate NeedsCommitted(plan: Plan, m: Memory, id: Id) {
    id in plan.needs && forall n :: n in plan.needs[id] ==> n in m.result.tasks && m.result.tasks[n].commit.Some?
  }

  ghost function DependencyCommits(plan: Plan, m: Memory, id: Id): map<Id, Commit>
    requires NeedsCommitted(plan, m, id)
  {
    map n | n in plan.needs[id] :: m.result.tasks[n].commit.value
  }

  // A worker's success: what executeTaskAt guarantees of it.
  ghost predicate Earned(plan: Plan, w: World, m: Memory, id: Id, r: TaskResult) {
    && Plausible(plan, m, id, r) && NeedsCommitted(plan, m, id)
    && r.status == Success && r.commit.Some? && !r.checkpointed
    && r.worktree.Some? && r.worktree.value in w.disk.heads && w.disk.heads[r.worktree.value] == r.commit.value
    && Ancestor(plan.baseline, r.commit.value)
    && forall n :: n in plan.needs[id] ==> Ancestor(m.result.tasks[n].commit.value, r.commit.value)
  }

  ghost predicate InLastRun(runs: seq<RunRecord>) {
    runs != [] && runs[|runs| - 1].status.InProgress?
  }

  ghost predicate AllSucceeded(j: Journal) {
    forall id :: id in j.tasks ==> j.tasks[id].status == Success
  }

  // The run before the one in progress was a success.
  predicate PriorCompleted(runs: seq<RunRecord>) {
    |runs| >= 2 && runs[|runs| - 2].status == Succeeded
  }

  // The main loop is over, and the integration is this run's next business.
  ghost predicate MayIntegrate(plan: Plan, m: Memory, way: Way) {
    && m.landing.None? && Ended(m.sched.states) == plan.needs.Keys && InLastRun(m.result.runs)
    && |way.turns| == |m.result.tasks|
  }

  // The first run integrates afresh, every resumed one tries to keep what is recorded.
  ghost function IntegrationOutcome(plan: Plan, m: Memory, step: Step): Outcome
    requires step.IntegrateFirst? || step.IntegrateAgain?
    requires MayIntegrate(plan, m, step.way)
  {
    var results := InOrder(m.result.tasks);
    if step.IntegrateFirst? then MergedInto(true, plan.baseline, None, results, step.way)
    else Reintegrated(plan.baseline, m.result.integration, PriorCompleted(m.result.runs), step.recorded, results,
                      step.way)
  }

  ghost predicate Enabled(plan: Plan, w: World, step: Step) {
    if step.Crash? then w.memory.Some?
    else if step.Touch? then true
    else if step.Resume? then
      && w.memory.None? && step.jobs >= 1 && step.closedAt != "" && step.startedAt != ""
      && w.disk.journal.tasks.Keys == plan.needs.Keys
      && ValidHistory(w.disk.journal.runs) && Recoverable(plan, w.disk)
    else if w.memory.None? then false
    else
      var m := w.memory.value;
      match step
      case EndContext => true
      case Check => m.landing.None?
      case SweepTask(id, _) =>
        m.landing.None? && Scheduler.Enabled(plan.needs, m.jobs, m.sched, Sweep(id)) && id in m.result.tasks
      case BlockTask(id, _) =>
        m.landing.None? && Scheduler.Enabled(plan.needs, m.jobs, m.sched, Block(id)) && id in m.result.tasks
      case LaunchTask(id) => m.landing.None? && Scheduler.Enabled(plan.needs, m.jobs, m.sched, Launch(id))
      case MoveHead(id, head) => Has(m.sched, id, Running) && !(m.landing.Some? && m.landing.value.id == id)
      case ReportTask(id, update, _) =>
        && Has(m.sched, id, Running) && !(m.landing.Some? && m.landing.value.id == id)
        && Plausible(plan, m, id, update) && update.status == Running && update.commit == None && !update.checkpointed
      case Land(id, r) => m.landing.None? && Has(m.sched, id, Running) && Earned(plan, w, m, id, r)
      case JournalLanding(_) => m.landing.Some?
      case Fail(id, r, _) =>
        && m.landing.None? && Scheduler.Enabled(plan.needs, m.jobs, m.sched, Complete(id, r.status))
        && Plausible(plan, m, id, r) && r.status != Success && r.commit == None && !r.checkpointed
      case IntegrateFirst(way) => MayIntegrate(plan, m, way) && |m.result.runs| == 1
      case IntegrateAgain(_, way) => MayIntegrate(plan, m, way) && |m.result.runs| > 1
      case Save(_) => m.landing.None?
      case Finish(status, at, _) =>
        && m.landing.None? && Ended(m.sched.states) == plan.needs.Keys && at != ""
        && (status == Succeeded || status == RunFailed || status == RunCancelled)
        && (status == Succeeded ==> AllSucceeded(m.result) && m.integrated && !m.broken)
      case _ => false
  }

  // The entry of a task that ends without having run: only its status changes.
  function Unrun(m: Memory, id: Id, status: Status): TaskResult
    requires id in m.result.tasks
  {
    m.result.tasks[id].(status := status)
  }

  // The reset at the head of resumeTasks.
  function Reset(tasks: map<Id, TaskResult>): map<Id, TaskResult> {
    map id | id in tasks ::
      if tasks[id].status == Success then tasks[id]
      else tasks[id].(status := Pending, commit := None, checkpointed := false)
  }

  function StartOf(tasks: map<Id, TaskResult>): State {
    State(map id | id in tasks :: if tasks[id].status == Success then Success else Pending, false, false, false)
  }

  function Resumed(plan: Plan, d: Disk, jobs: nat, closedAt: string, startedAt: string): World
    requires d.journal.tasks.Keys == plan.needs.Keys
  {
    var tasks := Recovered(plan, d);
    var runs := OpenRecord(CloseInterrupted(d.journal, closedAt).runs, startedAt);
    var journal := d.journal.(tasks := tasks, runs := runs);
    World(d.(journal := journal),
          Some(Memory(jobs, journal.(tasks := Reset(tasks)), StartOf(tasks),
                      map id | id in tasks :: tasks[id].attempts, false, None, false)))
  }

  function Settle(m: Memory, o: Outcome): Memory {
    m.(result := m.result.(integration := o.after), integrated := o.error.None?)
  }

  ghost function After(plan: Plan, w: World, step: Step): World
    requires Enabled(plan, w, step)
  {
    if step.Crash? then w.(memory := None)
    else if step.Touch? then
      w.(disk := w.disk.(unclean := if step.clean then
          w.disk.unclean - {step.worktree} else w.disk.unclean + {step.worktree}))
    else if step.Resume? then Resumed(plan, w.disk, step.jobs, step.closedAt, step.startedAt)
    else
      var m := w.memory.value;
      match step
      case EndContext => w.(memory := Some(m.(sched := Scheduler.After(m.sched, Scheduler.EndContext))))
      case Check => w.(memory := Some(m.(sched := Scheduler.After(m.sched, Scheduler.Check))))
      case SweepTask(id, wrote) =>
        Persist(w, SetTask(m.(sched := Scheduler.After(m.sched, Sweep(id))), id, Unrun(m, id, Cancelled)), wrote)
      case BlockTask(id, wrote) =>
        Persist(w, SetTask(m.(sched := Scheduler.After(m.sched, Block(id))), id, Unrun(m, id, Blocked)), wrote)
      case LaunchTask(id) => w.(memory := Some(m.(sched := Scheduler.After(m.sched, Launch(id)))))
      case MoveHead(id, head) =>
        w.(disk := w.disk.(heads := w.disk.heads[Worktree(id, |m.result.runs|) := head]))
      case ReportTask(id, update, wrote) => Persist(w, SetTask(m, id, update), wrote)
      case Land(id, r) =>
        var written := r.(checkpointed := true);
        var cp := Checkpoint(plan.baseline, written, DependencyCommits(plan, m, id));
        World(w.disk.(checkpoints := w.disk.checkpoints[id := cp]), Some(m.(landing := Some(Landing(id, written)))))
      case JournalLanding(wrote) =>
        var l := m.landing.value;
        Persist(w, SetTask(m.(sched := Scheduler.After(m.sched, Complete(l.id, Success)), landing := None),
                   l.id, l.result), wrote)
      case Fail(id, r, wrote) =>
        Persist(w, SetTask(m.(sched := Scheduler.After(m.sched, Complete(id, r.status))), id, r), wrote)
      case IntegrateFirst(_) => w.(memory := Some(Settle(m, IntegrationOutcome(plan, m, step))))
      case IntegrateAgain(_, _) => w.(memory := Some(Settle(m, IntegrationOutcome(plan, m, step))))
      case Save(wrote) => Persist(w, m, wrote)
      case Finish(status, at, wrote) =>
        var closed := m.(result := CloseRecord(m.result, status, at));
        World(if wrote then w.disk.(journal := closed.result) else w.disk, Some(closed))
  }

  // Execute, once its first journal is on disk.
  ghost predicate Start(plan: Plan, w: World) {
    && w.disk.checkpoints == map[] && w.memory.Some?
    && w.disk.journal.tasks == (map id | id in plan.needs :: TaskResult(Pending, 0, None, None, false))
    && (exists at :: at != "" && w.disk.journal.runs == [RunRecord(1, false, at, "", InProgress, map[])])
    && w.disk.journal.integration == Integration(false, None)
    && var m := w.memory.value;
       && m.jobs >= 1 && m.result == w.disk.journal && !m.broken && m.landing == None && !m.integrated
       && m.sched == StartOf(m.result.tasks)
       && m.offsets == (map id | id in plan.needs :: 0)
  }

  ghost predicate Next(plan: Plan, w: World, w': World) {
    exists step :: Enabled(plan, w, step) && w' == After(plan, w, step)
  }

  ghost predicate NextAt(plan: Plan, run: seq<World>, i: nat)
    requires i + 1 < |run|
  {
    Next(plan, run[i], run[i + 1])
  }

  ghost predicate IsRun(plan: Plan, run: seq<World>) {
    run != [] && Start(plan, run[0]) && forall i: nat :: i + 1 < |run| ==> NextAt(plan, run, i)
  }
}
