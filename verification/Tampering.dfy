// recoverCompletedTasks of workflow/resume.go on directories that something else has changed: each
// single change to what a completed task left behind is refused.
module Tampering {
  import opened Ids
  import opened Graph
  import opened Git
  import opened Worker
  import opened Durable
  import opened Crashes
  import Scheduler

  // A change to what the checkpointed task `id` left: in its worktree, in its checkpoint, or in the
  // journal; Rewritten is the same other commit in all three.
  datatype Change =
    | MovedHead(id: Id, head: Commit)
    | RemovedWorktree(id: Id)
    | RemovedCheckpoint(id: Id)
    | OtherBaseline(id: Id, baseline: Commit)
    | OtherStatus(id: Id, status: Scheduler.Status)
    | OtherCommit(id: Id, commit: Option<Commit>)
    | OtherWorktree(id: Id, worktree: Option<Worktree>)
    | Unmarked(id: Id)
    | OtherAttempts(id: Id, attempts: nat)
    | OtherDependency(id: Id, need: Id, to: Commit)
    | AddedDependency(id: Id, other: Id, to: Commit)
    | JournalCommit(id: Id, commit: Option<Commit>)
    | JournalWorktree(id: Id, worktree: Option<Worktree>)
    | JournalAttempts(id: Id, attempts: nat)
    | JournalUnmarked(id: Id)
    | Rewritten(id: Id, to: Commit)

  function WithTask(d: Disk, id: Id, task: TaskResult): Disk
    requires id in d.checkpoints
  {
    d.(checkpoints := d.checkpoints[id := d.checkpoints[id].(task := task)])
  }

  function WithEntry(d: Disk, id: Id, entry: TaskResult): Disk {
    d.(journal := d.journal.(tasks := d.journal.tasks[id := entry]))
  }

  function WithHead(d: Disk, id: Id, head: Commit): Disk
    requires id in d.checkpoints && d.checkpoints[id].task.worktree.Some?
  {
    d.(heads := d.heads[d.checkpoints[id].task.worktree.value := head])
  }

  function Changed(d: Disk, c: Change): Disk
    requires c.id in d.checkpoints && c.id in d.journal.tasks && d.checkpoints[c.id].task.worktree.Some?
  {
    var cp, entry := d.checkpoints[c.id], d.journal.tasks[c.id];
    match c
    case MovedHead(id, head) => WithHead(d, id, head)
    case RemovedWorktree(id) => d.(heads := d.heads - {cp.task.worktree.value})
    case RemovedCheckpoint(id) => d.(checkpoints := d.checkpoints - {id})
    case OtherBaseline(id, baseline) => d.(checkpoints := d.checkpoints[id := cp.(baseline := baseline)])
    case OtherStatus(id, status) => WithTask(d, id, cp.task.(status := status))
    case OtherCommit(id, commit) => WithTask(d, id, cp.task.(commit := commit))
    case OtherWorktree(id, worktree) => WithTask(d, id, cp.task.(worktree := worktree))
    case Unmarked(id) => WithTask(d, id, cp.task.(checkpointed := false))
    case OtherAttempts(id, attempts) => WithTask(d, id, cp.task.(attempts := attempts))
    case OtherDependency(id, need, commit) =>
      d.(checkpoints := d.checkpoints[id := cp.(dependencies := cp.dependencies[need := commit])])
    case AddedDependency(id, other, commit) =>
      d.(checkpoints := d.checkpoints[id := cp.(dependencies := cp.dependencies[other := commit])])
    case JournalCommit(id, commit) => WithEntry(d, id, entry.(commit := commit))
    case JournalWorktree(id, worktree) => WithEntry(d, id, entry.(worktree := worktree))
    case JournalAttempts(id, attempts) => WithEntry(d, id, entry.(attempts := attempts))
    case JournalUnmarked(id) => WithEntry(d, id, entry.(checkpointed := false))
    case Rewritten(id, commit) =>
      WithHead(WithEntry(WithTask(d, id, cp.task.(commit := Some(commit))), id, entry.(commit := Some(commit))), id,
               commit)
  }

  // The change is one that recovery relies on not having happened.
  ghost predicate Matters(plan: Plan, d: Disk, c: Change)
    requires c.id in d.checkpoints && c.id in d.journal.tasks && c.id in plan.needs
  {
    var cp, entry := d.checkpoints[c.id], d.journal.tasks[c.id];
    var journalled := entry.status == Scheduler.Success;
    match c
    case MovedHead(_, head) => Some(head) != cp.task.commit
    case RemovedWorktree(_) => true
    case RemovedCheckpoint(id) => journalled || exists other :: 
      other in d.checkpoints && other in plan.needs && id in plan.needs[other]
    case OtherBaseline(_, baseline) => baseline != plan.baseline
    case OtherStatus(_, status) => status != Scheduler.Success
    case OtherCommit(_, commit) => commit != cp.task.commit
    case OtherWorktree(_, worktree) => worktree == None || (journalled && worktree != cp.task.worktree)
    case Unmarked(_) => true
    case OtherAttempts(_, attempts) => if journalled then attempts != entry.attempts else attempts < entry.attempts
    case OtherDependency(id, need, commit) => 
      need in plan.needs[id] && need in cp.dependencies && commit != cp.dependencies[need]
    case AddedDependency(id, other, _) => other !in plan.needs[id]
    case JournalCommit(_, commit) => journalled && commit != entry.commit
    case JournalWorktree(_, worktree) => journalled && worktree != entry.worktree
    case JournalAttempts(_, attempts) => if journalled then attempts != entry.attempts else attempts > cp.task.attempts
    case JournalUnmarked(_) => journalled
    case Rewritten(id, commit) =>
      || !Ancestor(plan.baseline, commit)
      || exists n :: n in plan.needs[id] && n in cp.dependencies && !Ancestor(cp.dependencies[n], commit)
  }

  predicate OfOneTask(c: Change) {
    !c.OtherDependency? && !c.AddedDependency? && !c.RemovedCheckpoint? && !c.Rewritten?
  }

  // Of a directory the workflow wrote: the checks of the task itself notice most changes.
  lemma NotAccepted(plan: Plan, d: Disk, c: Change)
    requires PlanOk(plan) && DiskOk(plan, d) && c.id in d.checkpoints && c.id in plan.needs
    requires CheckpointOk(plan, d, c.id) && c.id in d.journal.tasks && Matters(plan, d, c) && OfOneTask(c)
    ensures c.id in Changed(d, c).journal.tasks && !Accepted(plan, Changed(d, c), c.id)
  {
    assert EntryOk(plan, d.checkpoints, |d.journal.runs|, d.journal.tasks[c.id], c.id);
  }

  // And the checks between tasks the others.
  lemma NotLinked(plan: Plan, d: Disk, c: Change)
    requires PlanOk(plan) && DiskOk(plan, d) && c.id in d.checkpoints && c.id in plan.needs
    requires CheckpointOk(plan, d, c.id) && c.id in d.journal.tasks && Matters(plan, d, c)
    requires c.OtherDependency? || c.AddedDependency? || (c.Rewritten? && Ancestor(plan.baseline, c.to))
    ensures c.id in Changed(d, c).checkpoints && !Linked(plan, Changed(d, c), c.id)
  {
    var cp := d.checkpoints[c.id];
    if c.OtherDependency? {
      assert DependencyOk(plan, d, cp, c.need);
    } else if c.AddedDependency? {
      NeedsCounted(plan, c.id);
      assert c.other !in cp.dependencies;
    }
  }

  lemma NeedsCounted(plan: Plan, id: Id)
    requires PlanOk(plan) && id in plan.needs
    ensures |Elems(plan.needs[id])| == |plan.needs[id]|
  {
    NoDupCardinality(plan.needs[id]);
  }

  // A removed checkpoint is missed by the journal, or by a task that needs its task.
  lemma RemovedIsMissed(plan: Plan, d: Disk, id: Id)
    requires PlanOk(plan) && DiskOk(plan, d) && id in d.checkpoints && CheckpointOk(plan, d, id)
    requires Matters(plan, d, RemovedCheckpoint(id))
    ensures !Recoverable(plan, Changed(d, RemovedCheckpoint(id)))
  {
    var d' := Changed(d, RemovedCheckpoint(id));
    if d.journal.tasks[id].status == Scheduler.Success {
      assert !Accepted(plan, d', id);
    } else {
      var other :| other in d.checkpoints && other in plan.needs && id in plan.needs[other];
      RankedNeeds(plan, other, id);
      assert other in d'.checkpoints && !Linked(plan, d', other);
    }
  }

  lemma RankedNeeds(plan: Plan, id: Id, need: Id)
    requires PlanOk(plan) && id in plan.needs && need in plan.needs[id]
    ensures id != need
  {
    assert Graph.StepAt(plan.needs, [id, need], 0);
    assert id == need ==> IsCycle(plan.needs, [id, need]);
  }

  // In a directory at any moment of a run, one such change to a checkpointed task makes recovery,
  // and so Resume, refuse it.
  lemma TamperingIsRefused(plan: Plan, run: seq<World>, i: nat, c: Change)
    requires PlanOk(plan) && Durable.IsRun(plan, run) && i < |run| && c.id in run[i].disk.checkpoints
    requires c.id in plan.needs && c.id in run[i].disk.journal.tasks && Matters(plan, run[i].disk, c)
    ensures run[i].disk.checkpoints[c.id].task.worktree.Some?
    ensures var d' := Changed(run[i].disk, c);
      d'.journal.tasks.Keys == plan.needs.Keys && !Recoverable(plan, d')
  {
    var d := run[i].disk;
    RunKeepsWorld(plan, run, i);
    assert CheckpointOk(plan, d, c.id);
    if OfOneTask(c) {
      NotAccepted(plan, d, c);
    } else if c.RemovedCheckpoint? {
      RemovedIsMissed(plan, d, c.id);
    } else if c.Rewritten? && !Ancestor(plan.baseline, c.to) {
      assert !Accepted(plan, Changed(d, c), c.id);
    } else {
      NotLinked(plan, d, c);
    }
  }
}
