// The parts together: plan incrementally, run the plan durably through any crashes and
// resumes, record the result, plan again.
module Lifecycle {
  import opened Ids
  import opened Types
  import opened Git
  import opened Texts
  import opened Snapshots
  import opened Semantics
  import opened Registry
  import opened Tracking
  import opened Incremental
  import opened Recording
  import opened Acceptance
  import Validator
  import Scheduler
  import Durable
  import Crashes

  // The plan that Execute and Resume are given.
  ghost function DurablePlan(plan: TrackedPlan): Durable.Plan {
    var tasks := Validator.ById(plan.tasks);
    Durable.Plan(GraphOf(plan.tasks), map id | id in tasks :: tasks[id].attempts, plan.tracking.baseline)
  }

  // The task results of a journal, as RecordImplementation reads them.
  ghost function Outcomes(tasks: seq<Task>, j: Durable.Journal): (r: seq<TaskOutcome>)
    requires forall t :: t in tasks ==> t.id in j.tasks
    ensures |r| == |tasks|
    ensures forall i :: 0 <= i < |r| ==>
      r[i] == TaskOutcome(tasks[i].id, j.tasks[tasks[i].id].status, j.tasks[tasks[i].id].commit)
  {
    seq(|tasks|, i requires 0 <= i < |tasks| =>
      TaskOutcome(tasks[i].id, j.tasks[tasks[i].id].status, j.tasks[tasks[i].id].commit))
  }

  ghost predicate RecordedSuccess(runs: seq<Durable.RunRecord>) {
    runs != [] && runs[|runs| - 1].status == Durable.Succeeded
  }

  // An incremental plan that is not a no-op, and a run directory of it at the end of some
  // history of crashes and resumes whose last run was recorded as a success.
  ghost predicate Finished(h: Hashes, full: seq<Task>, semantics: seq<Semantic>, spec: Scope, policy: string,
                           head: Commit, listing: seq<Record>, plan: TrackedPlan, c: Choice, run: seq<Durable.World>)
  {
    && HashesOk(h) && ScopeOk(h, spec) && ValidHash(policy) && FullPlan(full, semantics)
    && IsIncremental(h, full, semantics, spec, policy, head, listing, plan, c) && !plan.tracking.noOp
    && Durable.IsRun(DurablePlan(plan), run)
    && RecordedSuccess(run[|run| - 1].disk.journal.runs)
  }

  lemma PlanIsDurable(h: Hashes, full: seq<Task>, semantics: seq<Semantic>, spec: Scope, policy: string, head: Commit,
                      listing: seq<Record>, plan: TrackedPlan, c: Choice)
    requires FullPlan(full, semantics)
    requires IsIncremental(h, full, semantics, spec, policy, head, listing, plan, c)
    ensures Durable.PlanOk(DurablePlan(plan)) && NoDup(IdsOf(plan.tasks))
    ensures forall t :: t in plan.tasks ==> t.id in GraphOf(plan.tasks)
  {
    IncrementalGraphIsValid(h, full, semantics, spec, policy, head, listing, plan, c);
    FullIds(plan.tasks);
  }

  ghost predicate IntegratedTask(plan: TrackedPlan, j: Durable.Journal, id: Id) {
    && id in j.tasks && j.tasks[id].status == Scheduler.Success && j.tasks[id].commit.Some?
    && j.integration.commit.Some? && Ancestor(plan.tracking.baseline, j.integration.commit.value)
    && Ancestor(j.tasks[id].commit.value, j.integration.commit.value)
  }

  lemma TaskIsIntegrated(plan: TrackedPlan, run: seq<Durable.World>, id: Id)
    requires Durable.PlanOk(DurablePlan(plan)) && Durable.IsRun(DurablePlan(plan), run)
    requires RecordedSuccess(run[|run| - 1].disk.journal.runs) && id in GraphOf(plan.tasks)
    ensures IntegratedTask(plan, run[|run| - 1].disk.journal, id)
  {
    Crashes.RecordedSuccessIsIntegrated(DurablePlan(plan), run, |run| - 1, id);
  }

  lemma OutcomesSucceed(plan: TrackedPlan, j: Durable.Journal)
    requires plan.tasks != [] && NoDup(IdsOf(plan.tasks))
    requires forall t :: t in plan.tasks ==> t.id in j.tasks && IntegratedTask(plan, j, t.id)
    ensures SuccessfulResult(plan.tasks, Outcomes(plan.tasks, j))
    ensures j.integration.commit.Some? && Ancestor(plan.tracking.baseline, j.integration.commit.value)
    ensures CommitsContained(Outcomes(plan.tasks, j), j.integration.commit.value)
  {
    assert plan.tasks[0] in plan.tasks;
    forall i | 0 <= i < |plan.tasks| ensures IntegratedTask(plan, j, plan.tasks[i].id) {
      assert plan.tasks[i] in plan.tasks;
    }
    assert OutcomeIds(Outcomes(plan.tasks, j)) == IdsOf(plan.tasks);
  }

  lemma FinishedIsIntegrated(h: Hashes, full: seq<Task>, semantics: seq<Semantic>, spec: Scope, policy: string,
                             head: Commit, listing: seq<Record>, plan: TrackedPlan, c: Choice, run: seq<Durable.World>)
    requires Finished(h, full, semantics, spec, policy, head, listing, plan, c, run)
    ensures plan.tasks != []
    ensures var j := run[|run| - 1].disk.journal;
      && j.integration.commit.Some? && (forall t :: t in plan.tasks ==> t.id in j.tasks)
      && SuccessfulResult(plan.tasks, Outcomes(plan.tasks, j))
      && Ancestor(plan.tracking.baseline, j.integration.commit.value)
      && CommitsContained(Outcomes(plan.tasks, j), j.integration.commit.value)
  {
    IncrementalIsValid(h, full, semantics, spec, policy, head, listing, plan, c);
    PlanIsDurable(h, full, semantics, spec, policy, head, listing, plan, c);
    forall t | t in plan.tasks
      ensures t.id in run[|run| - 1].disk.journal.tasks && IntegratedTask(plan, run[|run| - 1].disk.journal, t.id)
    {
      TaskIsIntegrated(plan, run, t.id);
    }
    OutcomesSucceed(plan, run[|run| - 1].disk.journal);
  }

  // A plan that a durable run finished, however often it was interrupted, can be recorded
  // as long as nothing was committed or changed meanwhile and no base record is gone.
  lemma FinishedIsRecordable(h: Hashes, full: seq<Task>, semantics: seq<Semantic>, spec: Scope, policy: string,
                             head: Commit, listing: seq<Record>, plan: TrackedPlan, c: Choice, run: seq<Durable.World>,
                             files: seq<File>, text: string)
    requires Finished(h, full, semantics, spec, policy, head, listing, plan, c, run) && BasesReadable(plan, files)
    requires ValidObjectId(text)
    ensures var j := run[|run| - 1].disk.journal;
      && j.integration.commit.Some? && (forall t :: t in plan.tasks ==> t.id in j.tasks)
      && Recordable(h, plan, Outcomes(plan.tasks, j), head, Revision(text, j.integration.commit.value),
                    Present(head, policy, Some(semantics), true), files)
  {
    IncrementalIsValid(h, full, semantics, spec, policy, head, listing, plan, c);
    FinishedIsIntegrated(h, full, semantics, spec, policy, head, listing, plan, c, run);
    IncrementalEvidence(h, full, semantics, spec, policy, head, listing, plan, c,
                        run[|run| - 1].disk.journal.integration.commit.value, files);
    InputsStillMatch(h, full, semantics, spec, policy, head, listing, plan, c,
                     Present(head, policy, Some(semantics), true));
    ObjectIdIsNotBlank(text);
  }

  // And once it is recorded and its integration merged, planning the same specification
  // again finds nothing to do, as long as every other trusted record is older.
  lemma FinishedNeedsNothing(h: Hashes, full: seq<Task>, semantics: seq<Semantic>, spec: Scope, policy: string,
                             head: Commit, listing: seq<Record>, plan: TrackedPlan, c: Choice, run: seq<Durable.World>,
                             full': seq<Task>, semantics': seq<Semantic>, head': Commit, listing': seq<Record>,
                             plan': TrackedPlan, c': Choice, text: string)
    requires Finished(h, full, semantics, spec, policy, head, listing, plan, c, run)
    requires FullPlan(full', semantics') && SameSemantics(semantics, semantics')
    requires IsIncremental(h, full', semantics', spec, policy, head', listing', plan', c')
    requires var j := run[|run| - 1].disk.journal;
      j.integration.commit.Some? ==>
        var x := RecordOf(plan, Revision(text, j.integration.commit.value));
        && multiset(listing')[x] == 1 && Ancestor(x.commit, head')
        && forall y :: y in listing' && y != x && Ancestor(y.commit, head') ==>
          y.commit != x.commit && Ancestor(y.commit, x.commit)
    ensures plan'.tracking.noOp && plan'.tasks == []
  {
    FinishedIsIntegrated(h, full, semantics, spec, policy, head, listing, plan, c, run);
    var j := run[|run| - 1].disk.journal;
    RecordedPlanIsNoOp(h, full, semantics, plan, Revision(text, j.integration.commit.value),
                       full', semantics', head', listing', plan', c');
  }
}
