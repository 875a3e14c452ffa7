// The main loop of Execute (workflow/executor.go) and of resumeTasks (workflow/resume.go)
// with its journal: whatever the scheduling loop does, whatever its workers report meanwhile,
// with whatever results its tasks end and whichever journal write fails, it is a sequence of
// durable steps.
module Persisted {
  import opened Ids
  import opened Graph
  import opened Git
  import opened Scheduler
  import opened Worker
  import opened Durable
  import opened Crashes
  import opened Launched
  import opened Finishing
  import Executor

  // The state once the context has ended.
  function Over(s: State): State {
    s.(done := true)
  }

  // A process between two steps of the loop.
  ghost predicate Turning(plan: Plan, w: World, jobs: nat, s: State) {
    WorldOk(plan, w) && w.memory.Some? && Fits(plan, w.memory.value, jobs, s)
  }

  ghost predicate Fits(plan: Plan, m: Memory, jobs: nat, s: State) {
    && m.landing.None? && InLastRun(m.result.runs) && m.jobs == jobs && m.sched == s
    && WithinBudget(plan, m) && Untouched(plan, m)
  }

  // The same, or one write failed since and so ended the context.
  ghost predicate Either(plan: Plan, w: World, jobs: nat, s: State, mayFail: bool) {
    Turning(plan, w, jobs, s) || (mayFail && Turning(plan, w, jobs, Over(s)))
  }

  // No task has used more attempts than this run gives it.
  ghost predicate WithinBudget(plan: Plan, m: Memory) {
    forall id {:trigger Within(plan, m, id)} :: id in plan.needs ==> Within(plan, m, id)
  }

  ghost predicate Within(plan: Plan, m: Memory, id: Id) {
    id in m.result.tasks && id in m.offsets && m.result.tasks[id].attempts <= m.offsets[id] + Budget(plan, id)
  }

  const FRESH := TaskResult(Pending, 0, None, None, false)

  // In a first run, nothing was said of a task that has not started.
  ghost predicate Untouched(plan: Plan, m: Memory) {
    |m.result.runs| == 1 ==> forall id :: id in plan.needs && Has(m.sched, id, Pending) ==>
      id in m.result.tasks && m.result.tasks[id] == FRESH
  }

  // Memory after a task's entry was set, its status no longer pending.
  lemma SetFits(plan: Plan, m: Memory, jobs: nat, s: State, s': State, id: Id, r: TaskResult)
    requires Fits(plan, m, jobs, s) && id in m.offsets && r.attempts <= m.offsets[id] + Budget(plan, id)
    requires forall x :: Has(s', x, Pending) ==> Has(s, x, Pending) && x != id
    ensures Fits(plan, SetTask(m.(sched := s', landing := None), id, r), jobs, s')
  {
    var m' := SetTask(m.(sched := s', landing := None), id, r);
    forall x | x in plan.needs ensures Within(plan, m', x) {
      assert Within(plan, m, x);
    }
  }

  lemma SchedFits(plan: Plan, m: Memory, jobs: nat, s: State, s': State)
    requires Fits(plan, m, jobs, s) && forall x :: Has(s', x, Pending) ==> Has(s, x, Pending)
    ensures Fits(plan, m.(sched := s'), jobs, s')
  {
    forall x | x in plan.needs ensures Within(plan, m.(sched := s'), x) {
      assert Within(plan, m, x);
    }
  }

  // A write that fails ends the context.
  lemma PersistFits(plan: Plan, w: World, m: Memory, wrote: bool, jobs: nat, s: State, mayFail: bool)
    requires Fits(plan, m, jobs, s) && (wrote || mayFail)
    ensures Persist(w, m, wrote).memory.Some?
    ensures Fits(plan, Persist(w, m, wrote).memory.value, jobs, s)
      || (mayFail && Fits(plan, Persist(w, m, wrote).memory.value, jobs, Over(s)))
  {
    if !m.broken && !wrote {
      SchedFits(plan, m, jobs, s, Over(s));
      BrokenFits(plan, m.(sched := Over(s)), jobs, Over(s));
    }
  }

  lemma BrokenFits(plan: Plan, m: Memory, jobs: nat, s: State)
    requires Fits(plan, m, jobs, s)
    ensures Fits(plan, m.(broken := true), jobs, s)
  {
    forall x | x in plan.needs ensures Within(plan, m.(broken := true), x) {
      assert Within(plan, m, x);
    }
  }

  // Some chain of durable steps leads from one world to the other.
  ghost predicate Leads(plan: Plan, a: World, b: World) {
    exists ws :: ChainOf(plan, ws, a, b)
  }

  ghost predicate ChainOf(plan: Plan, ws: seq<World>, a: World, b: World) {
    Chain(plan, ws) && ws[0] == a && ws[|ws| - 1] == b
  }

  lemma LeadsNowhere(plan: Plan, a: World)
    ensures Leads(plan, a, a)
  {
    var ws := Alone(plan, a);
    assert ChainOf(plan, ws, a, a);
  }

  lemma LeadsOn(plan: Plan, a: World, b: World, c: World)
    requires Leads(plan, a, b) && Durable.Next(plan, b, c)
    ensures Leads(plan, a, c)
  {
    var ws :| ChainOf(plan, ws, a, b);
    var longer := Further(plan, ws, c);
    assert ChainOf(plan, longer, a, c);
  }

  lemma LeadsFurther(plan: Plan, a: World, b: World, c: World)
    requires Leads(plan, a, b) && Leads(plan, b, c)
    ensures Leads(plan, a, c)
  {
    var first :| ChainOf(plan, first, a, b);
    var second :| ChainOf(plan, second, b, c);
    var ws := Join(plan, first, second);
    assert ChainOf(plan, ws, a, c);
  }

  // ------------------------------------------------------------- what a task ends with

  // This result may end the running task with this status.
  ghost predicate MayEndWith(plan: Plan, w: World, id: Id, status: Status, r: TaskResult)
    requires w.memory.Some?
  {
    var m := w.memory.value;
    && r.status == status && Plausible(plan, m, id, r) && !r.checkpointed
    && if status == Success then SuccessFits(plan, w, id, r) else r.commit == None
  }

  ghost predicate SuccessFits(plan: Plan, w: World, id: Id, r: TaskResult)
    requires w.memory.Some?
  {
    var m := w.memory.value;
    && r.commit.Some? && r.worktree == Some(OwnWorktree(w, id)) && NeedsCommitted(plan, m, id)
    && Ancestor(plan.baseline, r.commit.value)
    && forall n :: n in plan.needs[id] ==> Ancestor(m.result.tasks[n].commit.value, r.commit.value)
  }

  // What executeTaskAt promises of its result is enough.
  lemma DeliveredMayEnd(plan: Plan, w: World, id: Id, needs: seq<Commit>, r: TaskResult)
    requires id in plan.needs && MayReport(plan, w, id, r.attempts) && Commits(w.memory.value, plan.needs[id], needs)
    requires Delivered(plan, w, id, needs, r)
    ensures MayEndWith(plan, w, id, r.status, r)
  {
    if r.status == Success {
      var m := w.memory.value;
      forall n | n in plan.needs[id]
        ensures n in m.result.tasks && m.result.tasks[n].commit.Some?
        ensures Ancestor(m.result.tasks[n].commit.value, r.commit.value)
      {
        var i :| 0 <= i < |plan.needs[id]| && plan.needs[id][i] == n;
        assert Ancestor(needs[i], r.commit.value);
      }
    }
  }

  // The results of all tasks, in whatever world they end.
  ghost predicate Delivers(plan: Plan, results: (World, Id, Status) -> TaskResult) {
    forall w, id, status {:trigger results(w, id, status)} ::
      WorldOk(plan, w) && AtWork(w, id) && w.memory.value.landing.None? && WithinBudget(plan, w.memory.value)
      && (status == Success || status == Failed || (status == Cancelled && w.memory.value.sched.done)) ==>
        MayEndWith(plan, w, id, status, results(w, id, status))
  }

  // There are such results: a merge of the baseline and the needs for every success.
  ghost function SomeResult(plan: Plan, w: World, id: Id, status: Status): TaskResult {
    if w.memory.None? || id !in w.memory.value.result.tasks then TaskResult(status, 0, None, None, false)
    else
      var m := w.memory.value;
      var attempts := m.result.tasks[id].attempts;
      if status == Success && NeedsCommitted(plan, m, id)
      then TaskResult(Success, attempts, Some(OwnWorktree(w, id)), Some(MergeOfNeeds(plan, m, id)), false)
      else TaskResult(status, attempts, None, None, false)
  }

  ghost function MergeOfNeeds(plan: Plan, m: Memory, id: Id): Commit
    requires NeedsCommitted(plan, m, id)
  {
    var needs := plan.needs[id];
    Commit([plan.baseline] + seq(|needs|, i requires 0 <= i < |needs| =>
             assert needs[i] in needs; m.result.tasks[needs[i]].commit.value), "")
  }

  lemma MergeHolds(plan: Plan, m: Memory, id: Id)
    requires NeedsCommitted(plan, m, id)
    ensures Ancestor(plan.baseline, MergeOfNeeds(plan, m, id))
    ensures forall n :: n in plan.needs[id] ==> Ancestor(m.result.tasks[n].commit.value, MergeOfNeeds(plan, m, id))
  {
    var c := MergeOfNeeds(plan, m, id);
    assert c.parents[0] == plan.baseline && Ancestor(plan.baseline, plan.baseline);
    forall n | n in plan.needs[id] ensures Ancestor(m.result.tasks[n].commit.value, c) {
      var i :| 0 <= i < |plan.needs[id]| && plan.needs[id][i] == n;
      assert c.parents[i + 1] == m.result.tasks[n].commit.value;
      assert Ancestor(c.parents[i + 1], c.parents[i + 1]);
    }
  }

  // The needs of a running task succeeded, so they have commits.
  lemma RunningNeedsCommitted(plan: Plan, w: World, id: Id)
    requires WorldOk(plan, w) && AtWork(w, id)
    ensures id in plan.needs && NeedsCommitted(plan, w.memory.value, id)
  {
    var m := w.memory.value;
    forall n | n in plan.needs[id] ensures n in m.result.tasks && m.result.tasks[n].commit.Some? {
      NeedsSucceeded(plan, w, id, n);
      assert TaskOk(plan, w.disk, m, n);
      assert EntryOk(plan, w.disk.checkpoints, |m.result.runs|, m.result.tasks[n], n);
      assert CheckpointOk(plan, w.disk, n);
    }
  }

  lemma SomeTasksDeliver(plan: Plan) returns (results: (World, Id, Status) -> TaskResult)
    ensures Delivers(plan, results)
  {
    results := (w, id, status) => SomeResult(plan, w, id, status);
    forall w, id, status | WorldOk(plan, w) && AtWork(w, id) && WithinBudget(plan, w.memory.value)
      ensures MayEndWith(plan, w, id, status, SomeResult(plan, w, id, status))
    {
      RunningNeedsCommitted(plan, w, id);
      assert Within(plan, w.memory.value, id);
      MergeHolds(plan, w.memory.value, id);
    }
  }

  // ------------------------------------------------------------------- the workers' part

  ghost function Perform(plan: Plan, w: World, step: Durable.Step): World {
    if Durable.Enabled(plan, w, step) then Durable.After(plan, w, step) else w
  }

  // What workers do: move their worktrees' heads and report, with a write that goes through
  // unless the context ends; and what anyone may do to a worktree.
  predicate Permitted(step: Durable.Step, mayFail: bool) {
    step.MoveHead? || step.Touch? || (step.ReportTask? && (step.wrote || mayFail))
  }

  // All of these, as far as possible.
  ghost function Work(plan: Plan, w: World, steps: seq<Durable.Step>, mayFail: bool): World {
    if steps == [] then w
    else
      var before, last := Work(plan, w, steps[..|steps| - 1], mayFail), steps[|steps| - 1];
      if Permitted(last, mayFail) then Perform(plan, before, last) else before
  }

  lemma ReportFits(plan: Plan, w: World, jobs: nat, s: State, step: Durable.Step, mayFail: bool)
    requires Turning(plan, w, jobs, s) && step.ReportTask? && Permitted(step, mayFail)
    requires Durable.Enabled(plan, w, step)
    ensures var w' := Durable.After(plan, w, step);
      && w'.memory.Some?
      && (Fits(plan, w'.memory.value, jobs, s) || (mayFail && Fits(plan, w'.memory.value, jobs, Over(s))))
  {
    var m := w.memory.value;
    SetFits(plan, m, jobs, s, s, step.id, step.update);
    assert SetTask(m.(sched := s, landing := None), step.id, step.update) == SetTask(m, step.id, step.update);
    PersistFits(plan, w, SetTask(m, step.id, step.update), step.wrote, jobs, s, mayFail);
  }

  lemma PerformWork(plan: Plan, w: World, jobs: nat, s: State, step: Durable.Step, mayFail: bool)
    requires Turning(plan, w, jobs, s) && Permitted(step, mayFail)
    ensures Leads(plan, w, Perform(plan, w, step)) && Either(plan, Perform(plan, w, step), jobs, s, mayFail)
  {
    LeadsNowhere(plan, w);
    if Durable.Enabled(plan, w, step) {
      StepKeepsWorld(plan, w, step);
      LeadsOn(plan, w, w, Durable.After(plan, w, step));
      if step.ReportTask? { ReportFits(plan, w, jobs, s, step, mayFail); }
    }
  }

  lemma {:induction false} WorkKeeps(plan: Plan, w: World, jobs: nat, s: State, steps: seq<Durable.Step>, mayFail: bool)
    requires Either(plan, w, jobs, s, mayFail)
    ensures Leads(plan, w, Work(plan, w, steps, mayFail)) && Either(plan, Work(plan, w, steps, mayFail), jobs, s,
                                                                    mayFail)
  {
    if steps == [] {
      LeadsNowhere(plan, w);
    } else {
      var last := steps[|steps| - 1];
      var before := Work(plan, w, steps[..|steps| - 1], mayFail);
      WorkKeeps(plan, w, jobs, s, steps[..|steps| - 1], mayFail);
      if Permitted(last, mayFail) {
        PerformWork(plan, before, jobs, if Turning(plan, before, jobs, s) then s else Over(s), last, mayFail);
        LeadsFurther(plan, w, before, Perform(plan, before, last));
      }
    }
  }

  // --------------------------------------------------------------------- the loop's part

  // The durable steps of one step of the loop. A success moves the worktree to its commit,
  // then comes its checkpoint, then the journal; Execute, but not resumeTasks, journals a
  // launch.
  function LoopSteps(w: World, step: Scheduler.Step, wrote: bool,
                     results: (World, Id, Status) -> TaskResult): seq<Durable.Step>
  {
    match step
    case EndContext => [Durable.EndContext]
    case Check => [Durable.Check]
    case Sweep(id) => [SweepTask(id, wrote)]
    case Block(id) => [BlockTask(id, wrote)]
    case Launch(id) => [LaunchTask(id)] + if FirstRun(w) then [ReportTask(id, FRESH.(status := Running), wrote)] else []
    case Complete(id, status) => EndSteps(id, results(w, id, status), wrote)
  }

  function EndSteps(id: Id, r: TaskResult, wrote: bool): seq<Durable.Step> {
    if r.status == Success && r.commit.Some? then LandingSteps(id, r) + [JournalLanding(wrote)]
    else [Fail(id, r, wrote)]
  }

  function LandingSteps(id: Id, r: TaskResult): seq<Durable.Step> {
    if r.commit == None then [] else [MoveHead(id, r.commit.value), Land(id, r)]
  }

  predicate FirstRun(w: World) {
    w.memory.Some? && |w.memory.value.result.runs| == 1
  }

  // One after the other, each of them possible.
  ghost predicate Takes(plan: Plan, w: World, steps: seq<Durable.Step>, w': World)
    decreases |steps|
  {
    if steps == [] then w' == w
    else Durable.Enabled(plan, w, steps[0]) && Takes(plan, Durable.After(plan, w, steps[0]), steps[1..], w')
  }

  lemma TakesOne(plan: Plan, w: World, step: Durable.Step)
    requires Durable.Enabled(plan, w, step)
    ensures Takes(plan, w, [step], Durable.After(plan, w, step))
  {
    assert [step][1..] == [];
  }

  lemma {:induction false} TakesAll(plan: Plan, a: World, first: seq<Durable.Step>, b: World,
                                    second: seq<Durable.Step>, c: World)
    requires Takes(plan, a, first, b) && Takes(plan, b, second, c)
    ensures Takes(plan, a, first + second, c)
    decreases |first|
  {
    if first == [] {
      assert first + second == second;
    } else {
      TakesAll(plan, Durable.After(plan, a, first[0]), first[1..], b, second, c);
      assert (first + second)[1..] == first[1..] + second;
    }
  }

  lemma {:induction false} TakesLeads(plan: Plan, w: World, steps: seq<Durable.Step>, w': World)
    requires Takes(plan, w, steps, w')
    ensures Leads(plan, w, w')
    decreases |steps|
  {
    LeadsNowhere(plan, w);
    if steps != [] {
      var next := Durable.After(plan, w, steps[0]);
      LeadsOn(plan, w, w, next);
      TakesLeads(plan, next, steps[1..], w');
      LeadsFurther(plan, w, next, w');
    }
  }

  lemma TakeQuiet(plan: Plan, w: World, jobs: nat, s: State, step: Scheduler.Step, wrote: bool,
                  results: (World, Id, Status) -> TaskResult)
    returns (w': World)
    requires Turning(plan, w, jobs, s) && (step.EndContext? || step.Check?)
    ensures Takes(plan, w, LoopSteps(w, step, wrote, results), w') && Turning(plan, w', jobs, Scheduler.After(s, step))
  {
    var taken := if step.EndContext? then Durable.EndContext else Durable.Check;
    assert Durable.Enabled(plan, w, taken);
    StepKeepsWorld(plan, w, taken);
    SchedFits(plan, w.memory.value, jobs, s, Scheduler.After(s, step));
    TakesOne(plan, w, taken);
    w' := Durable.After(plan, w, taken);
  }

  // A pending task ends without having run.
  lemma TakeSettling(plan: Plan, w: World, jobs: nat, s: State, step: Scheduler.Step, wrote: bool, mayFail: bool,
                     results: (World, Id, Status) -> TaskResult)
    returns (w': World)
    requires Turning(plan, w, jobs, s) && Scheduler.Enabled(plan.needs, jobs, s, step) && (step.Sweep? || step.Block?)
    requires wrote || mayFail
    ensures Takes(plan, w, LoopSteps(w, step, wrote, results), w')
    ensures Either(plan, w', jobs, Scheduler.After(s, step), mayFail)
  {
    var taken := if step.Sweep? then SweepTask(step.id, wrote) else BlockTask(step.id, wrote);
    SettlingIsEnabled(plan, w, jobs, s, step, wrote);
    StepKeepsWorld(plan, w, taken);
    SettlingFits(plan, w.memory.value, jobs, s, step, if step.Sweep? then Cancelled else Blocked);
    var m' := Settling(w.memory.value, step.id, Scheduler.After(s, step), if step.Sweep? then Cancelled else Blocked);
    PersistFits(plan, w, m', wrote, jobs, Scheduler.After(s, step), mayFail);
    TakesOne(plan, w, taken);
    w' := Durable.After(plan, w, taken);
  }

  function Settling(m: Memory, id: Id, s': State, status: Status): Memory
    requires id in m.result.tasks
  {
    SetTask(m.(sched := s'), id, Unrun(m, id, status))
  }

  lemma SettlingIsEnabled(plan: Plan, w: World, jobs: nat, s: State, step: Scheduler.Step, wrote: bool)
    requires Turning(plan, w, jobs, s) && Scheduler.Enabled(plan.needs, jobs, s, step) && (step.Sweep? || step.Block?)
    ensures Durable.Enabled(plan, w, if step.Sweep? then SweepTask(step.id, wrote) else BlockTask(step.id, wrote))
    ensures step.id in plan.needs && step.id in w.memory.value.result.tasks
  {
  }

  lemma SettlingFits(plan: Plan, m: Memory, jobs: nat, s: State, step: Scheduler.Step, status: Status)
    requires Fits(plan, m, jobs, s) && (step.Sweep? || step.Block?)
    requires step.id in plan.needs && step.id in m.result.tasks
    ensures Fits(plan, Settling(m, step.id, Scheduler.After(s, step), status), jobs, Scheduler.After(s, step))
  {
    assert Within(plan, m, step.id);
    SetFits(plan, m, jobs, s, Scheduler.After(s, step), step.id, Unrun(m, step.id, status));
    assert m.(sched := Scheduler.After(s, step), landing := None) == m.(sched := Scheduler.After(s, step));
  }

  lemma TakeLaunch(plan: Plan, w: World, jobs: nat, s: State, id: Id, wrote: bool, mayFail: bool,
                   results: (World, Id, Status) -> TaskResult)
    returns (w': World)
    requires Turning(plan, w, jobs, s) && Scheduler.Enabled(plan.needs, jobs, s, Launch(id)) && (wrote || mayFail)
    ensures Takes(plan, w, LoopSteps(w, Launch(id), wrote, results), w')
    ensures Either(plan, w', jobs, Scheduler.After(s, Launch(id)), mayFail)
  {
    var launched := LaunchNow(plan, w, jobs, s, id);
    if FirstRun(w) {
      w' := JournalLaunch(plan, w, launched, jobs, s, id, wrote, mayFail);
      TakesAll(plan, w, [LaunchTask(id)], launched, [ReportTask(id, FRESH.(status := Running), wrote)], w');
    } else {
      assert [LaunchTask(id)] + [] == [LaunchTask(id)];
      w' := launched;
    }
  }

  lemma LaunchNow(plan: Plan, w: World, jobs: nat, s: State, id: Id) returns (launched: World)
    requires Turning(plan, w, jobs, s) && Scheduler.Enabled(plan.needs, jobs, s, Launch(id))
    ensures Takes(plan, w, [LaunchTask(id)], launched)
    ensures Turning(plan, launched, jobs, Scheduler.After(s, Launch(id)))
    ensures launched.memory.value.result == w.memory.value.result
  {
    LaunchIsEnabled(plan, w, jobs, s, id);
    TakesOne(plan, w, LaunchTask(id));
    StepKeepsWorld(plan, w, LaunchTask(id));
    SchedFits(plan, w.memory.value, jobs, s, Scheduler.After(s, Launch(id)));
    launched := Durable.After(plan, w, LaunchTask(id));
  }

  lemma LaunchIsEnabled(plan: Plan, w: World, jobs: nat, s: State, id: Id)
    requires w.memory.Some? && Fits(plan, w.memory.value, jobs, s)
    requires Scheduler.Enabled(plan.needs, jobs, s, Launch(id))
    ensures Durable.Enabled(plan, w, LaunchTask(id))
    ensures Durable.After(plan, w, LaunchTask(id)) ==
      w.(memory := Some(w.memory.value.(sched := Scheduler.After(s, Launch(id)))))
  {
  }

  // Execute's update at a launch; its entry was untouched.
  lemma JournalLaunch(plan: Plan, w: World, launched: World, jobs: nat, s: State, id: Id, wrote: bool, mayFail: bool)
    returns (w': World)
    requires Turning(plan, w, jobs, s) && Scheduler.Enabled(plan.needs, jobs, s, Launch(id)) && FirstRun(w)
    requires Turning(plan, launched, jobs, Scheduler.After(s, Launch(id))) && (wrote || mayFail)
    requires launched.memory.value.result == w.memory.value.result
    ensures Takes(plan, launched, [ReportTask(id, FRESH.(status := Running), wrote)], w')
    ensures Either(plan, w', jobs, Scheduler.After(s, Launch(id)), mayFail)
  {
    var report := ReportTask(id, FRESH.(status := Running), wrote);
    assert w.memory.value.result.tasks[id] == FRESH;
    assert Within(plan, launched.memory.value, id);
    LaunchIsReportable(plan, launched, id, wrote);
    StepKeepsWorld(plan, launched, report);
    ReportFits(plan, launched, jobs, Scheduler.After(s, Launch(id)), report, mayFail);
    TakesOne(plan, launched, report);
    w' := Durable.After(plan, launched, report);
  }

  lemma LaunchIsReportable(plan: Plan, w: World, id: Id, wrote: bool)
    requires w.memory.Some? && w.memory.value.landing.None? && Has(w.memory.value.sched, id, Running)
    requires Within(plan, w.memory.value, id) && w.memory.value.result.tasks[id] == FRESH
    ensures Durable.Enabled(plan, w, ReportTask(id, FRESH.(status := Running), wrote))
  {
  }

  lemma TakeFailure(plan: Plan, w: World, jobs: nat, s: State, id: Id, r: TaskResult, wrote: bool, mayFail: bool)
    returns (w': World)
    requires Turning(plan, w, jobs, s) && Scheduler.Enabled(plan.needs, jobs, s, Complete(id, r.status))
    requires MayEndWith(plan, w, id, r.status, r) && r.status != Success && (wrote || mayFail)
    ensures Takes(plan, w, EndSteps(id, r, wrote), w')
    ensures Either(plan, w', jobs, Scheduler.After(s, Complete(id, r.status)), mayFail)
  {
    FailIsEnabled(plan, w, jobs, s, id, r, wrote);
    StepKeepsWorld(plan, w, Fail(id, r, wrote));
    FailFits(plan, w, jobs, s, id, r, wrote, mayFail);
    TakesOne(plan, w, Fail(id, r, wrote));
    w' := Durable.After(plan, w, Fail(id, r, wrote));
  }

  lemma FailIsEnabled(plan: Plan, w: World, jobs: nat, s: State, id: Id, r: TaskResult, wrote: bool)
    requires Turning(plan, w, jobs, s) && Scheduler.Enabled(plan.needs, jobs, s, Complete(id, r.status))
    requires MayEndWith(plan, w, id, r.status, r) && r.status != Success
    ensures Durable.Enabled(plan, w, Fail(id, r, wrote))
  {
  }

  lemma FailFits(plan: Plan, w: World, jobs: nat, s: State, id: Id, r: TaskResult, wrote: bool, mayFail: bool)
    requires w.memory.Some? && Fits(plan, w.memory.value, jobs, s) && Durable.Enabled(plan, w, Fail(id, r, wrote))
    requires wrote || mayFail
    ensures var m', s' := Durable.After(plan, w, Fail(id, r, wrote)).memory, Scheduler.After(s, Complete(id, r.status));
      m'.Some? && (Fits(plan, m'.value, jobs, s') || (mayFail && Fits(plan, m'.value, jobs, Over(s'))))
  {
    var m, s' := w.memory.value, Scheduler.After(s, Complete(id, r.status));
    SetFits(plan, m, jobs, s, s', id, r);
    assert m.(sched := s', landing := None) == m.(sched := s');
    PersistFits(plan, w, SetTask(m.(sched := s'), id, r), wrote, jobs, s', mayFail);
  }

  lemma TakeSuccess(plan: Plan, w: World, jobs: nat, s: State, id: Id, r: TaskResult, wrote: bool, mayFail: bool)
    returns (w': World)
    requires Turning(plan, w, jobs, s) && Scheduler.Enabled(plan.needs, jobs, s, Complete(id, Success))
    requires MayEndWith(plan, w, id, Success, r) && (wrote || mayFail)
    ensures Takes(plan, w, EndSteps(id, r, wrote), w')
    ensures Either(plan, w', jobs, Scheduler.After(s, Complete(id, Success)), mayFail)
  {
    var landed := LandNow(plan, w, jobs, s, id, r);
    w' := WriteLanding(plan, landed, jobs, s, id, wrote, mayFail);
    SuccessIsTaken(plan, w, landed, w', id, r, wrote);
  }

  lemma SuccessIsTaken(plan: Plan, w: World, landed: World, w': World, id: Id, r: TaskResult, wrote: bool)
    requires r.status == Success && r.commit.Some?
    requires Takes(plan, w, LandingSteps(id, r), landed) && Takes(plan, landed, [JournalLanding(wrote)], w')
    ensures Takes(plan, w, EndSteps(id, r, wrote), w')
  {
    TakesAll(plan, w, LandingSteps(id, r), landed, [JournalLanding(wrote)], w');
    assert EndSteps(id, r, wrote) == LandingSteps(id, r) + [JournalLanding(wrote)];
  }

  lemma LandingIsTaken(plan: Plan, w: World, moved: World, landed: World, id: Id, r: TaskResult)
    requires r.commit.Some? && Takes(plan, w, [MoveHead(id, r.commit.value)], moved)
    requires Takes(plan, moved, [Land(id, r)], landed)
    ensures Takes(plan, w, LandingSteps(id, r), landed)
  {
    TakesAll(plan, w, [MoveHead(id, r.commit.value)], moved, [Land(id, r)], landed);
    assert LandingSteps(id, r) == [MoveHead(id, r.commit.value)] + [Land(id, r)];
  }

  lemma LandNow(plan: Plan, w: World, jobs: nat, s: State, id: Id, r: TaskResult) returns (landed: World)
    requires Turning(plan, w, jobs, s) && Has(s, id, Running) && MayEndWith(plan, w, id, Success, r)
    ensures Takes(plan, w, LandingSteps(id, r), landed)
    ensures Between(plan, landed, jobs, s, id)
  {
    var moved := MoveTo(plan, w, jobs, s, id, r);
    landed := LandAt(plan, moved, jobs, s, id, r);
    LandingIsTaken(plan, w, moved, landed, id, r);
  }

  lemma MoveTo(plan: Plan, w: World, jobs: nat, s: State, id: Id, r: TaskResult) returns (moved: World)
    requires Turning(plan, w, jobs, s) && Has(s, id, Running) && MayEndWith(plan, w, id, Success, r)
    ensures Takes(plan, w, [MoveHead(id, r.commit.value)], moved)
    ensures Turning(plan, moved, jobs, s) && Durable.Enabled(plan, moved, Land(id, r))
  {
    assert Durable.Enabled(plan, w, MoveHead(id, r.commit.value));
    StepKeepsWorld(plan, w, MoveHead(id, r.commit.value));
    TakesOne(plan, w, MoveHead(id, r.commit.value));
    moved := Durable.After(plan, w, MoveHead(id, r.commit.value));
  }

  // The checkpoint is written, the journal not yet.
  ghost predicate Between(plan: Plan, w: World, jobs: nat, s: State, id: Id) {
    WorldOk(plan, w) && w.memory.Some? && LandingDue(plan, w.memory.value, jobs, s, id)
  }

  ghost predicate LandingDue(plan: Plan, m: Memory, jobs: nat, s: State, id: Id) {
    && m.landing.Some? && m.landing.value.id == id && Fits(plan, m.(landing := None), jobs, s)
    && id in m.offsets && m.landing.value.result.attempts <= m.offsets[id] + Budget(plan, id)
  }

  lemma LandAt(plan: Plan, w: World, jobs: nat, s: State, id: Id, r: TaskResult) returns (landed: World)
    requires Turning(plan, w, jobs, s) && Durable.Enabled(plan, w, Land(id, r))
    ensures Takes(plan, w, [Land(id, r)], landed) && Between(plan, landed, jobs, s, id)
  {
    StepKeepsWorld(plan, w, Land(id, r));
    TakesOne(plan, w, Land(id, r));
    landed := Durable.After(plan, w, Land(id, r));
    assert landed.memory.value.(landing := None) == w.memory.value;
  }

  lemma WriteLanding(plan: Plan, w: World, jobs: nat, s: State, id: Id, wrote: bool, mayFail: bool)
    returns (written: World)
    requires Between(plan, w, jobs, s, id) && (wrote || mayFail)
    ensures Takes(plan, w, [JournalLanding(wrote)], written)
    ensures Either(plan, written, jobs, Scheduler.After(s, Complete(id, Success)), mayFail)
  {
    assert Durable.Enabled(plan, w, JournalLanding(wrote));
    StepKeepsWorld(plan, w, JournalLanding(wrote));
    LandingFits(plan, w, jobs, s, id, wrote, mayFail);
    TakesOne(plan, w, JournalLanding(wrote));
    written := Durable.After(plan, w, JournalLanding(wrote));
  }

  lemma LandingFits(plan: Plan, w: World, jobs: nat, s: State, id: Id, wrote: bool, mayFail: bool)
    requires w.memory.Some? && LandingDue(plan, w.memory.value, jobs, s, id) && (wrote || mayFail)
    ensures Durable.Enabled(plan, w, JournalLanding(wrote))
    ensures
      var m' := Durable.After(plan, w, JournalLanding(wrote)).memory;
      var s' := Scheduler.After(s, Complete(id, Success));
      m'.Some? && (Fits(plan, m'.value, jobs, s') || (mayFail && Fits(plan, m'.value, jobs, Over(s'))))
  {
    var m, s' := w.memory.value, Scheduler.After(s, Complete(id, Success));
    var r := m.landing.value.result;
    SetFits(plan, m.(landing := None), jobs, s, s', id, r);
    assert m.(landing := None).(sched := s', landing := None) == m.(sched := s', landing := None);
    PersistFits(plan, w, SetTask(m.(sched := s', landing := None), id, r), wrote, jobs, s', mayFail);
  }

  lemma TakeCompletion(plan: Plan, w: World, jobs: nat, s: State, id: Id, status: Status, wrote: bool, mayFail: bool,
                       results: (World, Id, Status) -> TaskResult)
    returns (w': World)
    requires Turning(plan, w, jobs, s) && Scheduler.Enabled(plan.needs, jobs, s, Complete(id, status))
    requires Delivers(plan, results) && (wrote || mayFail)
    ensures Takes(plan, w, LoopSteps(w, Complete(id, status), wrote, results), w')
    ensures Either(plan, w', jobs, Scheduler.After(s, Complete(id, status)), mayFail)
  {
    var r := results(w, id, status);
    assert MayEndWith(plan, w, id, status, r);
    if status == Success {
      w' := TakeSuccess(plan, w, jobs, s, id, r, wrote, mayFail);
    } else {
      w' := TakeFailure(plan, w, jobs, s, id, r, wrote, mayFail);
    }
  }

  lemma TakeStep(plan: Plan, w: World, jobs: nat, s: State, step: Scheduler.Step, wrote: bool, mayFail: bool,
                 results: (World, Id, Status) -> TaskResult)
    returns (w': World)
    requires Turning(plan, w, jobs, s) && Scheduler.Enabled(plan.needs, jobs, s, step)
    requires Delivers(plan, results) && (wrote || mayFail)
    ensures Takes(plan, w, LoopSteps(w, step, wrote, results), w')
    ensures Either(plan, w', jobs, Scheduler.After(s, step), mayFail)
  {
    match step
    case Launch(id) => w' := TakeLaunch(plan, w, jobs, s, id, wrote, mayFail, results);
    case Complete(id, status) => w' := TakeCompletion(plan, w, jobs, s, id, status, wrote, mayFail, results);
    case Sweep(_) => w' := TakeSettling(plan, w, jobs, s, step, wrote, mayFail, results);
    case Block(_) => w' := TakeSettling(plan, w, jobs, s, step, wrote, mayFail, results);
    case _ => w' := TakeQuiet(plan, w, jobs, s, step, wrote, results);
  }

  // ------------------------------------------------------------------------- every run

  // What goes on around one step of the loop: the workers' steps before it, and whether its
  // own journal write goes through.
  datatype Doings = Doings(work: seq<Durable.Step>, wrote: bool)

  // A write may fail when the context has ended, or ends next in this run.
  ghost predicate MayFail(run: seq<State>, n: nat)
    requires n < |run|
  {
    run[n].done || (n + 1 < |run| && run[n + 1] == Over(run[n]))
  }

  // From one state of the run to the next: first the workers, then, unless one of their writes
  // has failed and so ended the context as the run says, the steps of the loop.
  ghost predicate Turned(plan: Plan, w: World, w': World, jobs: nat, run: seq<State>, n: nat, doings: Doings,
                         results: (World, Id, Status) -> TaskResult)
    requires n + 1 < |run|
  {
    var worked := Work(plan, w, doings.work, MayFail(run, n));
    if worked.memory.Some? && worked.memory.value.sched == run[n]
    then exists step :: LoopTurned(plan, worked, w', jobs, run, n, step, doings.wrote, results)
    else w' == worked
  }

  ghost predicate LoopTurned(plan: Plan, w: World, w': World, jobs: nat, run: seq<State>, n: nat, step: Scheduler.Step,
                             wrote: bool, results: (World, Id, Status) -> TaskResult)
    requires n + 1 < |run|
  {
    && Scheduler.Enabled(plan.needs, jobs, run[n], step) && run[n + 1] == Scheduler.After(run[n], step)
    && Takes(plan, w, LoopSteps(w, step, wrote || !MayFail(run, n + 1), results), w')
  }

  // The worlds at the states of a run of the loop.
  ghost predicate Journey(plan: Plan, ws: seq<World>, jobs: nat, run: seq<State>, doings: nat -> Doings,
                          results: (World, Id, Status) -> TaskResult)
  {
    && 0 < |ws| <= |run|
    && forall n: nat {:trigger TurnedAt(plan, ws, jobs, run, n, doings, results)} ::
      n + 1 < |ws| ==> TurnedAt(plan, ws, jobs, run, n, doings, results)
  }

  ghost predicate TurnedAt(plan: Plan, ws: seq<World>, jobs: nat, run: seq<State>, n: nat, doings: nat -> Doings,
                           results: (World, Id, Status) -> TaskResult)
    requires n + 1 < |ws| <= |run|
  {
    Turned(plan, ws[n], ws[n + 1], jobs, run, n, doings(n), results)
  }

  lemma TurnOnce(plan: Plan, w: World, jobs: nat, run: seq<State>, n: nat, doings: Doings,
                 results: (World, Id, Status) -> TaskResult)
    returns (w': World)
    requires Scheduler.IsRun(plan.needs, jobs, run) && n + 1 < |run| && Delivers(plan, results)
    requires Either(plan, w, jobs, run[n], MayFail(run, n))
    ensures Turned(plan, w, w', jobs, run, n, doings, results) && Leads(plan, w, w')
    ensures Either(plan, w', jobs, run[n + 1], MayFail(run, n + 1))
  {
    var worked := Work(plan, w, doings.work, MayFail(run, n));
    WorkKeeps(plan, w, jobs, run[n], doings.work, MayFail(run, n));
    if Turning(plan, worked, jobs, run[n]) {
      w' := LoopTurn(plan, worked, jobs, run, n, doings.wrote, results);
      LeadsFurther(plan, w, worked, w');
    } else {
      w' := worked;
    }
  }

  lemma LoopTurn(plan: Plan, w: World, jobs: nat, run: seq<State>, n: nat, wrote: bool,
                 results: (World, Id, Status) -> TaskResult)
    returns (w': World)
    requires Scheduler.IsRun(plan.needs, jobs, run) && n + 1 < |run| && Delivers(plan, results)
    requires Turning(plan, w, jobs, run[n])
    ensures exists step :: LoopTurned(plan, w, w', jobs, run, n, step, wrote, results)
    ensures Leads(plan, w, w') && Either(plan, w', jobs, run[n + 1], MayFail(run, n + 1))
  {
    assert Scheduler.NextAt(plan.needs, jobs, run, n);
    var step :| Scheduler.Enabled(plan.needs, jobs, run[n], step) && run[n + 1] == Scheduler.After(run[n], step);
    var mayFail := MayFail(run, n + 1);
    w' := TakeStep(plan, w, jobs, run[n], step, wrote || !mayFail, mayFail, results);
    TakesLeads(plan, w, LoopSteps(w, step, wrote || !mayFail, results), w');
    assert LoopTurned(plan, w, w', jobs, run, n, step, wrote, results);
  }

  // Every run of the scheduling loop, whatever goes on around its steps, is what durable steps
  // do to the statuses.
  lemma {:induction false} LoopIsDurable(plan: Plan, w: World, jobs: nat, run: seq<State>, n: nat,
                                         doings: nat -> Doings, results: (World, Id, Status) -> TaskResult)
    returns (ws: seq<World>)
    requires Scheduler.IsRun(plan.needs, jobs, run) && n < |run|
    requires Turning(plan, w, jobs, run[0]) && Delivers(plan, results)
    ensures |ws| == n + 1 && ws[0] == w && Journey(plan, ws, jobs, run, doings, results)
    ensures Leads(plan, w, ws[n]) && Either(plan, ws[n], jobs, run[n], MayFail(run, n))
  {
    if n == 0 {
      LeadsNowhere(plan, w);
      ws := [w];
    } else {
      var before := LoopIsDurable(plan, w, jobs, run, n - 1, doings, results);
      var next := TurnOnce(plan, before[n - 1], jobs, run, n - 1, doings(n - 1), results);
      LeadsFurther(plan, w, before[n - 1], next);
      ws := before + [next];
      JourneySnoc(plan, before, next, jobs, run, doings, results);
    }
  }

  lemma JourneySnoc(plan: Plan, ws: seq<World>, w: World, jobs: nat, run: seq<State>, doings: nat -> Doings,
                    results: (World, Id, Status) -> TaskResult)
    requires Journey(plan, ws, jobs, run, doings, results) && |ws| < |run|
    requires Turned(plan, ws[|ws| - 1], w, jobs, run, |ws| - 1, doings(|ws| - 1), results)
    ensures Journey(plan, ws + [w], jobs, run, doings, results)
  {
    forall n: nat | n + 1 < |ws + [w]| ensures TurnedAt(plan, ws + [w], jobs, run, n, doings, results) {
      if n + 1 < |ws| { assert TurnedAt(plan, ws, jobs, run, n, doings, results); }
    }
  }

  // ---------------------------------------------------------------------- where it starts

  // A loop about to start with these recovered successes.
  ghost predicate AtStart(plan: Plan, w: World, jobs: nat, recovered: set<Id>) {
    && w.memory.Some? && !w.memory.value.broken && Turning(plan, w, jobs, StartOf(w.memory.value.result.tasks))
    && forall id :: id in recovered <==> Has(w.memory.value.sched, id, Success)
  }

  // Execute starts so, without successes.
  lemma ExecuteStarts(plan: Plan, w: World)
    requires PlanOk(plan) && Start(plan, w)
    ensures AtStart(plan, w, w.memory.value.jobs, {})
  {
    StartIsOk(plan, w);
  }

  // And Resume, with the checkpointed ones.
  lemma ResumeStarts(plan: Plan, w: World, jobs: nat, closedAt: string, startedAt: string)
    requires WorldOk(plan, w) && Durable.Enabled(plan, w, Resume(jobs, closedAt, startedAt))
    ensures AtStart(plan, Durable.After(plan, w, Resume(jobs, closedAt, startedAt)), jobs, w.disk.checkpoints.Keys)
  {
    ResumedIsTurning(plan, w, jobs, closedAt, startedAt);
    forall id ensures id in w.disk.checkpoints <==> Has(StartOf(Reset(Recovered(plan, w.disk))), id, Success) {
      RecoveredIsCheckpointed(plan, w.disk, id);
    }
  }

  lemma ResumedIsTurning(plan: Plan, w: World, jobs: nat, closedAt: string, startedAt: string)
    requires WorldOk(plan, w) && Durable.Enabled(plan, w, Resume(jobs, closedAt, startedAt))
    ensures var w' := Durable.After(plan, w, Resume(jobs, closedAt, startedAt));
      && Turning(plan, w', jobs, StartOf(Reset(Recovered(plan, w.disk)))) && !w'.memory.value.broken
      && w'.memory.value.result.tasks == Reset(Recovered(plan, w.disk))
  {
    ResumeKeeps(plan, w, jobs, closedAt, startedAt);
    ResumedProcess(plan, w.disk, jobs, closedAt, startedAt);
  }

  lemma ResumedProcess(plan: Plan, d: Disk, jobs: nat, closedAt: string, startedAt: string)
    requires d.journal.tasks.Keys == plan.needs.Keys && d.journal.runs != []
    ensures var m := Resumed(plan, d, jobs, closedAt, startedAt).memory.value;
      && Fits(plan, m, jobs, StartOf(Reset(Recovered(plan, d)))) && !m.broken
      && m.result.tasks == Reset(Recovered(plan, d))
  {
    var before, after := Recovered(plan, d), Reset(Recovered(plan, d));
    assert StartOf(before).states == StartOf(after).states;
    var m := Resumed(plan, d, jobs, closedAt, startedAt).memory.value;
    forall id | id in plan.needs ensures Within(plan, m, id) {
    }
  }

  lemma RecoveredIsCheckpointed(plan: Plan, d: Disk, id: Id)
    requires PlanOk(plan) && DiskOk(plan, d)
    ensures id in d.checkpoints <==> Has(StartOf(Reset(Recovered(plan, d))), id, Success)
  {
    if id in d.checkpoints {
      assert CheckpointOk(plan, d, id);
    } else if id in plan.needs {
      assert EntryOk(plan, d.checkpoints, |d.journal.runs|, d.journal.tasks[id], id);
    }
  }

  // The loop, started by Execute or by a resume, whatever goes on around it and with whatever
  // results its tasks end: its statuses are those at the end of a journey of durable steps,
  // after which the run can be finished unless a write has failed.
  method RunPersisted(plan: Plan, tasks: seq<Id>, jobs: int, recovered: set<Id>, ghost w: World,
                      ghost doings: nat -> Doings, ghost results: (World, Id, Status) -> TaskResult)
    returns (states: map<Id, Status>, ghost run: seq<State>, ghost ws: seq<World>)
    requires (forall id :: id in tasks <==> id in plan.needs) && jobs >= 0
    requires AtStart(plan, w, if jobs == 0 then 1 else jobs, recovered) && Delivers(plan, results)
    ensures Ended(states) == plan.needs.Keys
    ensures |ws| == |run| > 0 && ws[0] == w && Journey(plan, ws, if jobs == 0 then 1 else jobs, run, doings, results)
    ensures Leads(plan, w, ws[|ws| - 1]) && LoopEnds(plan, ws[|ws| - 1], states)
  {
    var report;
    RecoveredIsClosed(plan, w, if jobs == 0 then 1 else jobs, recovered);
    report, run := Executor.Schedule(plan.needs, tasks, jobs, recovered);
    states := report.states;
    ws := WholeLoop(plan, w, if jobs == 0 then 1 else jobs, recovered, run, doings, results);
    EndIsOver(plan, ws[|ws| - 1], if jobs == 0 then 1 else jobs, run[|run| - 1]);
  }

  // All tasks have ended with these statuses, and the run can be finished.
  ghost predicate LoopEnds(plan: Plan, w: World, states: map<Id, Status>) {
    AtEnd(plan, w) && w.memory.value.sched.states == states
  }

  lemma WholeLoop(plan: Plan, w: World, jobs: nat, recovered: set<Id>, run: seq<State>, doings: nat -> Doings,
                  results: (World, Id, Status) -> TaskResult)
    returns (ws: seq<World>)
    requires AtStart(plan, w, jobs, recovered) && Delivers(plan, results)
    requires Scheduler.IsRun(plan.needs, jobs, run) && Initial(plan.needs, run[0], recovered)
    ensures |ws| == |run| && ws[0] == w && Journey(plan, ws, jobs, run, doings, results)
    ensures Leads(plan, w, ws[|ws| - 1]) && Turning(plan, ws[|ws| - 1], jobs, run[|run| - 1])
  {
    StartIsInitial(plan, w, jobs, recovered, run[0]);
    ws := LoopIsDurable(plan, w, jobs, run, |run| - 1, doings, results);
    assert MayFail(run, |run| - 1) ==> Over(run[|run| - 1]) == run[|run| - 1];
  }

  lemma EndIsOver(plan: Plan, last: World, jobs: nat, s: State)
    requires Turning(plan, last, jobs, s) && Ended(s.states) == plan.needs.Keys
    ensures LoopEnds(plan, last, s.states)
  {
  }

  lemma RecoveredIsClosed(plan: Plan, w: World, jobs: nat, recovered: set<Id>)
    requires AtStart(plan, w, jobs, recovered)
    ensures Known(plan.needs) && !HasCycle(plan.needs) && recovered <= plan.needs.Keys
    ensures forall id, n :: id in recovered && n in plan.needs[id] ==> n in recovered
  {
    forall id, n | id in recovered && n in plan.needs[id] ensures n in recovered {
      assert Supported(plan.needs, w.memory.value.sched, id);
      assert Has(w.memory.value.sched, n, Success);
    }
  }

  lemma StartIsInitial(plan: Plan, w: World, jobs: nat, recovered: set<Id>, s: State)
    requires AtStart(plan, w, jobs, recovered) && Initial(plan.needs, s, recovered)
    ensures s == w.memory.value.sched
  {
    assert s.states == w.memory.value.sched.states;
  }
}
