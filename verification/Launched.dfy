// A launched task, from its launch to its completion: the journal writes and the
// result of executeTaskAt are steps that the durable relation allows, whatever the other
// tasks and the main loop do in between.
module Launched {
  import opened Ids
  import opened Git
  import opened Scheduler
  import opened Worker
  import opened Durable
  import opened Crashes

  ghost predicate AtWork(w: World, id: Id) {
    && w.memory.Some? && Has(w.memory.value.sched, id, Running)
    && !(w.memory.value.landing.Some? && w.memory.value.landing.value.id == id)
  }

  // -------------------------------------------------------------------------- chains

  ghost predicate LinkAt(plan: Plan, ws: seq<World>, i: nat)
    requires i + 1 < |ws|
  {
    Durable.Next(plan, ws[i], ws[i + 1])
  }

  ghost predicate Chain(plan: Plan, ws: seq<World>) {
    ws != [] && forall i: nat :: i + 1 < |ws| ==> LinkAt(plan, ws, i)
  }

  lemma ChainSnoc(plan: Plan, ws: seq<World>, w: World)
    requires Chain(plan, ws) && Durable.Next(plan, ws[|ws| - 1], w)
    ensures Chain(plan, ws + [w]) && (ws + [w])[0] == ws[0]
  {
    forall i: nat | i + 1 < |ws + [w]| ensures LinkAt(plan, ws + [w], i) {
      if i + 1 < |ws| { assert LinkAt(plan, ws, i); }
    }
  }

  lemma Alone(plan: Plan, w: World) returns (ws: seq<World>)
    ensures Chain(plan, ws) && ws[0] == w && ws[|ws| - 1] == w
  {
    ws := [w];
  }

  lemma Further(plan: Plan, ws: seq<World>, w: World) returns (ws': seq<World>)
    requires Chain(plan, ws) && Durable.Next(plan, ws[|ws| - 1], w)
    ensures Chain(plan, ws') && ws'[0] == ws[0] && ws'[|ws'| - 1] == w
  {
    ChainSnoc(plan, ws, w);
    ws' := ws + [w];
  }

  lemma OneStep(plan: Plan, a: World, b: World) returns (ws: seq<World>)
    requires Durable.Next(plan, a, b)
    ensures Chain(plan, ws) && ws[0] == a && ws[|ws| - 1] == b
  {
    ws := Alone(plan, a);
    ws := Further(plan, ws, b);
  }

  lemma TwoSteps(plan: Plan, a: World, b: World, c: World) returns (ws: seq<World>)
    requires Durable.Next(plan, a, b) && Durable.Next(plan, b, c)
    ensures Chain(plan, ws) && ws[0] == a && ws[|ws| - 1] == c
  {
    ws := OneStep(plan, a, b);
    ws := Further(plan, ws, c);
  }

  lemma Join(plan: Plan, a: seq<World>, b: seq<World>) returns (ws: seq<World>)
    requires Chain(plan, a) && Chain(plan, b) && a[|a| - 1] == b[0]
    ensures Chain(plan, ws) && ws[0] == a[0] && ws[|ws| - 1] == b[|b| - 1]
  {
    ws := a + b[1..];
    forall i: nat | i + 1 < |ws| ensures LinkAt(plan, ws, i) {
      if i + 1 < |a| { assert LinkAt(plan, a, i); } else { assert LinkAt(plan, b, i + 1 - |a|); }
    }
  }

  // ---------------------------------------------------------------- what others may do

  // A step of the same process that is not this task's own.
  predicate Others(step: Durable.Step, id: Id) {
    match step
    case SweepTask(x, _) => x != id
    case BlockTask(x, _) => x != id
    case LaunchTask(x) => x != id
    case MoveHead(x, _) => x != id
    case ReportTask(x, _, _) => x != id
    case Land(x, _) => x != id
    case Fail(x, _, _) => x != id
    case Crash => false
    case Resume(_, _, _) => false
    case _ => true
  }

  // What others leave alone: the task's own entry and those of finished tasks, the
  // numbering of the runs, and the attempts each task came with.
  ghost predicate Undisturbed(w: World, w': World, id: Id) {
    && w.memory.Some? && w'.memory.Some?
    && var m, m' := w.memory.value, w'.memory.value;
       && m'.offsets == m.offsets && |m'.result.runs| == |m.result.runs| && (m.sched.done ==> m'.sched.done)
       && forall x :: x in m.result.tasks && (x == id || Has(m.sched, x, Success)) ==>
            && x in m'.result.tasks && m'.result.tasks[x] == m.result.tasks[x]
            && (Has(m.sched, x, Success) ==> Has(m'.sched, x, Success))
  }

  lemma UndisturbedTransitive(a: World, b: World, c: World, id: Id)
    requires Undisturbed(a, b, id) && Undisturbed(b, c, id)
    ensures Undisturbed(a, c, id)
  {
  }

  // The task that a journalling step writes about.
  function Subject(w: World, step: Durable.Step): Option<Id> {
    match step
    case SweepTask(x, _) => Some(x)
    case BlockTask(x, _) => Some(x)
    case ReportTask(x, _, _) => Some(x)
    case Fail(x, _, _) => Some(x)
    case JournalLanding(_) =>
      if w.memory.Some? && w.memory.value.landing.Some? then Some(w.memory.value.landing.value.id) else None
    case _ => None
  }

  // A journalling step changes the entry and the status of its subject only.
  lemma WritesOnlySubject(w: World, step: Durable.Step)
    requires w.memory.Some? && Journals(step) && Written(w, step).Some?
    ensures OnlyChanges(w.memory.value, Written(w, step).value, Subject(w, step))
  {
  }

  ghost predicate OnlyChanges(m: Memory, m': Memory, subject: Option<Id>) {
    && m'.offsets == m.offsets && m'.result.runs == m.result.runs && (m'.landing == m.landing || m'.landing == None)
    && m'.sched.done == m.sched.done
    && forall x :: subject != Some(x) ==>
         && (x in m.result.tasks ==> x in m'.result.tasks && m'.result.tasks[x] == m.result.tasks[x])
         && (x in m.sched.states ==> x in m'.sched.states && m'.sched.states[x] == m.sched.states[x])
  }

  lemma SparesOthers(w: World, m': Memory, wrote: bool, subject: Option<Id>, id: Id)
    requires AtWork(w, id) && OnlyChanges(w.memory.value, m', subject) && subject != Some(id)
    requires subject.Some? ==> !Has(w.memory.value.sched, subject.value, Success)
    ensures AtWork(Persist(w, m', wrote), id) && Undisturbed(w, Persist(w, m', wrote), id)
  {
    PersistUndisturbed(w, m', wrote);
  }

  lemma SubjectIsUnfinished(plan: Plan, w: World, step: Durable.Step)
    requires WorldOk(plan, w) && Durable.Enabled(plan, w, step) && Journals(step)
    ensures w.memory.Some?
    ensures Subject(w, step).Some? ==> !Has(w.memory.value.sched, Subject(w, step).value, Success)
  {
    if step.JournalLanding? {
      assert LandingOk(w.disk, w.memory.value);
    }
  }

  lemma PersistUndisturbed(w: World, m: Memory, wrote: bool)
    ensures var w' := Persist(w, m, wrote);
      && w'.memory.Some? && w'.memory.value.offsets == m.offsets && w'.memory.value.result == m.result
      && w'.memory.value.landing == m.landing && w'.memory.value.sched.states == m.sched.states
      && (m.sched.done ==> w'.memory.value.sched.done)
  {
  }

  lemma OthersJournalKeeps(plan: Plan, w: World, step: Durable.Step, id: Id)
    requires WorldOk(plan, w) && AtWork(w, id) && Durable.Enabled(plan, w, step) && Others(step, id) && Journals(step)
    ensures AtWork(Durable.After(plan, w, step), id) && Undisturbed(w, Durable.After(plan, w, step), id)
  {
    JournallingPersists(plan, w, step);
    WritesOnlySubject(w, step);
    SubjectIsUnfinished(plan, w, step);
    SparesOthers(w, Written(w, step).value, step.wrote, Subject(w, step), id);
  }

  // Nothing of the loop's end is possible while a task is running.
  lemma NotEnded(plan: Plan, w: World, id: Id)
    requires WorldOk(plan, w) && AtWork(w, id)
    ensures Ended(w.memory.value.sched.states) != plan.needs.Keys
  {
    assert id !in Ended(w.memory.value.sched.states);
  }

  // The steps of others that write nothing: the scheduler's, and those on other worktrees.
  lemma OthersQuietKeeps(plan: Plan, w: World, step: Durable.Step, id: Id)
    requires WorldOk(plan, w) && AtWork(w, id) && Durable.Enabled(plan, w, step) && Others(step, id) && !Journals(step)
    ensures AtWork(Durable.After(plan, w, step), id) && Undisturbed(w, Durable.After(plan, w, step), id)
  {
    NotEnded(plan, w, id);
    if step.EndContext? || step.Check? || step.LaunchTask? {
      OthersSchedulerKeeps(plan, w, step, id);
    } else {
      OthersDiskKeeps(plan, w, step, id);
    }
  }

  lemma OthersSchedulerKeeps(plan: Plan, w: World, step: Durable.Step, id: Id)
    requires AtWork(w, id) && Durable.Enabled(plan, w, step) && Others(step, id)
    requires step.EndContext? || step.Check? || step.LaunchTask?
    ensures AtWork(Durable.After(plan, w, step), id) && Undisturbed(w, Durable.After(plan, w, step), id)
  {
  }

  lemma OthersDiskKeeps(plan: Plan, w: World, step: Durable.Step, id: Id)
    requires AtWork(w, id) && Durable.Enabled(plan, w, step) && Others(step, id) && !Journals(step)
    requires !(step.EndContext? || step.Check? || step.LaunchTask?)
    requires Ended(w.memory.value.sched.states) != plan.needs.Keys
    ensures AtWork(Durable.After(plan, w, step), id) && Undisturbed(w, Durable.After(plan, w, step), id)
  {
  }

  lemma OthersKeep(plan: Plan, w: World, step: Durable.Step, id: Id)
    requires WorldOk(plan, w) && AtWork(w, id) && Durable.Enabled(plan, w, step) && Others(step, id)
    ensures WorldOk(plan, Durable.After(plan, w, step))
    ensures AtWork(Durable.After(plan, w, step), id) && Undisturbed(w, Durable.After(plan, w, step), id)
  {
    StepKeepsWorld(plan, w, step);
    if Journals(step) { OthersJournalKeeps(plan, w, step, id); } else { OthersQuietKeeps(plan, w, step, id); }
  }

  ghost predicate OthersNext(plan: Plan, w: World, w': World, id: Id) {
    exists step :: Durable.Enabled(plan, w, step) && Others(step, id) && w' == Durable.After(plan, w, step)
  }

  ghost predicate OthersAt(plan: Plan, ws: seq<World>, i: nat, id: Id)
    requires i + 1 < |ws|
  {
    OthersNext(plan, ws[i], ws[i + 1], id)
  }

  // Any number of steps of others.
  ghost predicate Interlude(plan: Plan, w: World, ws: seq<World>, id: Id) {
    ws != [] && ws[0] == w && forall i: nat :: i + 1 < |ws| ==> OthersAt(plan, ws, i, id)
  }

  // The task is still at work, and undisturbed.
  ghost predicate Held(plan: Plan, w: World, w': World, id: Id) {
    WorldOk(plan, w') && AtWork(w', id) && Undisturbed(w, w', id)
  }

  lemma HeldFurther(plan: Plan, w: World, u: World, v: World, id: Id)
    requires Held(plan, w, u, id) && OthersNext(plan, u, v, id)
    ensures Held(plan, w, v, id)
  {
    var step :| Durable.Enabled(plan, u, step) && Others(step, id) && v == Durable.After(plan, u, step);
    OthersKeep(plan, u, step, id);
    UndisturbedTransitive(w, u, v, id);
  }

  lemma InitInterlude(plan: Plan, w: World, ws: seq<World>, id: Id)
    requires Interlude(plan, w, ws, id) && |ws| > 1
    ensures Interlude(plan, w, ws[..|ws| - 1], id) && OthersNext(plan, ws[|ws| - 2], ws[|ws| - 1], id)
  {
    var init := ws[..|ws| - 1];
    forall i: nat | i + 1 < |init| ensures OthersAt(plan, init, i, id) {
      assert OthersAt(plan, ws, i, id);
    }
    assert OthersAt(plan, ws, |ws| - 2, id);
  }

  lemma {:induction false} InterludeKeeps(plan: Plan, w: World, ws: seq<World>, id: Id)
    requires WorldOk(plan, w) && AtWork(w, id) && Interlude(plan, w, ws, id)
    ensures Held(plan, w, ws[|ws| - 1], id)
    decreases |ws|
  {
    if |ws| > 1 {
      InitInterlude(plan, w, ws, id);
      InterludeKeeps(plan, w, ws[..|ws| - 1], id);
      HeldFurther(plan, w, ws[|ws| - 2], ws[|ws| - 1], id);
    }
  }

  lemma InterludeIsChain(plan: Plan, w: World, ws: seq<World>, id: Id)
    requires Interlude(plan, w, ws, id)
    ensures Chain(plan, ws)
  {
    forall i: nat | i + 1 < |ws| ensures LinkAt(plan, ws, i) {
      assert OthersAt(plan, ws, i, id);
    }
  }

  // ------------------------------------------------------------------ the task's own steps

  ghost function OwnWorktree(w: World, id: Id): Worktree
    requires w.memory.Some?
  {
    Worktree(id, |w.memory.value.result.runs|)
  }

  // A worker whose reports may still raise the attempts of `id` up to `high`.
  ghost predicate MayReport(plan: Plan, w: World, id: Id, high: nat) {
    && AtWork(w, id) && id in w.memory.value.result.tasks && id in w.memory.value.offsets
    && w.memory.value.result.tasks[id].attempts <= high <= w.memory.value.offsets[id] + Budget(plan, id)
  }

  // The needs' commits, in the order of the plan.
  ghost predicate Commits(m: Memory, needs: seq<Id>, commits: seq<Commit>) {
    && |commits| == |needs|
    && forall i :: 0 <= i < |needs| ==>
         needs[i] in m.result.tasks && m.result.tasks[needs[i]].commit == Some(commits[i])
  }

  // A worker at its work, with the commits it was given.
  ghost predicate Busy(plan: Plan, w: World, id: Id, needs: seq<Commit>, high: nat) {
    && WorldOk(plan, w) && MayReport(plan, w, id, high) && id in plan.needs
    && Commits(w.memory.value, plan.needs[id], needs)
  }

  lemma NeedsSucceeded(plan: Plan, w: World, id: Id, n: Id)
    requires WorldOk(plan, w) && AtWork(w, id) && id in plan.needs && n in plan.needs[id]
    ensures Has(w.memory.value.sched, n, Success) && n != id
  {
    assert Supported(plan.needs, w.memory.value.sched, id);
  }

  // A later moment of the same work.
  ghost predicate Continues(plan: Plan, w: World, w': World, id: Id, needs: seq<Commit>, high: nat) {
    && Busy(plan, w', id, needs, high) && w.memory.Some? && OwnWorktree(w', id) == OwnWorktree(w, id)
    && (w.memory.value.sched.done ==> w'.memory.value.sched.done)
  }

  lemma ContinuesTransitive(plan: Plan, a: World, b: World, c: World, id: Id, needs: seq<Commit>, high: nat)
    requires Continues(plan, a, b, id, needs, high) && Continues(plan, b, c, id, needs, high)
    ensures Continues(plan, a, c, id, needs, high)
  {
  }

  lemma StillBusy(plan: Plan, w: World, w': World, id: Id, needs: seq<Commit>, high: nat)
    requires Busy(plan, w, id, needs, high) && Held(plan, w, w', id)
    ensures Continues(plan, w, w', id, needs, high)
    ensures w'.memory.value.result.tasks[id] == w.memory.value.result.tasks[id]
  {
    BusyNeeds(plan, w, id, needs, high);
  }

  lemma BusyNeeds(plan: Plan, w: World, id: Id, needs: seq<Commit>, high: nat)
    requires Busy(plan, w, id, needs, high)
    ensures forall i :: 0 <= i < |needs| ==> Has(w.memory.value.sched, plan.needs[id][i], Success)
  {
    forall i | 0 <= i < |needs| ensures Has(w.memory.value.sched, plan.needs[id][i], Success) {
      NeedsSucceeded(plan, w, id, plan.needs[id][i]);
    }
  }

  ghost predicate Reports(w: World, w': World, id: Id, update: TaskResult) {
    && w.memory.Some? && w'.memory.Some?
    && var m, m' := w.memory.value, w'.memory.value;
       && m'.sched.states == m.sched.states && m'.landing == m.landing && m'.offsets == m.offsets
       && (m.sched.done ==> m'.sched.done) && m'.result.runs == m.result.runs
       && m'.result.tasks == m.result.tasks[id := update]
  }

  lemma ReportOne(plan: Plan, w: World, id: Id, update: TaskResult, wrote: bool) returns (w': World)
    requires WorldOk(plan, w) && AtWork(w, id)
    requires Durable.Enabled(plan, w, ReportTask(id, update, wrote))
    ensures WorldOk(plan, w') && Durable.Next(plan, w, w') && Reports(w, w', id, update)
  {
    var step := ReportTask(id, update, wrote);
    ReportKeeps(plan, w, id, update, wrote);
    w' := Durable.After(plan, w, step);
    JournallingPersists(plan, w, step);
    PersistReports(w, id, update, wrote);
  }

  lemma PersistReports(w: World, id: Id, update: TaskResult, wrote: bool)
    requires w.memory.Some?
    ensures Reports(w, Persist(w, SetTask(w.memory.value, id, update), wrote), id, update)
  {
  }

  lemma ReportKeepsBusy(plan: Plan, w: World, w': World, id: Id, needs: seq<Commit>, high: nat, update: TaskResult)
    requires Busy(plan, w, id, needs, high) && WorldOk(plan, w') && Reports(w, w', id, update)
    requires update.attempts <= high
    ensures Continues(plan, w, w', id, needs, high) && w'.memory.value.result.tasks[id] == update
  {
    forall i | 0 <= i < |needs| ensures plan.needs[id][i] != id {
      NeedsSucceeded(plan, w, id, plan.needs[id][i]);
    }
  }

  // What happens before the k-th report, and before the completion.
  datatype Surroundings = Surroundings(before: (World, nat) -> seq<World>, settle: World -> seq<World>)

  // Whatever others do; the main loop receives a completion only when it has journalled
  // the one before.
  ghost predicate Allowed(plan: Plan, id: Id, others: Surroundings) {
    && (forall w, k {:trigger others.before(w, k)} ::
         WorldOk(plan, w) && AtWork(w, id) ==> Interlude(plan, w, others.before(w, k), id))
    && (forall w {:trigger others.settle(w)} :: WorldOk(plan, w) && AtWork(w, id) ==>
         Settles(plan, w, others.settle(w), id))
  }

  ghost predicate Settles(plan: Plan, w: World, ws: seq<World>, id: Id) {
    Interlude(plan, w, ws, id) && ws[|ws| - 1].memory.Some? && ws[|ws| - 1].memory.value.landing.None?
  }

  // What a report may say of a worker at its work.
  ghost predicate MaySay(w: World, id: Id, update: TaskResult, high: nat) {
    && w.memory.Some? && id in w.memory.value.result.tasks
    && update.status == Running && update.commit == None && !update.checkpointed
    && (update.worktree.Some? ==> update.worktree.value == OwnWorktree(w, id))
    && w.memory.value.result.tasks[id].attempts <= update.attempts <= high
  }

  lemma ReportNow(plan: Plan, w: World, id: Id, needs: seq<Commit>, update: TaskResult, wrote: bool, high: nat)
    returns (w': World)
    requires Busy(plan, w, id, needs, high) && MaySay(w, id, update, high)
    ensures Durable.Next(plan, w, w') && Continues(plan, w, w', id, needs, high)
    ensures w'.memory.value.result.tasks[id] == update
  {
    w' := ReportOne(plan, w, id, update, wrote);
    ReportKeepsBusy(plan, w, w', id, needs, high, update);
  }

  lemma AfterInterlude(plan: Plan, w: World, between: seq<World>, id: Id, needs: seq<Commit>, high: nat)
    returns (now: World)
    requires Busy(plan, w, id, needs, high) && Interlude(plan, w, between, id)
    ensures now == between[|between| - 1] && Chain(plan, between) && Continues(plan, w, now, id, needs, high)
    ensures now.memory.value.result.tasks[id] == w.memory.value.result.tasks[id]
  {
    InterludeKeeps(plan, w, between, id);
    InterludeIsChain(plan, w, between, id);
    now := between[|between| - 1];
    StillBusy(plan, w, now, id, needs, high);
  }

  // One report, after whatever others did before it.
  lemma ReportAmidst(plan: Plan, w: World, id: Id, needs: seq<Commit>, update: TaskResult, wrote: bool, high: nat,
                     between: seq<World>)
    returns (ws: seq<World>, last: World)
    requires Busy(plan, w, id, needs, high) && Interlude(plan, w, between, id) && MaySay(w, id, update, high)
    ensures Chain(plan, ws) && ws[0] == w && ws[|ws| - 1] == last
    ensures Continues(plan, w, last, id, needs, high) && last.memory.value.result.tasks[id] == update
  {
    var now := AfterInterlude(plan, w, between, id, needs, high);
    MaySayLater(w, now, id, update, high);
    last := ReportNow(plan, now, id, needs, update, wrote, high);
    ContinuesTransitive(plan, w, now, last, id, needs, high);
    ChainSnoc(plan, between, last);
    ws := between + [last];
  }

  lemma MaySayLater(w: World, w': World, id: Id, update: TaskResult, high: nat)
    requires MaySay(w, id, update, high) && w'.memory.Some? && OwnWorktree(w', id) == OwnWorktree(w, id)
    requires id in w'.memory.value.result.tasks && w'.memory.value.result.tasks[id] == w.memory.value.result.tasks[id]
    ensures MaySay(w', id, update, high)
  {
  }

  // A chain that leads to a later moment of the same work.
  ghost predicate Led(plan: Plan, w: World, ws: seq<World>, last: World, id: Id, needs: seq<Commit>, high: nat) {
    Chain(plan, ws) && ws[0] == w && ws[|ws| - 1] == last && Continues(plan, w, last, id, needs, high)
  }

  lemma LedFurther(plan: Plan, w: World, first: seq<World>, w': World, rest: seq<World>, last: World,
                   id: Id, needs: seq<Commit>, high: nat)
    returns (ws: seq<World>)
    requires Led(plan, w, first, w', id, needs, high) && Led(plan, w', rest, last, id, needs, high)
    ensures Led(plan, w, ws, last, id, needs, high)
  {
    ContinuesTransitive(plan, w, w', last, id, needs, high);
    ws := Join(plan, first, rest);
  }

  // The reports still to come, as seen from a moment of the work.
  ghost predicate ToReport(w: World, id: Id, updates: seq<TaskResult>, high: nat) {
    && w.memory.Some? && id in w.memory.value.result.tasks
    && Reported(updates, OwnWorktree(w, id), w.memory.value.result.tasks[id].attempts, high)
  }

  lemma FirstReport(plan: Plan, w: World, id: Id, needs: seq<Commit>, updates: seq<TaskResult>, wrote: bool, high: nat,
                    between: seq<World>)
    returns (ws: seq<World>, last: World)
    requires Busy(plan, w, id, needs, high) && Interlude(plan, w, between, id) && updates != []
    requires ToReport(w, id, updates, high)
    ensures Led(plan, w, ws, last, id, needs, high) && ToReport(last, id, updates[1..], high)
  {
    ws, last := ReportAmidst(plan, w, id, needs, updates[0], wrote, high, between);
    TailReported(updates, OwnWorktree(w, id), w.memory.value.result.tasks[id].attempts, high);
  }

  // All of a worker's reports, written or lost one by one as `wrote` says.
  lemma {:induction false} ReportAll(plan: Plan, w: World, id: Id, needs: seq<Commit>, updates: seq<TaskResult>,
                                     wrote: seq<bool>, high: nat, others: Surroundings)
    returns (ws: seq<World>, last: World)
    requires Busy(plan, w, id, needs, high) && |wrote| == |updates| && Allowed(plan, id, others)
    requires ToReport(w, id, updates, high)
    ensures Led(plan, w, ws, last, id, needs, high)
    decreases |updates|
  {
    if updates == [] {
      ws, last := [w], w;
    } else {
      var first, w' := FirstReport(plan, w, id, needs, updates, wrote[0], high, others.before(w, |updates|));
      var rest;
      rest, last := ReportAll(plan, w', id, needs, updates[1..], wrote[1..], high, others);
      ws := LedFurther(plan, w, first, w', rest, last, id, needs, high);
    }
  }

  lemma TailReported(updates: seq<TaskResult>, worktree: Worktree, low: nat, high: nat)
    requires Reported(updates, worktree, low, high) && updates != []
    ensures Reported(updates[1..], worktree, updates[0].attempts, high)
  {
  }

  // What executeTaskAt promises of its result.
  ghost predicate Delivered(plan: Plan, w: World, id: Id, needs: seq<Commit>, r: TaskResult)
    requires w.memory.Some?
  {
    && !r.checkpointed && (r.status == Success <==> r.commit.Some?)
    && (r.status == Success || r.status == Failed || (r.status == Cancelled && w.memory.value.sched.done))
    && (r.worktree.Some? ==> r.worktree.value == OwnWorktree(w, id))
    && (r.status == Success ==>
         r.worktree.Some? && Ancestor(plan.baseline, r.commit.value) && ContainsAll(r.commit.value, needs))
  }

  // How a completion ends up: a success in a checkpoint, anything else in the journal.
  ghost predicate Arrived(w: World, id: Id, r: TaskResult) {
    && w.memory.Some?
    && if r.status == Success then
         && w.memory.value.landing == Some(Landing(id, r.(checkpointed := true)))
         && id in w.disk.checkpoints && w.disk.checkpoints[id].task == r.(checkpointed := true)
       else
         && id in w.memory.value.result.tasks && w.memory.value.result.tasks[id] == r
         && Has(w.memory.value.sched, id, r.status)
  }

  // The main loop receives the completion: HEAD is at the commit and the checkpoint is
  // written, or the failure is journalled.
  lemma End(plan: Plan, w: World, id: Id, needs: seq<Commit>, r: TaskResult, wrote: bool) returns (ws: seq<World>)
    requires Busy(plan, w, id, needs, r.attempts) && w.memory.value.landing.None? && Delivered(plan, w, id, needs, r)
    ensures Chain(plan, ws) && ws[0] == w && Arrived(ws[|ws| - 1], id, r)
  {
    ws := EndAny(plan, w, id, needs, r, wrote);
  }

  lemma EndAny(plan: Plan, w: World, id: Id, needs: seq<Commit>, r: TaskResult, wrote: bool) returns (ws: seq<World>)
    requires MayReport(plan, w, id, r.attempts) && w.memory.value.landing.None?
    requires id in plan.needs && Commits(w.memory.value, plan.needs[id], needs) && Delivered(plan, w, id, needs, r)
    ensures Chain(plan, ws) && ws[0] == w && Arrived(ws[|ws| - 1], id, r)
  {
    if r.status == Success {
      ws := EndWell(plan, w, id, needs, r);
    } else {
      MayFail(plan, w, id, needs, r, wrote);
      var failed := Failing(plan, w, id, r, wrote);
      ws := OneStep(plan, w, failed);
    }
  }

  lemma EndWell(plan: Plan, w: World, id: Id, needs: seq<Commit>, r: TaskResult) returns (ws: seq<World>)
    requires MayReport(plan, w, id, r.attempts) && w.memory.value.landing.None?
    requires id in plan.needs && Commits(w.memory.value, plan.needs[id], needs)
    requires Delivered(plan, w, id, needs, r) && r.status == Success
    ensures Chain(plan, ws) && ws[0] == w && Arrived(ws[|ws| - 1], id, r)
  {
    var moved := Moved(plan, w, id, needs, r);
    var landed := Landed(plan, moved, id, r);
    ws := TwoSteps(plan, w, moved, landed);
  }

  lemma MayFail(plan: Plan, w: World, id: Id, needs: seq<Commit>, r: TaskResult, wrote: bool)
    requires MayReport(plan, w, id, r.attempts) && id in plan.needs && w.memory.value.landing.None?
    requires Delivered(plan, w, id, needs, r) && r.status != Success
    ensures Durable.Enabled(plan, w, Fail(id, r, wrote))
  {
  }

  lemma Failing(plan: Plan, w: World, id: Id, r: TaskResult, wrote: bool) returns (failed: World)
    requires Durable.Enabled(plan, w, Fail(id, r, wrote))
    ensures Durable.Next(plan, w, failed) && (r.status != Success ==> Arrived(failed, id, r))
  {
    failed := Durable.After(plan, w, Fail(id, r, wrote));
  }

  lemma Landed(plan: Plan, w: World, id: Id, r: TaskResult) returns (landed: World)
    requires Durable.Enabled(plan, w, Land(id, r))
    ensures Durable.Next(plan, w, landed) && Arrived(landed, id, r)
  {
    landed := Durable.After(plan, w, Land(id, r));
  }

  lemma Moved(plan: Plan, w: World, id: Id, needs: seq<Commit>, r: TaskResult) returns (moved: World)
    requires MayReport(plan, w, id, r.attempts) && w.memory.value.landing.None?
    requires id in plan.needs && Commits(w.memory.value, plan.needs[id], needs)
    requires Delivered(plan, w, id, needs, r) && r.status == Success
    ensures Durable.Next(plan, w, moved) && Durable.Enabled(plan, moved, Land(id, r))
  {
    moved := Durable.After(plan, w, MoveHead(id, r.commit.value));
    assert Durable.Enabled(plan, w, MoveHead(id, r.commit.value));
    var m := w.memory.value;
    forall n | n in plan.needs[id]
      ensures n in m.result.tasks && m.result.tasks[n].commit.Some? && Ancestor(m.result.tasks[n].commit.value,
                                                                                r.commit.value)
    {
      var i :| 0 <= i < |plan.needs[id]| && plan.needs[id][i] == n;
      assert Ancestor(needs[i], r.commit.value);
    }
  }

  lemma SettleAndEnd(plan: Plan, w: World, id: Id, needs: seq<Commit>, r: TaskResult, wrote: bool, settling: seq<World>)
    returns (ws: seq<World>)
    requires Busy(plan, w, id, needs, r.attempts) && Settles(plan, w, settling, id)
    requires Delivered(plan, settling[|settling| - 1], id, needs, r)
    ensures Chain(plan, ws) && ws[0] == w && Arrived(ws[|ws| - 1], id, r)
  {
    var now := AfterInterlude(plan, w, settling, id, needs, r.attempts);
    var tail := End(plan, now, id, needs, r, wrote);
    ws := Join(plan, settling, tail);
  }

  // The run context has ended when the completion is received.
  ghost predicate EndsContext(plan: Plan, id: Id, others: Surroundings) {
    forall w {:trigger others.settle(w)} :: Settles(plan, w, others.settle(w), id) ==>
      others.settle(w)[|others.settle(w)| - 1].memory.value.sched.done
  }

  // Such surroundings exist: a pending landing is journalled, and then the context may end.
  ghost function Quieted(plan: Plan, w: World, ends: bool): seq<World> {
    var landed := LandingWritten(plan, w);
    var last := landed[|landed| - 1];
    if ends && last.memory.Some? then landed + [Durable.After(plan, last, Durable.EndContext)] else landed
  }

  ghost function LandingWritten(plan: Plan, w: World): (ws: seq<World>)
    ensures ws != []
  {
    if w.memory.Some? && w.memory.value.landing.Some? then [w, Durable.After(plan, w, JournalLanding(true))] else [w]
  }

  lemma WrittenSettles(plan: Plan, w: World, id: Id)
    requires AtWork(w, id)
    ensures Settles(plan, w, LandingWritten(plan, w), id)
  {
    if w.memory.value.landing.Some? {
      assert Durable.Enabled(plan, w, JournalLanding(true)) && Others(JournalLanding(true), id);
      assert OthersAt(plan, LandingWritten(plan, w), 0, id);
    }
  }

  lemma QuietedSettles(plan: Plan, w: World, ends: bool, id: Id)
    requires AtWork(w, id)
    ensures Settles(plan, w, Quieted(plan, w, ends), id)
  {
    WrittenSettles(plan, w, id);
    var ws, landed := Quieted(plan, w, ends), LandingWritten(plan, w);
    forall i: nat | i + 1 < |ws| ensures OthersAt(plan, ws, i, id) {
      if i + 1 < |landed| {
        assert OthersAt(plan, landed, i, id);
      } else {
        assert Durable.Enabled(plan, ws[i], Durable.EndContext) && Others(Durable.EndContext, id);
      }
    }
  }

  lemma SomeSurroundings(plan: Plan, id: Id, ends: bool) returns (others: Surroundings)
    ensures Allowed(plan, id, others) && (ends ==> EndsContext(plan, id, others))
  {
    others := Surroundings((w, _) => [w], w => Quieted(plan, w, ends));
    forall w | WorldOk(plan, w) && AtWork(w, id) ensures Settles(plan, w, others.settle(w), id) {
      QuietedSettles(plan, w, ends, id);
    }
  }

  // What executeTaskAt promises of its result, in whatever world it began.
  ghost predicate Promised(plan: Plan, worktree: Worktree, needs: seq<Commit>, r: TaskResult, ended: bool) {
    && !r.checkpointed && (r.status == Success <==> r.commit.Some?)
    && (r.status == Success || r.status == Failed || (r.status == Cancelled && ended))
    && (r.worktree.Some? ==> r.worktree.value == worktree)
    && (r.status == Success ==>
         r.worktree.Some? && Ancestor(plan.baseline, r.commit.value) && ContainsAll(r.commit.value, needs))
  }

  lemma PromiseIsDelivered(plan: Plan, w: World, w': World, id: Id, needs: seq<Commit>, r: TaskResult,
                           others: Surroundings)
    requires Busy(plan, w, id, needs, r.attempts) && Allowed(plan, id, others)
    requires w' == others.settle(w)[|others.settle(w)| - 1]
    requires Settles(plan, w, others.settle(w), id)
    requires Promised(plan, OwnWorktree(w, id), needs, r, w.memory.value.sched.done || EndsContext(plan, id, others))
    ensures Delivered(plan, w', id, needs, r)
  {
    var now := AfterInterlude(plan, w, others.settle(w), id, needs, r.attempts);
  }

  // Run a launched task among others. Its reports and its completion are steps of a chain
  // of durable steps, whatever others do before each of them: a success lands in a
  // checkpoint, any other outcome is journalled as it is.
  method RunLaunched(plan: Plan, ghost w: World, id: Id, run: nat, offset: nat, needs: seq<Commit>, expected: int,
                     setup: Setup, attempts: seq<Attempt>, ghost wrote: seq<bool>, ghost others: Surroundings)
    returns (r: TaskResult, ghost ws: seq<World>)
    requires Busy(plan, w, id, needs, offset) && Allowed(plan, id, others)
    requires run == |w.memory.value.result.runs|
    requires offset == w.memory.value.offsets[id] == w.memory.value.result.tasks[id].attempts
    requires |setup.merges| == |needs| && attempts != [] && |attempts| == Budget(plan, id)
    requires ParentEndedSomewhere(setup, attempts) ==> w.memory.value.sched.done || EndsContext(plan, id, others)
    requires |wrote| > |attempts| + 2
    ensures Chain(plan, ws) && ws[0] == w && Arrived(ws[|ws| - 1], id, r)
  {
    var updates;
    r, updates := ExecuteTaskAt(plan.baseline, needs, Worktree(id, run), expected, offset, setup, attempts);
    ws := ReportAndEnd(plan, w, id, needs, r, updates, wrote, others);
  }

  lemma ReportAndEnd(plan: Plan, w: World, id: Id, needs: seq<Commit>, r: TaskResult, updates: seq<TaskResult>,
                     wrote: seq<bool>, others: Surroundings)
    returns (ws: seq<World>)
    requires Busy(plan, w, id, needs, r.attempts) && Allowed(plan, id, others)
    requires Promised(plan, OwnWorktree(w, id), needs, r, w.memory.value.sched.done || EndsContext(plan, id, others))
    requires ToReport(w, id, updates, r.attempts) && |wrote| > |updates|
    ensures Chain(plan, ws) && ws[0] == w && Arrived(ws[|ws| - 1], id, r)
  {
    var reported, before := ReportAll(plan, w, id, needs, updates, wrote[..|updates|], r.attempts, others);
    var settling := others.settle(before);
    assert Settles(plan, before, settling, id);
    PromiseIsDelivered(plan, before, settling[|settling| - 1], id, needs, r, others);
    var tail := SettleAndEnd(plan, before, id, needs, r, wrote[|updates|], settling);
    ws := Join(plan, reported, tail);
  }
}
