// workflow/executor.go: the scheduler loop of Execute, over its own states map and
// its running and terminal counters. resumeTasks (workflow/resume.go) repeats it
// with the recovered tasks already terminal.
module Executor {
  import opened Ids
  import opened Graph
  import opened Scheduler

  datatype Outcome = Finished | NoProgress

  class Loop {
    const g: Needs
    const tasks: seq<Id>    // sorted by identifier
    const jobs: nat
    var states: map<Id, Status>
    var running: int
    var terminal: int
    var cancelled: bool
    var ended: bool         // runCtx.Err() != nil
    ghost var checked: bool
    ghost var run: seq<State>

    ghost function Now(): State
      reads this
    {
      State(states, ended, cancelled, checked)
    }

    ghost predicate Valid()
      reads this
    {
      && (forall id :: id in tasks <==> id in g)
      && IsRun(g, jobs, run) && run[|run| - 1] == Now()
      && Inv(g, jobs, Now())
      && running == |InFlight(states)|
      && terminal == |Ended(states)|
    }

    // `recovered` is empty for Execute and the checkpointed tasks for resumeTasks.
    constructor (g: Needs, tasks: seq<Id>, jobs: nat, recovered: set<Id>)
      requires forall id :: id in tasks <==> id in g
      requires recovered <= g.Keys && forall id, n :: id in recovered && n in g[id] ==> n in recovered
      ensures Valid() && this.g == g && this.jobs == jobs && this.tasks == tasks
      ensures run == [Now()] && Initial(g, Now(), recovered)
    {
      this.g, this.tasks, this.jobs := g, tasks, jobs;
      states := map id | id in g :: if id in recovered then Success else Pending;
      running, terminal, cancelled, ended, checked := 0, |recovered|, false, false, false;
      new;
      run := [Now()];
      InitialInv(g, jobs, Now(), recovered);
      assert InFlight(states) == {};
      assert Ended(states) == recovered;
    }

    // Record a step that has just been taken.
    ghost method Took(step: Step, before: State)
      requires IsRun(g, jobs, run) && run[|run| - 1] == before && Inv(g, jobs, before)
      requires Enabled(g, jobs, before, step) && Now() == After(before, step)
      modifies this`run
      ensures IsRun(g, jobs, run) && run[|run| - 1] == Now() && Inv(g, jobs, Now())
      ensures old(run) <= run
    {
      RunExtends(g, jobs, run, step);
      StepKeepsInv(g, jobs, before, step);
      run := run + [Now()];
    }

    // The context may end at any time: the user cancels, or a journal write fails.
    method Environment()
      requires Valid()
      modifies this`ended, this`run
      ensures Valid() && old(run) <= run && (old(ended) ==> ended)
    {
      var ends: bool := *;
      if ends {
        ghost var before := Now();
        ended := true;
        Took(EndContext, before);
      }
    }

    ghost predicate Swept()
      reads this
    {
      cancelled ==> forall id :: id in g ==> !Has(Now(), id, Pending)
    }

    // The top of a turn: look at the context, and cancel what is pending if it has ended.
    method Observe()
      requires Valid() && Swept()
      modifies this
      ensures Valid() && Swept() && old(run) <= run && checked
      ensures running == old(running) && terminal >= old(terminal)
      ensures old(ended) ==> cancelled
    {
      ghost var before := Now();
      var notice := ended && !cancelled;
      cancelled := cancelled || ended;
      checked := true;
      Took(Check, before);
      if notice {
        for i := 0 to |tasks|
          invariant Valid() && cancelled && checked && old(run) <= run
          invariant running == old(running) && terminal >= old(terminal)
          invariant forall k :: 0 <= k < i ==> !Has(Now(), tasks[k], Pending)
        {
          var id := tasks[i];
          if states[id] == Pending {
            Settle(id, Cancelled, Sweep(id));
          }
        }
      }
    }

    // dependencyFailed
    method NeedFailed(id: Id) returns (failed: bool)
      requires Valid() && id in g
      ensures failed <==> DependencyFailed(g, Now(), id)
      ensures failed <==> exists n :: n in g[id] && n in states && states[n] in {Failed, Blocked, Cancelled}
    {
      for k := 0 to |g[id]|
        invariant forall i :: 0 <= i < k ==>
          !Has(Now(), g[id][i], Failed) && !Has(Now(), g[id][i], Blocked) && !Has(Now(), g[id][i], Cancelled)
      {
        var n := g[id][k];
        if n in states && (states[n] == Failed || states[n] == Blocked || states[n] == Cancelled) {
          assert n in g[id] && (Has(Now(), n, Failed) || Has(Now(), n, Blocked) || Has(Now(), n, Cancelled));
          return true;
        }
      }
      return false;
    }

    // dependenciesSucceeded
    method NeedsSucceeded(id: Id) returns (succeeded: bool)
      requires Valid() && id in g
      ensures succeeded <==> DependenciesSucceeded(g, Now(), id)
      ensures succeeded <==> forall n :: n in g[id] ==> n in states && states[n] == Success
    {
      for k := 0 to |g[id]|
        invariant forall i :: 0 <= i < k ==> Has(Now(), g[id][i], Success)
      {
        var n := g[id][k];
        if n !in states || states[n] != Success {
          assert n in g[id] && !Has(Now(), n, Success);
          return false;
        }
      }
      return true;
    }

    ghost predicate NothingToBlock()
      reads this
    {
      forall id :: id in g && Has(Now(), id, Pending) ==> !DependencyFailed(g, Now(), id)
    }

    // Block tasks until a whole scan changes nothing.
    method BlockAll()
      requires Valid() && checked && !cancelled
      modifies this`states, this`terminal, this`ended, this`run
      ensures Valid() && old(run) <= run
      ensures terminal >= old(terminal)
      ensures NothingToBlock()
    {
      var changed := true;
      while changed
        invariant Valid() && old(run) <= run && terminal >= old(terminal)
        invariant !changed ==> NothingToBlock()
        decreases |g.Keys| - terminal, changed
      {
        changed := BlockScan();
        EndedWithin();
      }
    }

    lemma EndedWithin()
      requires Valid()
      ensures terminal <= |g.Keys|
    {
      SubsetCardinality(Ended(states), g.Keys);
    }

    method BlockScan() returns (changed: bool)
      requires Valid() && checked && !cancelled
      modifies this`states, this`terminal, this`ended, this`run
      ensures Valid() && old(run) <= run
      ensures if changed then terminal > old(terminal)
              else states == old(states) && terminal == old(terminal) && NothingToBlock()
    {
      changed := false;
      for i := 0 to |tasks|
        invariant Valid() && old(run) <= run
        invariant if changed then terminal > old(terminal) else states == old(states) && terminal == old(terminal)
        invariant !changed ==> forall k :: 0 <= k < i && Has(Now(), tasks[k], Pending) ==>
          !DependencyFailed(g, Now(), tasks[k])
      {
        var id := tasks[i];
        if states[id] == Pending {
          var failed := NeedFailed(id);
          if failed {
            BlockOne(id);
            changed := true;
          }
        }
      }
    }

    method BlockOne(id: Id)
      requires Valid() && checked && !cancelled && id in g && states[id] == Pending && DependencyFailed(g, Now(), id)
      modifies this`states, this`terminal, this`ended, this`run
      ensures Valid() && old(run) <= run && terminal == old(terminal) + 1
    {
      Settle(id, Blocked, Block(id));
      Environment();
    }

    // Start ready tasks until the limit is reached or none is left.
    method LaunchReady()
      requires Valid() && checked && !cancelled && NothingToBlock() && running <= jobs
      modifies this`states, this`running, this`ended, this`run
      ensures Valid() && old(run) <= run
      ensures running >= jobs || Settled(g, Now())
    {
      for i := 0 to |tasks|
        invariant Valid() && old(run) <= run && NothingToBlock() && running <= jobs
        invariant forall k :: 0 <= k < i && Has(Now(), tasks[k], Pending) ==> !DependenciesSucceeded(g, Now(), tasks[k])
      {
        if running >= jobs {
          return;
        }
        var id := tasks[i];
        if states[id] == Pending {
          var ready := NeedsSucceeded(id);
          if ready {
            StartOne(id);
          }
        }
      }
    }

    method StartOne(id: Id)
      requires Valid() && NothingToBlock() && checked && !cancelled && running < jobs
      requires id in g && states[id] == Pending && DependenciesSucceeded(g, Now(), id)
      modifies this`states, this`running, this`ended, this`run
      ensures Valid() && old(run) <= run && NothingToBlock()
      ensures states == old(states)[id := Running] && running == old(running) + 1
    {
      Start(id);
      ghost var before := Now();
      Environment();
      assert NothingToBlock() by {
        forall other | other in g && Has(Now(), other, Pending) ensures !DependencyFailed(g, Now(), other) {
          assert Has(before, other, Pending);
        }
      }
    }

    method Start(id: Id)
      requires Valid() && NothingToBlock() && checked && !cancelled && running < jobs
      requires id in g && states[id] == Pending && DependenciesSucceeded(g, Now(), id)
      modifies this`states, this`running, this`run
      ensures Valid() && old(run) <= run && NothingToBlock()
      ensures states == old(states)[id := Running] && running == old(running) + 1
    {
      ghost var before := Now();
      states := states[id := Running];
      running := running + 1;
      Took(Launch(id), before);
      CountsAfter(before.states, id, Running);
      forall other | other in g && Has(Now(), other, Pending) ensures !DependencyFailed(g, Now(), other) {
        assert Has(before, other, Pending);
      }
    }

    method Wait()
      requires Valid() && Swept() && running > 0
      modifies this
      ensures Valid() && Swept() && old(run) <= run
      ensures terminal == old(terminal) + 1
    {
      Environment();
      Receive();
      Environment();
    }

    // done := <-completed: any running task may be the next to complete.
    method Receive()
      requires Valid() && Swept() && running > 0
      modifies this
      ensures Valid() && Swept() && old(run) <= run
      ensures terminal == old(terminal) + 1
    {
      assert InFlight(states) != {};
      var id :| id in states && states[id] == Running;
      var outcome: Status :| outcome == Success || outcome == Failed || (outcome == Cancelled && ended);
      Accept(id, outcome);
    }

    method Accept(id: Id, outcome: Status)
      requires Valid() && Swept() && id in states && states[id] == Running
      requires outcome == Success || outcome == Failed || (outcome == Cancelled && ended)
      modifies this
      ensures Valid() && Swept() && old(run) <= run
      ensures terminal == old(terminal) + 1 && running == old(running) - 1
    {
      Completed(id, outcome);
    }

    method Completed(id: Id, outcome: Status)
      requires Valid() && id in states && states[id] == Running
      requires outcome == Success || outcome == Failed || (outcome == Cancelled && ended)
      modifies this`states, this`running, this`terminal, this`checked, this`run
      ensures Valid() && old(run) <= run && states == old(states)[id := outcome]
      ensures terminal == old(terminal) + 1 && running == old(running) - 1
    {
      ghost var before := Now();
      running := running - 1;
      terminal := terminal + 1;
      states := states[id := outcome];
      checked := false;
      Took(Complete(id, outcome), before);
      CountsAfter(before.states, id, outcome);
    }

    // The part of a turn that comes before waiting for a completion.
    method Prepare()
      requires Valid() && Swept()
      modifies this
      ensures Valid() && Swept() && old(run) <= run && terminal >= old(terminal)
      ensures running >= jobs || cancelled || Settled(g, Now())
    {
      Environment();
      Observe();
      if !cancelled {
        BlockAll();
        LaunchReady();
      }
    }

    // One turn: it ends the loop, or completes a task.
    method Turn() returns (outcome: Option<Outcome>)
      requires Valid() && Swept() && jobs >= 1
      requires Known(g) && !HasCycle(g)
      modifies this
      ensures Valid() && Swept() && old(run) <= run
      ensures outcome.None? ==> terminal > old(terminal)
      ensures outcome.Some? ==> outcome.value == Finished && terminal == |g.Keys|
    {
      Prepare();
      if running == 0 {
        NoneLeft();
        if terminal == |g.Keys| {
          return Some(Finished);
        }
        return Some(NoProgress);
      }
      Wait();
      return None;
    }

    lemma NoneLeft()
      requires Valid() && running == 0 && Known(g) && !HasCycle(g)
      requires Settled(g, Now()) || (Swept() && cancelled)
      ensures terminal == |g.Keys|
    {
      assert Settled(g, Now());
      SettledAndIdleIsFinished(g, Now());
    }

    // The whole loop: it ends, and only when every task has a terminal status.
    method Run() returns (outcome: Outcome)
      requires Valid() && Swept() && jobs >= 1
      requires Known(g) && !HasCycle(g)
      modifies this
      ensures Valid() && old(run) <= run
      ensures outcome == Finished
      ensures Ended(states) == g.Keys
    {
      EndedWithin();
      while terminal < |g.Keys|
        invariant Valid() && Swept() && old(run) <= run && terminal <= |g.Keys|
        decreases |g.Keys| - terminal
      {
        var stop := Turn();
        EndedWithin();
        if stop.Some? {
          SubsetCardinality(Ended(states), g.Keys);
          return stop.value;
        }
      }
      SubsetCardinality(Ended(states), g.Keys);
      return Finished;
    }

    // A pending task reaches a terminal status without having run.
    method Settle(id: Id, status: Status, ghost step: Step)
      requires Valid() && id in g && states[id] == Pending && Terminal(status)
      requires Enabled(g, jobs, Now(), step) && After(Now(), step) == Put(Now(), id, status)
      modifies this`states, this`terminal, this`run
      ensures Valid() && old(run) <= run
      ensures states == old(states)[id := status] && terminal == old(terminal) + 1
    {
      ghost var before := Now();
      states := states[id := status];
      terminal := terminal + 1;
      Took(step, before);
      CountsAfter(before.states, id, status);
    }
  }

  datatype Report = BadJobs | Report(outcome: Outcome, states: map<Id, Status>)

  // Execute (no task recovered) or resumeTasks, from the check of opts.Jobs to the
  // end of the loop; `run` is the run of the step relation that the loop performed.
  method Schedule(g: Needs, tasks: seq<Id>, jobs: int, recovered: set<Id>)
    returns (report: Report, ghost run: seq<State>)
    requires (forall id :: id in tasks <==> id in g) && Known(g) && !HasCycle(g)
    requires recovered <= g.Keys && forall id, n :: id in recovered && n in g[id] ==> n in recovered
    ensures report.BadJobs? <==> jobs < 0
    ensures jobs >= 0 ==> report.outcome == Finished && Ended(report.states) == g.Keys
    ensures jobs >= 0 ==> IsRun(g, if jobs == 0 then 1 else jobs, run) && Initial(g, run[0], recovered)
    ensures jobs >= 0 ==> run[|run| - 1].states == report.states
  {
    if jobs < 0 {
      return BadJobs, [];
    }
    var limit := if jobs == 0 then 1 else jobs;
    var loop := new Loop(g, tasks, limit, recovered);
    ghost var start := loop.run;
    var outcome := loop.Run();
    assert loop.run[0] == start[0];
    return Report(outcome, loop.states), loop.run;
  }
}
