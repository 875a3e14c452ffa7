// internal/formatters/fmt_flushwrap.go and runPickle of run.go: the buffering formatter a
// concurrent scenario writes to, as steps of the concurrent run. Between any two of its
// own steps the dispatcher and the other scenarios do whatever they can.
module OnFlush {
  import opened Concurrent

  // The steps only the scenario at p takes.
  predicate OwnedBy(a: Action, p: nat) {
    (a.Emit? || a.Skip? || a.Finish? || a.Show? || a.Release?) && a.at == p
  }

  lemma OthersKeep(c: Config, s: State, a: Action, p: nat)
    requires WellFormed(c, s) && Enabled(c, s, a) && !OwnedBy(a, p) && p in s.workers
    ensures p in After(c, s, a).workers && After(c, s, a).workers[p] == s.workers[p]
  {
  }

  lemma RunSnoc(c: Config, run: seq<State>, acts: seq<Action>, a: Action)
    requires RunBy(c, run, acts) && Enabled(c, run[|run| - 1], a)
    ensures RunBy(c, run + [After(c, run[|run| - 1], a)], acts + [a])
  {
    var run', acts' := run + [After(c, run[|run| - 1], a)], acts + [a];
    forall i | 0 <= i < |acts'| ensures Takes(c, run'[i], acts'[i], run'[i + 1]) {
      if i < |acts| { assert Takes(c, run[i], acts[i], run[i + 1]); }
    }
  }

  // From this moment on, the scenario at p has finished only so, if at all.
  ghost predicate FinishesOnly(acts: seq<Action>, from: nat, p: nat, fails: set<bool>) {
    forall k :: from <= k < |acts| && acts[k].Finish? && acts[k].at == p ==> acts[k].fails in fails
  }

  // Another scenario has failed from this moment on.
  ghost predicate AnotherFailed(acts: seq<Action>, from: nat, p: nat) {
    exists k :: from <= k < |acts| && acts[k].Finish? && acts[k].fails && acts[k].at != p
  }

  // The formatter all scenarios share, with the run it is part of. What the others attempt
  // between two steps of one scenario is given in advance, by the number of such moments.
  class SharedFormatter {
    const config: Config
    const schedule: nat -> seq<Action>
    var moment: nat
    var state: State
    ghost var run: seq<State>
    ghost var acts: seq<Action>

    ghost predicate Valid()
      reads this
    {
      RunBy(config, run, acts) && run[|run| - 1] == state && Inv(config, state)
    }

    constructor (config: Config, schedule: nat -> seq<Action>)
      ensures Valid() && this.config == config && this.schedule == schedule && run == [Start()]
    {
      this.config, this.schedule, moment, state, run, acts := config, schedule, 0, Start(), [Start()], [];
      new;
      StartInv(config);
    }

    method Act(a: Action)
      requires Valid() && Enabled(config, state, a)
      modifies this
      ensures Valid() && state == After(config, old(state), a)
      ensures run == old(run) + [state] && acts == old(acts) + [a]
    {
      StepKeepsInv(config, state, a);
      RunSnoc(config, run, acts, a);
      state := After(config, state, a);
      run, acts := run + [state], acts + [a];
    }

    // The others act; nothing of theirs touches the scenario at p.
    method Interfere(p: nat)
      requires Valid() && p in state.workers
      modifies this
      ensures Valid() && old(run) <= run && old(acts) <= acts && FinishesOnly(acts, |old(acts)|, p, {})
      ensures p in state.workers && state.workers[p] == old(state.workers[p])
    {
      var attempts := schedule(moment);
      moment := moment + 1;
      for i := 0 to |attempts|
        invariant Valid() && old(run) <= run && old(acts) <= acts && FinishesOnly(acts, |old(acts)|, p, {})
        invariant p in state.workers && state.workers[p] == old(state.workers[p])
      {
        if !OwnedBy(attempts[i], p) && Enabled(config, state, attempts[i]) {
          OthersKeep(config, state, attempts[i], p);
          Act(attempts[i]);
        }
      }
    }
  }

  // onFlushFormatter; every event method only appends to fns.
  class OnFlushFormatter {
    const at: nat
    const shared: SharedFormatter
    var fns: seq<Call>

    ghost predicate Buffering()
      reads this, shared
    {
      shared.Valid() && at in shared.state.workers && shared.state.workers[at] == Working(fns)
    }

    // WrapOnFlush.
    constructor (shared: SharedFormatter, at: nat)
      requires shared.Valid() && at in shared.state.workers && shared.state.workers[at] == Working([])
      ensures Buffering() && this.at == at && this.shared == shared && fns == []
    {
      this.at, this.shared, this.fns := at, shared, [];
    }

    // One event: a step of the run that shows nothing.
    method Record(call: Call)
      requires Buffering()
      modifies this, shared
      ensures Buffering() && old(shared.run) <= shared.run
      ensures old(shared.acts) <= shared.acts && FinishesOnly(shared.acts, |old(shared.acts)|, at, {})
      ensures fns == old(fns) + [call] && CallsFor(shared.state.log, at) == []
    {
      shared.Interfere(at);
      shared.Act(Emit(at, call));
      fns := fns + [call];
      assert CallsFor(shared.state.log, at) == ShownBy(shared.state, at);
    }

    // The buffer is shown in order, one call a step, and is not emptied. Others may show
    // theirs in between, yet the log holds exactly this buffer for this scenario.
    method Flush()
      requires shared.Valid() && at in shared.state.workers && shared.state.workers[at] == Flushing(fns, 0)
      modifies shared
      ensures shared.Valid() && old(shared.run) <= shared.run && fns == old(fns)
      ensures old(shared.acts) <= shared.acts && FinishesOnly(shared.acts, |old(shared.acts)|, at, {})
      ensures at in shared.state.workers && shared.state.workers[at] == Flushing(fns, |fns|)
      ensures CallsFor(shared.state.log, at) == fns
    {
      for k := 0 to |fns|
        invariant shared.Valid() && old(shared.run) <= shared.run
        invariant old(shared.acts) <= shared.acts && FinishesOnly(shared.acts, |old(shared.acts)|, at, {})
        invariant at in shared.state.workers && shared.state.workers[at] == Flushing(fns, k)
      {
        shared.Interfere(at);
        shared.Act(Show(at));
      }
      assert CallsFor(shared.state.log, at) == ShownBy(shared.state, at);
      assert fns[..|fns|] == fns;
    }
  }

  // runPickle of concurrent with more than one slot: the scenario at `at` makes these calls
  // and fails or not. It steps within the run, whatever the others do meanwhile; in the end
  // the shared formatter was told exactly these calls about it, in order, unless an earlier
  // failure stopped it before its first. What it was told about any other scenario is that
  // scenario's own. The suite has failed afterwards exactly when it had before, this scenario ran
  // and failed, or another one failed meanwhile.
  method RunPickle(shared: SharedFormatter, at: nat, calls: seq<Call>, fails: bool) returns (ran: bool)
    requires shared.Valid() && at in shared.state.workers && shared.state.workers[at] == Working([])
    modifies shared
    ensures shared.Valid() && old(shared.run) <= shared.run && old(shared.acts) <= shared.acts
    ensures at in shared.state.workers && shared.state.workers[at] == Released(if ran then calls else [], ran)
    ensures CallsFor(shared.state.log, at) == if ran then calls else []
    ensures ran <==> !(shared.config.stopOnFailure && old(SomeFailed(shared.acts)))
    ensures shared.state.failed <==>
      old(shared.state.failed) || (ran && fails) || AnotherFailed(shared.acts, |old(shared.acts)|, at)
    ensures forall p {:trigger CallsFor(shared.state.log, p)} ::
      CallsFor(shared.state.log, p) == ShownBy(shared.state, p)
  {
    var c := shared.config;
    SlotTaken(c, shared.state, at);
    FailedBy(shared);
    if c.stopOnFailure && shared.state.failed {
      shared.Act(Skip(at));
      return false;
    }
    RunAndFlush(shared, at, calls, fails);
    FailedBy(shared);
    FailedSince(old(shared.acts), shared.acts, at, fails);
    return true;
  }

  // The flag says what the actions were.
  lemma FailedBy(shared: SharedFormatter)
    requires shared.Valid()
    ensures shared.state.failed <==> SomeFailed(shared.acts)
  {
    FailedIff(shared.config, shared.run, shared.acts, |shared.run| - 1);
  }

  lemma FailedSince(before: seq<Action>, after: seq<Action>, p: nat, fails: bool)
    requires before <= after && FinishesOnly(after, |before|, p, {fails})
    requires exists k :: |before| <= k < |after| && after[k] == Finish(p, fails)
    ensures SomeFailed(after) <==> SomeFailed(before) || fails || AnotherFailed(after, |before|, p)
  {
    if SomeFailed(before) {
      var k :| 0 <= k < |before| && before[k].Finish? && before[k].fails;
      assert after[k].Finish? && after[k].fails;
    }
    if SomeFailed(after) {
      var k :| 0 <= k < |after| && after[k].Finish? && after[k].fails;
      assert k < |before| ==> before[k] == after[k];
    }
  }

  method RunAndFlush(shared: SharedFormatter, at: nat, calls: seq<Call>, fails: bool)
    requires shared.Valid() && at in shared.state.workers && shared.state.workers[at] == Working([])
    modifies shared
    ensures shared.Valid() && old(shared.run) <= shared.run && old(shared.acts) <= shared.acts
    ensures FinishedSo(shared.acts, |old(shared.acts)|, at, fails)
    ensures at in shared.state.workers && shared.state.workers[at] == Released(calls, true)
  {
    var formatter := new OnFlushFormatter(shared, at);
    RecordAll(formatter, calls);
    FlushAndRelease(shared, formatter, fails);
  }

  // The scenario at p has finished so.
  ghost predicate FinishedSo(acts: seq<Action>, from: nat, p: nat, fails: bool) {
    FinishesOnly(acts, from, p, {fails}) && exists k :: from <= k < |acts| && acts[k] == Finish(p, fails)
  }

  method RecordAll(formatter: OnFlushFormatter, calls: seq<Call>)
    requires formatter.Buffering() && formatter.fns == []
    modifies formatter, formatter.shared
    ensures formatter.Buffering() && old(formatter.shared.run) <= formatter.shared.run && formatter.fns == calls
    ensures old(formatter.shared.acts) <= formatter.shared.acts
    ensures FinishesOnly(formatter.shared.acts, |old(formatter.shared.acts)|, formatter.at, {})
  {
    for i := 0 to |calls|
      invariant formatter.Buffering() && old(formatter.shared.run) <= formatter.shared.run
      invariant old(formatter.shared.acts) <= formatter.shared.acts
      invariant FinishesOnly(formatter.shared.acts, |old(formatter.shared.acts)|, formatter.at, {})
      invariant formatter.fns == calls[..i]
    {
      assert calls[..i + 1] == calls[..i] + [calls[i]];
      formatter.Record(calls[i]);
    }
    assert calls[..|calls|] == calls;
  }

  method FlushAndRelease(shared: SharedFormatter, formatter: OnFlushFormatter, fails: bool)
    requires formatter.shared == shared && formatter.Buffering()
    modifies shared
    ensures shared.Valid() && old(shared.run) <= shared.run && old(shared.acts) <= shared.acts
    ensures FinishedSo(shared.acts, |old(shared.acts)|, formatter.at, fails)
    ensures var at := formatter.at;
      at in shared.state.workers && shared.state.workers[at] == Released(formatter.fns, true)
  {
    FinishNow(shared, formatter, fails);
    ghost var finished := shared.acts;
    formatter.Flush();
    StillFinished(finished, shared.acts, |old(shared.acts)|, formatter.at, fails);
    finished := shared.acts;
    ReleaseNow(shared, formatter);
    StillFinished(finished, shared.acts, |old(shared.acts)|, formatter.at, fails);
  }

  method FinishNow(shared: SharedFormatter, formatter: OnFlushFormatter, fails: bool)
    requires formatter.shared == shared && formatter.Buffering()
    modifies shared
    ensures shared.Valid() && old(shared.run) <= shared.run && old(shared.acts) <= shared.acts
    ensures FinishedSo(shared.acts, |old(shared.acts)|, formatter.at, fails)
    ensures formatter.at in shared.state.workers
    ensures shared.state.workers[formatter.at] == Flushing(formatter.fns, 0)
  {
    shared.Interfere(formatter.at);
    shared.Act(Finish(formatter.at, fails));
    assert shared.acts[|shared.acts| - 1] == Finish(formatter.at, fails);
  }

  method ReleaseNow(shared: SharedFormatter, formatter: OnFlushFormatter)
    requires formatter.shared == shared && shared.Valid() && formatter.at in shared.state.workers
    requires shared.state.workers[formatter.at] == Flushing(formatter.fns, |formatter.fns|)
    modifies shared
    ensures shared.Valid() && old(shared.run) <= shared.run && old(shared.acts) <= shared.acts
    ensures FinishesOnly(shared.acts, |old(shared.acts)|, formatter.at, {})
    ensures formatter.at in shared.state.workers
    ensures shared.state.workers[formatter.at] == Released(formatter.fns, true)
  {
    shared.Interfere(formatter.at);
    SlotTaken(shared.config, shared.state, formatter.at);
    shared.Act(Release(formatter.at));
  }

  lemma StillFinished(before: seq<Action>, after: seq<Action>, from: nat, p: nat, fails: bool)
    requires before <= after && FinishedSo(before, from, p, fails) && FinishesOnly(after, |before|, p, {})
    ensures FinishedSo(after, from, p, fails)
  {
    var k :| from <= k < |before| && before[k] == Finish(p, fails);
    assert after[k] == Finish(p, fails);
    assert forall i :: 0 <= i < |before| ==> before[i] == after[i];
  }

  lemma SlotTaken(c: Config, s: State, p: nat)
    requires SlotsCount(c, s) && p in s.workers && !s.workers[p].Released?
    ensures s.slots > 0
  {
    assert p in Live(s);
    LiveHasSlot(c, s, p);
  }
}
