// The integration of the tasks' commits: integrateResults of workflow/executor.go, and
// integrateResumedResults with mergeSuccessfulTasks of workflow/resume.go.
module Integrator {
  import opened Ids
  import opened Git
  import opened Scheduler
  import opened Worker

  // The results in identifier order, as the tasks of a run are listed.
  ghost function InOrder(tasks: map<Id, TaskResult>): (results: seq<TaskResult>)
    ensures |results| == |tasks|
  {
    var ids := Ascending(tasks.Keys);
    seq(|ids|, i requires 0 <= i < |ids| => tasks[ids[i]])
  }

  // The commits that an integration has to contain, in identifier order.
  function Succeeded(results: seq<TaskResult>): (commits: seq<Commit>) {
    if results == [] then []
    else
      var init, last := results[..|results| - 1], results[|results| - 1];
      Succeeded(init) + if last.status == Success && last.commit.Some? then [last.commit.value] else []
  }

  lemma {:induction false} SucceededHasEach(results: seq<TaskResult>, i: nat)
    requires i < |results| && results[i].status == Success && results[i].commit.Some?
    ensures results[i].commit.value in Succeeded(results)
    decreases |results|
  {
    if i < |results| - 1 { SucceededHasEach(results[..|results| - 1], i); }
  }

  ghost predicate Integrates(baseline: Commit, c: Commit, results: seq<TaskResult>) {
    Ancestor(baseline, c) && ContainsAll(c, Succeeded(results))
  }

  // What an integration contains, task by task.
  lemma IntegratesEach(baseline: Commit, c: Commit, tasks: map<Id, TaskResult>, id: Id)
    requires Integrates(baseline, c, InOrder(tasks))
    requires id in tasks && tasks[id].status == Success && tasks[id].commit.Some?
    ensures Ancestor(tasks[id].commit.value, c)
  {
    var ids := Ascending(tasks.Keys);
    assert id in ids;
    var i :| 0 <= i < |ids| && ids[i] == id;
    SucceededHasEach(InOrder(tasks), i);
  }

  // And nothing else has to be contained: every commit is that of a successful task.
  lemma {:induction false} SucceededIsOnly(results: seq<TaskResult>, c: Commit)
    requires c in Succeeded(results)
    ensures exists i :: 0 <= i < |results| && results[i].status == Success && results[i].commit == Some(c)
  {
    var n := |results| - 1;
    if c in Succeeded(results[..n]) {
      SucceededIsOnly(results[..n], c);
      var i :| 0 <= i < n && results[..n][i].status == Success && results[..n][i].commit == Some(c);
      assert results[i].status == Success && results[i].commit == Some(c);
    } else {
      assert results[n].status == Success && results[n].commit == Some(c);
    }
  }

  // ------------------------------------------------------------------------- merging

  // One task's turn: whether the ancestry can be inspected, and the tree that a merge
  // leaves, if git can merge.
  datatype Turn = Turn(inspects: bool, merged: Option<string>)

  datatype IntegrationError =
    | InvalidWorktree | CannotInspect | CompletedMismatch | FreshExists | CannotCreate
    | CannotInspectAncestry | CannotMerge | CannotResolve

  // The first integration stops when the ancestry cannot be inspected; a resumed one then
  // merges all the same, which changes nothing if the commit was contained.
  function MergeOne(first: bool, h: Commit, c: Commit, t: Turn): (r: Result<Commit, IntegrationError>)
    ensures r.Ok? ==> Ancestor(h, r.value) && Ancestor(c, r.value)
  {
    if first && !t.inspects then Err(CannotInspectAncestry)
    else if t.inspects && Ancestor(c, h) then Ok(h)
    else if t.merged.None? then Err(CannotMerge)
    else Ok(Merge(h, c, t.merged.value))
  }

  // The successful tasks' commits, merged in turn.
  function Merging(first: bool, baseline: Commit, results: seq<TaskResult>, turns: seq<Turn>)
    : (r: Result<Commit, IntegrationError>)
    requires |turns| == |results|
  {
    if results == [] then Ok(baseline)
    else
      var i := |results| - 1;
      var before, task := Merging(first, baseline, results[..i], turns[..i]), results[i];
      if before.Err? || task.status != Success || task.commit.None? then before
      else MergeOne(first, before.value, task.commit.value, turns[i])
  }

  lemma {:induction false} MergingContains(first: bool, baseline: Commit, results: seq<TaskResult>, turns: seq<Turn>)
    requires |turns| == |results|
    ensures var r := Merging(first, baseline, results, turns); r.Ok? ==> Integrates(baseline, r.value, results)
  {
    if results != [] {
      var i := |results| - 1;
      MergingContains(first, baseline, results[..i], turns[..i]);
      var before, r := Merging(first, baseline, results[..i], turns[..i]), Merging(first, baseline, results, turns);
      if r.Ok? {
        assert Ancestor(before.value, r.value);
        AncestorIsTransitive(baseline, before.value, r.value);
        ContainsAllGrows(before.value, r.value, Succeeded(results[..i]));
      }
    }
  }

  lemma {:induction false} MergingStops(first: bool, baseline: Commit, results: seq<TaskResult>, turns: seq<Turn>,
                                        i: nat)
    requires |turns| == |results| && i <= |results| && Merging(first, baseline, results[..i], turns[..i]).Err?
    ensures Merging(first, baseline, results, turns) == Merging(first, baseline, results[..i], turns[..i])
    decreases |results|
  {
    var n := |results| - 1;
    if i <= n {
      assert results[..n][..i] == results[..i] && turns[..n][..i] == turns[..i];
      MergingStops(first, baseline, results[..n], turns[..n], i);
    } else {
      assert results[..i] == results && turns[..i] == turns;
    }
  }

  // One turn, on the results and on git alone: a task without a commit to integrate, or with one
  // that is seen to be contained, leaves the head; any other is merged onto it.
  ghost predicate TurnGoes(first: bool, h: Commit, task: TaskResult, t: Turn, h': Commit) {
    if task.status != Success || task.commit.None? then h' == h
    else if t.inspects && Ancestor(task.commit.value, h) then h' == h
    else (t.inspects || !first) && t.merged.Some? && Onto(h, task.commit.value, t.merged.value, h')
  }

  ghost predicate TurnFails(first: bool, h: Commit, task: TaskResult, t: Turn, e: IntegrationError) {
    && task.status == Success && task.commit.Some? && !(t.inspects && Ancestor(task.commit.value, h))
    && ((first && !t.inspects && e == CannotInspectAncestry)
        || ((t.inspects || !first) && t.merged.None? && e == CannotMerge))
  }

  ghost predicate Goes(first: bool, results: seq<TaskResult>, turns: seq<Turn>, heads: seq<Commit>)
    requires |turns| == |results|
  {
    && 0 < |heads| <= |results| + 1
    && forall i: nat {:trigger TurnAt(first, results, turns, heads, i)} ::
      i < |heads| - 1 ==> TurnAt(first, results, turns, heads, i)
  }

  ghost predicate TurnAt(first: bool, results: seq<TaskResult>, turns: seq<Turn>, heads: seq<Commit>, i: nat)
    requires i < |heads| - 1 && i < |results| == |turns|
  {
    TurnGoes(first, heads[i], results[i], turns[i], heads[i + 1])
  }

  // The merging takes such turns, up to the last or to one that fails.
  lemma {:induction false} MergingTakesTurns(first: bool, baseline: Commit, results: seq<TaskResult>, turns: seq<Turn>)
    returns (heads: seq<Commit>)
    requires |turns| == |results|
    ensures Goes(first, results, turns, heads) && heads[0] == baseline
    ensures var r, n := Merging(first, baseline, results, turns), |heads| - 1;
      if r.Ok? then n == |results| && r.value == heads[n]
      else n < |results| && TurnFails(first, heads[n], results[n], turns[n], r.error)
  {
    heads := [baseline];
    if results != [] {
      var i := |results| - 1;
      var before := MergingTakesTurns(first, baseline, results[..i], turns[..i]);
      heads := before;
      if Merging(first, baseline, results, turns).Ok? {
        heads := before + [Merging(first, baseline, results, turns).value];
        assert TurnAt(first, results, turns, heads, i);
      }
      forall k: nat | k < |heads| - 1 ensures TurnAt(first, results, turns, heads, k) {
        if k < i { assert TurnAt(first, results[..i], turns[..i], before, k); }
      }
    }
  }

  // The loops of integrateResults and mergeSuccessfulTasks.
  method IntegrateAll(first: bool, baseline: Commit, results: seq<TaskResult>, turns: seq<Turn>)
    returns (r: Result<Commit, IntegrationError>)
    requires |turns| == |results|
    ensures r == Merging(first, baseline, results, turns)
    ensures r.Ok? ==> Integrates(baseline, r.value, results)
  {
    var h := baseline;
    for i := 0 to |results|
      invariant Merging(first, baseline, results[..i], turns[..i]) == Ok(h)
    {
      var task := results[i];
      assert results[..i + 1][..i] == results[..i] && turns[..i + 1][..i] == turns[..i];
      if task.status != Success || task.commit.None? {
        continue;
      }
      var c := task.commit.value;
      if turns[i].inspects && Ancestor(c, h) {
        continue;
      }
      if first && !turns[i].inspects {
        MergingStops(first, baseline, results, turns, i + 1);
        return Err(CannotInspectAncestry);
      }
      if turns[i].merged.None? {
        MergingStops(first, baseline, results, turns, i + 1);
        return Err(CannotMerge);
      }
      h := Merge(h, c, turns[i].merged.value);
    }
    assert results[..|results|] == results && turns[..|turns|] == turns;
    MergingContains(first, baseline, results, turns);
    return Ok(h);
  }

  // ------------------------------------------------------------------------ outcomes

  // What the durable result says about the integration.
  datatype Integration = Integration(recorded: bool, commit: Option<Commit>)

  // What git meets on the way: whether the fresh worktree opens, each merge, and
  // whether the final HEAD can be resolved.
  datatype Way = Way(opens: bool, turns: seq<Turn>, resolves: bool)

  // The recorded integration worktree, and whether the fresh one's directory is taken.
  datatype Recorded = Recorded(valid: bool, inspectable: bool, clean: bool, head: Option<Commit>, judged: bool,
                               taken: bool)

  datatype Outcome = Outcome(after: Integration, error: Option<IntegrationError>)

  ghost predicate IntegrationSound(baseline: Commit, i: Integration) {
    i.commit.Some? ==> i.recorded && Ancestor(baseline, i.commit.value)
  }

  // A success is recorded and contains the baseline and every successful commit.
  ghost predicate OutcomeSound(baseline: Commit, results: seq<TaskResult>, o: Outcome) {
    && IntegrationSound(baseline, o.after)
    && (o.error.None? ==> o.after.commit.Some? && Integrates(baseline, o.after.commit.value, results))
  }

  // Merging into a worktree that was opened at the baseline; `held` is the commit the
  // result names until the merges are done.
  function MergedInto(first: bool, baseline: Commit, held: Option<Commit>, results: seq<TaskResult>, way: Way): Outcome
    requires |way.turns| == |results|
  {
    if !way.opens then Outcome(Integration(true, held), Some(CannotCreate))
    else
      match Merging(first, baseline, results, way.turns)
      case Err(e) => Outcome(Integration(true, held), Some(e))
      case Ok(h) =>
        if way.resolves then Outcome(Integration(true, Some(h)), None)
        else Outcome(Integration(true, held), Some(CannotResolve))
  }

  lemma MergedIntoSound(first: bool, baseline: Commit, held: Option<Commit>, results: seq<TaskResult>, way: Way)
    requires |way.turns| == |results| && (held.Some? ==> held.value == baseline)
    ensures OutcomeSound(baseline, results, MergedInto(first, baseline, held, results, way))
  {
    MergingContains(first, baseline, results, way.turns);
  }

  // integrateResults
  method Integrate(baseline: Commit, results: seq<TaskResult>, way: Way) returns (o: Outcome)
    requires |way.turns| == |results|
    ensures o == MergedInto(true, baseline, None, results, way)
    ensures OutcomeSound(baseline, results, o)
  {
    MergedIntoSound(true, baseline, None, results, way);
    o := Outcome(Integration(true, None), None);
    if !way.opens {
      return o.(error := Some(CannotCreate));
    }
    var r := IntegrateAll(true, baseline, results, way.turns);
    if r.Err? {
      return o.(error := Some(r.error));
    }
    if !way.resolves {
      return o.(error := Some(CannotResolve));
    }
    return Outcome(Integration(true, Some(r.value)), None);
  }

  method AllContained(commits: seq<Commit>, c: Commit) returns (all: bool)
    ensures all <==> ContainsAll(c, commits)
  {
    for i := 0 to |commits|
      invariant forall j :: 0 <= j < i ==> Ancestor(commits[j], c)
    {
      if !Ancestor(commits[i], c) {
        return false;
      }
    }
    return true;
  }

  // The recorded integration stands: its worktree is intact and at the recorded commit,
  // which is seen to contain every success.
  ghost predicate Reusable(was: Integration, disk: Recorded, results: seq<TaskResult>) {
    && was.recorded && disk.valid && disk.inspectable && disk.clean && was.commit.Some? && disk.head == was.commit
    && disk.judged && ContainsAll(was.commit.value, Succeeded(results))
  }

  // What integrateResumedResults does with the recorded integration `was`.
  ghost function Reintegrated(baseline: Commit, was: Integration, priorCompleted: bool, disk: Recorded,
                              results: seq<TaskResult>, way: Way): Outcome
    requires |way.turns| == |results|
  {
    if was.recorded && !disk.valid then Outcome(was, Some(InvalidWorktree))
    else if was.recorded && !disk.inspectable then Outcome(was, Some(CannotInspect))
    else if Reusable(was, disk, results) then Outcome(was, None)
    else if was.recorded && priorCompleted then Outcome(was, Some(CompletedMismatch))
    else if disk.taken then Outcome(was, Some(FreshExists))
    else if !way.opens then Outcome(was, Some(CannotCreate))
    else MergedInto(false, baseline, Some(baseline), results, way)
  }

  // The recorded integration stands, on what is found of it and on the results alone.
  ghost predicate Stands(was: Integration, disk: Recorded, results: seq<TaskResult>) {
    && was.recorded && was.commit.Some?
    && disk.valid && disk.inspectable && disk.clean && disk.judged && disk.head == was.commit
    && forall i :: 0 <= i < |results| && results[i].status == Success && results[i].commit.Some? ==>
         Ancestor(results[i].commit.value, was.commit.value)
  }

  lemma StandsIsReusable(was: Integration, disk: Recorded, results: seq<TaskResult>)
    ensures Reusable(was, disk, results) <==> Stands(was, disk, results)
  {
    if Stands(was, disk, results) {
      forall c | c in Succeeded(results) ensures Ancestor(c, was.commit.value) {
        SucceededIsOnly(results, c);
      }
    }
    if Reusable(was, disk, results) {
      forall i | 0 <= i < |results| && results[i].status == Success && results[i].commit.Some?
        ensures Ancestor(results[i].commit.value, was.commit.value)
      {
        SucceededHasEach(results, i);
      }
    }
  }

  // What becomes of a recorded integration: it is kept exactly when it stands; one that cannot be
  // looked at, or that a completed run left and that does not stand, is refused; otherwise a new
  // one is made from the baseline, in a directory that must not exist.
  lemma ReintegratedCases(baseline: Commit, was: Integration, priorCompleted: bool, disk: Recorded,
                          results: seq<TaskResult>, way: Way)
    requires |way.turns| == |results|
    ensures var o := Reintegrated(baseline, was, priorCompleted, disk, results, way);
      && (Stands(was, disk, results) ==> o == Outcome(was, None))
      && (o.error == Some(InvalidWorktree) <==> was.recorded && !disk.valid)
      && (o.error == Some(CannotInspect) <==> was.recorded && disk.valid && !disk.inspectable)
      && (o.error == Some(CompletedMismatch) <==>
            was.recorded && priorCompleted && disk.valid && disk.inspectable && !Stands(was, disk, results))
      && (!Stands(was, disk, results) && (was.recorded ==> disk.valid && disk.inspectable && !priorCompleted) ==>
            if disk.taken then o == Outcome(was, Some(FreshExists))
            else if !way.opens then o == Outcome(was, Some(CannotCreate))
            else Rebuilds(baseline, results, way, o))
  {
    StandsIsReusable(was, disk, results);
    MergesAreOtherErrors(false, baseline, results, way.turns);
    if way.opens { RebuildsAnew(baseline, results, way); }
  }

  lemma {:induction false} MergesAreOtherErrors(first: bool, baseline: Commit, results: seq<TaskResult>,
                                                turns: seq<Turn>)
    requires |turns| == |results|
    ensures var r := Merging(first, baseline, results, turns);
      r.Err? ==> r.error == CannotInspectAncestry || r.error == CannotMerge
  {
    var heads := MergingTakesTurns(first, baseline, results, turns);
  }

  lemma RebuildsAnew(baseline: Commit, results: seq<TaskResult>, way: Way)
    requires |way.turns| == |results| && way.opens
    ensures Rebuilds(baseline, results, way, MergedInto(false, baseline, Some(baseline), results, way))
  {
    var heads := MergingTakesTurns(false, baseline, results, way.turns);
    var o := MergedInto(false, baseline, Some(baseline), results, way);
    assert Rebuilt(false, results, way, heads, o, Some(baseline));
  }

  // The result names the new integration once all turns have been taken and its head is read,
  // and until then what it held before.
  ghost predicate Rebuilt(first: bool, results: seq<TaskResult>, way: Way, heads: seq<Commit>, o: Outcome,
                          held: Option<Commit>)
    requires |way.turns| == |results|
  {
    && Goes(first, results, way.turns, heads) && o.after.recorded
    && var n := |heads| - 1;
       if n < |results| then
         o.after.commit == held && o.error.Some? && TurnFails(first, heads[n], results[n], way.turns[n], o.error.value)
       else if way.resolves then o.after.commit == Some(heads[n]) && o.error == None
       else o.after.commit == held && o.error == Some(CannotResolve)
  }

  ghost predicate Rebuilds(baseline: Commit, results: seq<TaskResult>, way: Way, o: Outcome)
    requires |way.turns| == |results|
  {
    exists heads :: Rebuilt(false, results, way, heads, o, Some(baseline)) && heads[0] == baseline
  }

  // The first integration does so without holding anything before.
  lemma IntegratedCases(baseline: Commit, results: seq<TaskResult>, way: Way) returns (heads: seq<Commit>)
    requires |way.turns| == |results|
    ensures var o := MergedInto(true, baseline, None, results, way);
      if !way.opens then o == Outcome(Integration(true, None), Some(CannotCreate))
      else Rebuilt(true, results, way, heads, o, None) && heads[0] == baseline
  {
    heads := MergingTakesTurns(true, baseline, results, way.turns);
  }

  lemma ReintegratedSound(baseline: Commit, was: Integration, priorCompleted: bool, disk: Recorded,
                          results: seq<TaskResult>, way: Way)
    requires |way.turns| == |results| && IntegrationSound(baseline, was)
    ensures OutcomeSound(baseline, results, Reintegrated(baseline, was, priorCompleted, disk, results, way))
  {
    MergedIntoSound(false, baseline, Some(baseline), results, way);
  }

  // Reuse the recorded integration if it still stands and contains every success,
  // otherwise rebuild it from the baseline. A completed run's integration is never replaced.
  method IntegrateResumed(baseline: Commit, was: Integration, priorCompleted: bool, disk: Recorded,
                          results: seq<TaskResult>, way: Way)
    returns (o: Outcome)
    requires |way.turns| == |results| && IntegrationSound(baseline, was)
    ensures o == Reintegrated(baseline, was, priorCompleted, disk, results, way)
    ensures OutcomeSound(baseline, results, o)
    ensures priorCompleted && was.recorded ==> o.after == was
  {
    ReintegratedSound(baseline, was, priorCompleted, disk, results, way);
    o := Outcome(was, None);
    if was.recorded {
      if !disk.valid {
        return o.(error := Some(InvalidWorktree));
      }
      if !disk.inspectable {
        return o.(error := Some(CannotInspect));
      }
      if disk.clean && was.commit.Some? && disk.head == was.commit {
        var contained := AllContained(Succeeded(results), was.commit.value);
        if disk.judged && contained {
          return o;
        }
      }
      if priorCompleted {
        return o.(error := Some(CompletedMismatch));
      }
    }
    if disk.taken {
      return o.(error := Some(FreshExists));
    }
    if !way.opens {
      return o.(error := Some(CannotCreate));
    }
    o := Outcome(Integration(true, Some(baseline)), None);
    assert Ancestor(baseline, baseline);
    var r := IntegrateAll(false, baseline, results, way.turns);
    if r.Err? {
      return o.(error := Some(r.error));
    }
    if !way.resolves {
      return o.(error := Some(CannotResolve));
    }
    return Outcome(Integration(true, Some(r.value)), None);
  }

  // A resumed run keeps an integration that stands.
  method RunReuse() returns (o: Outcome)
    ensures o == Outcome(Integration(true, Some(Commit([Commit([], "base")], "done"))), None)
  {
    var base := Commit([], "base");
    var done := Commit([base], "done");
    var was, disk := Integration(true, Some(done)), Recorded(true, true, true, Some(done), true, false);
    var results := [TaskResult(Success, 1, None, Some(done), true)];
    AncestorOfCommit(base, base, "done");
    o := IntegrateResumed(base, was, true, disk, results, Way(true, [Turn(true, None)], true));
    assert Stands(was, disk, results);
    ReintegratedCases(base, was, true, disk, results, Way(true, [Turn(true, None)], true));
  }
}
