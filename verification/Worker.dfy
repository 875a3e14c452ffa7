// workflow/executor.go: executeTaskAt, one task in its own worktree.
module Worker {
  import opened Ids
  import opened Git
  import opened Scheduler

  // A task's worktree is named by the task and the run that created it.
  datatype Worktree = Worktree(task: Id, run: nat)

  datatype TaskResult = TaskResult(
    status: Status, attempts: nat, worktree: Option<Worktree>, commit: Option<Commit>, checkpointed: bool)

  // The task's context has timed out, or its parent, the run context, has ended.
  datatype Context = Live | TimedOut | ParentEnded

  // statusForParent
  function StatusFor(c: Context): Status {
    if c.ParentEnded? then Cancelled else Failed
  }

  // ------------------------------------------------------------------- attempts

  datatype RunError = NoError | ExitError(code: int) | OtherError

  // What one attempt meets: the context before and after it, the exit, the HEAD that
  // the task's own commands left behind, what staging everything finds, and whether git fails.
  datatype Attempt = Attempt(
    before: Context, exit: int, error: RunError, after: Context,
    head: Commit, staged: bool, tree: string, gitFails: bool, atCommit: Context)

  // attemptExitMatches
  predicate ExitMatches(expected: int, exit: int, error: RunError) {
    exit == expected && (error.NoError? || (error.ExitError? && error.code == exit))
  }

  // commitTask: what is staged becomes a commit on top of the task's own HEAD. It fails
  // when git does, or when the task discarded the commit it started from.
  function CommitTask(setupHead: Commit, a: Attempt): (c: Option<Commit>)
    ensures c.Some? ==> Ancestor(setupHead, c.value) && Ancestor(a.head, c.value)
    ensures c.Some? ==> if a.staged then c.value.parents == [a.head] && c.value.tree == a.tree else c.value == a.head
    ensures c.None? <==>
      a.gitFails || (!Ancestor(setupHead, a.head) && !(a.staged && setupHead == Commit([a.head], a.tree)))
  {
    var head := if a.staged then Commit([a.head], a.tree) else a.head;
    AncestorOfCommit(setupHead, a.head, a.tree);
    AncestorOfCommit(a.head, a.head, a.tree);
    if !a.gitFails && Ancestor(setupHead, head) then Some(head) else None
  }

  predicate ParentEndedIn(a: Attempt) {
    a.before.ParentEnded? || a.after.ParentEnded? || a.atCommit.ParentEnded?
  }

  // An attempt after which the loop goes on to the next one.
  predicate Inconclusive(expected: int, a: Attempt) {
    a.before.Live? && a.after.Live? && !ExitMatches(expected, a.exit, a.error)
  }

  // The result that the attempt at position k, the first conclusive or the last, gives.
  predicate Concludes(setupHead: Commit, expected: int, attempts: seq<Attempt>, k: nat, offset: nat, r: TaskResult)
    requires k < |attempts|
  {
    var a := attempts[k];
    if !a.before.Live? then
      r.status == StatusFor(a.before) && r.commit == None && r.attempts == offset + k
    else
      && r.attempts == offset + k + 1
      && if !a.after.Live? then r.status == StatusFor(a.after) && r.commit == None
         else if !ExitMatches(expected, a.exit, a.error) then
           k == |attempts| - 1 && r.status == Failed && r.commit == None
         else
           var c := CommitTask(setupHead, a);
           r.commit == c && r.status == if c.Some? then Success else StatusFor(a.atCommit)
  }

  // The result is that of the first conclusive attempt, or of the last.
  ghost predicate Decided(setupHead: Commit, expected: int, attempts: seq<Attempt>, offset: nat, r: TaskResult) {
    exists k: nat ::
      k < |attempts| && Concludes(setupHead, expected, attempts, k, offset, r)
      && AllInconclusive(expected, attempts[..k])
  }

  predicate AllInconclusive(expected: int, attempts: seq<Attempt>) {
    forall i :: 0 <= i < |attempts| ==> Inconclusive(expected, attempts[i])
  }

  // A running task's journal entries: attempts never fall, nothing is promised yet.
  ghost predicate Reported(updates: seq<TaskResult>, worktree: Worktree, low: nat, high: nat) {
    && (forall i :: 0 <= i < |updates| ==>
         updates[i].status == Running && updates[i].commit == None && !updates[i].checkpointed
         && (updates[i].worktree.Some? ==> updates[i].worktree.value == worktree)
         && low <= updates[i].attempts <= high)
    && (forall i, j :: 0 <= i < j < |updates| ==> updates[i].attempts <= updates[j].attempts)
  }

  // The attempt loop, with one entry of `attempts` for each attempt it may make.
  method RunAttempts(setupHead: Commit, expected: int, attempts: seq<Attempt>, offset: nat, start: TaskResult)
    returns (r: TaskResult, updates: seq<TaskResult>)
    requires attempts != []
    requires start.status == Running && start.attempts == offset && start.commit == None && !start.checkpointed
    requires start.worktree.Some?
    ensures Decided(setupHead, expected, attempts, offset, r) && offset <= r.attempts <= offset + |attempts|
    ensures r.status == Success || r.status == Failed || r.status == Cancelled
    ensures r.status == Success <==> r.commit.Some?
    ensures r.status == Success ==> Ancestor(setupHead, r.commit.value) && r.attempts > offset
    ensures r.status == Cancelled ==> exists i :: 0 <= i < |attempts| && ParentEndedIn(attempts[i])
    ensures r.worktree == start.worktree && !r.checkpointed
    ensures Reported(updates, start.worktree.value, offset, r.attempts) && |updates| <= |attempts|
  {
    var current := start;
    updates := [];
    for i := 0 to |attempts|
      invariant AllInconclusive(expected, attempts[..i])
      invariant current == start.(attempts := offset + i) && i < |attempts|
      invariant Reported(updates, start.worktree.value, offset, offset + i) && |updates| == i
    {
      var a := attempts[i];
      if !a.before.Live? {
        return current.(status := StatusFor(a.before)), updates;
      }
      current := current.(attempts := offset + i + 1);
      updates := updates + [current];
      if !a.after.Live? {
        return current.(status := StatusFor(a.after)), updates;
      }
      if ExitMatches(expected, a.exit, a.error) {
        var commit := CommitTask(setupHead, a);
        if commit.None? {
          return current.(status := StatusFor(a.atCommit)), updates;
        }
        return current.(commit := commit, status := Success), updates;
      }
      if i == |attempts| - 1 {
        return current.(status := Failed), updates;
      }
    }
    assert false;
  }

  // ------------------------------------------------------------- what decides a task

  // On the fields of an attempt alone: it ended by itself, with the expected exit and no other
  // error; and the opposite, after which the next attempt is made.
  ghost predicate Meets(expected: int, a: Attempt) {
    a.before.Live? && a.after.Live? && a.exit == expected && (a.error == NoError || a.error == ExitError(expected))
  }

  ghost predicate Misses(expected: int, a: Attempt) {
    && a.before.Live? && a.after.Live?
    && (a.exit != expected || a.error == OtherError || (a.error.ExitError? && a.error.code != expected))
  }

  ghost predicate MissesBefore(expected: int, attempts: seq<Attempt>, k: nat) {
    k < |attempts| && forall i :: 0 <= i < k ==> Misses(expected, attempts[i])
  }

  // The commit that is made: what was staged on top of the task's own head, or that head, as
  // long as git works and the commit the attempts started from is kept.
  ghost predicate Makes(setupHead: Commit, a: Attempt, c: Commit) {
    !a.gitFails && Ancestor(setupHead, c) && c == if a.staged then Commit([a.head], a.tree) else a.head
  }

  // The first attempt that meets what is expected, with its commit made.
  ghost predicate SucceedsAt(setupHead: Commit, expected: int, attempts: seq<Attempt>, k: nat, c: Commit) {
    MissesBefore(expected, attempts, k) && Meets(expected, attempts[k]) && Makes(setupHead, attempts[k], c)
  }

  // The run context ends before, during or after the first attempt that does not miss.
  ghost predicate CancelledAt(setupHead: Commit, expected: int, attempts: seq<Attempt>, k: nat) {
    && MissesBefore(expected, attempts, k)
    && var a := attempts[k];
       || a.before.ParentEnded?
       || (a.before.Live? && a.after.ParentEnded?)
       || (Meets(expected, a) && a.atCommit.ParentEnded? && forall c :: !Makes(setupHead, a, c))
  }

  // The attempts used: up to the first that does not miss, or all of them.
  ghost predicate UsesUpTo(expected: int, attempts: seq<Attempt>, k: nat) {
    MissesBefore(expected, attempts, k) && (k == |attempts| - 1 || !Misses(expected, attempts[k]))
  }

  lemma MakesIsCommit(setupHead: Commit, a: Attempt)
    ensures forall c :: Makes(setupHead, a, c) <==> CommitTask(setupHead, a) == Some(c)
  {
    AncestorOfCommit(setupHead, a.head, a.tree);
  }

  lemma MissesAre(expected: int, attempts: seq<Attempt>, k: nat)
    requires k < |attempts|
    ensures AllInconclusive(expected, attempts[..k]) <==> MissesBefore(expected, attempts, k)
  {
    forall i | 0 <= i < k ensures Inconclusive(expected, attempts[..k][i]) <==> Misses(expected, attempts[i]) {
    }
    if MissesBefore(expected, attempts, k) {
      forall i | 0 <= i < k ensures Inconclusive(expected, attempts[..k][i]) {
        assert Misses(expected, attempts[i]);
      }
    }
  }

  // Two attempts cannot both be the one that decides.
  lemma UsesOnce(expected: int, attempts: seq<Attempt>, j: nat, k: nat)
    requires UsesUpTo(expected, attempts, j) && MissesBefore(expected, attempts, k)
    requires !Misses(expected, attempts[k])
    ensures j == k
  {
  }

  // A task succeeds exactly when some attempt does and all before it missed; it is cancelled
  // exactly when its run context ended where that could be noticed; otherwise it failed.
  lemma DecidedByAttempts(setupHead: Commit, expected: int, attempts: seq<Attempt>, offset: nat, r: TaskResult)
    requires Decided(setupHead, expected, attempts, offset, r)
    ensures r.status == Success <==> exists k: nat, c :: SucceedsAt(setupHead, expected, attempts, k, c)
    ensures forall k: nat, c :: SucceedsAt(setupHead, expected, attempts, k, c) ==> r.commit == Some(c)
    ensures r.status == Cancelled <==> exists k: nat :: CancelledAt(setupHead, expected, attempts, k)
    ensures r.status == Success || r.status == Cancelled || r.status == Failed
    ensures exists k: nat ::
      UsesUpTo(expected, attempts, k) && r.attempts == offset + k + if attempts[k].before.Live? then 1 else 0
  {
    var j: nat :| j < |attempts| && Concludes(setupHead, expected, attempts, j, offset, r)
      && AllInconclusive(expected, attempts[..j]);
    MissesAre(expected, attempts, j);
    MakesIsCommit(setupHead, attempts[j]);
    assert UsesUpTo(expected, attempts, j);
    forall k: nat, c | SucceedsAt(setupHead, expected, attempts, k, c) ensures k == j {
      UsesOnce(expected, attempts, j, k);
    }
    forall k: nat | CancelledAt(setupHead, expected, attempts, k) ensures k == j {
      UsesOnce(expected, attempts, j, k);
    }
    if r.status == Success {
      assert SucceedsAt(setupHead, expected, attempts, j, r.commit.value);
    }
    if r.status == Cancelled {
      assert CancelledAt(setupHead, expected, attempts, j);
    }
  }

  // ----------------------------------------------------------------------- setup

  datatype MergeResult = Merged(tree: string) | MergeFailed(at: Context) | LogFailed

  // The commits of the needs merged in turn on top of the baseline; or the status of a
  // task whose merges stop before the end.
  function MergedHead(baseline: Commit, needs: seq<Commit>, results: seq<MergeResult>): (r: Result<Commit, Status>)
    requires |results| == |needs|
    ensures r.Ok? <==> forall i :: 0 <= i < |results| ==> results[i].Merged?
  {
    if needs == [] then Ok(baseline)
    else
      var i := |needs| - 1;
      var before := MergedHead(baseline, needs[..i], results[..i]);
      if before.Err? then before
      else
        match results[i]
        case MergeFailed(at) => Err(StatusFor(at))
        case LogFailed => Err(Failed)
        case Merged(tree) => Ok(Merge(before.value, needs[i], tree))
  }

  lemma {:induction false} MergedHeadContains(baseline: Commit, needs: seq<Commit>, results: seq<MergeResult>)
    requires |results| == |needs|
    ensures var r := MergedHead(baseline, needs, results);
      && (r.Ok? ==> Ancestor(baseline, r.value) && ContainsAll(r.value, needs))
      && (r.Err? ==> r.error == Failed || (r.error == Cancelled && MergeFailed(ParentEnded) in results))
  {
    if needs != [] {
      var i := |needs| - 1;
      MergedHeadContains(baseline, needs[..i], results[..i]);
      var before, r := MergedHead(baseline, needs[..i], results[..i]), MergedHead(baseline, needs, results);
      if r.Ok? {
        ContainsAllGrows(before.value, r.value, needs[..i]);
        assert needs == needs[..i] + [needs[i]];
      }
    }
  }

  // The heads of the worktree along the way: each merge has the head before it as its first parent
  // and the next need as its second, unless that need is contained already.
  lemma {:induction false} MergedHeadTrace(baseline: Commit, needs: seq<Commit>, results: seq<MergeResult>)
    returns (heads: seq<Commit>)
    requires |results| == |needs| && MergedHead(baseline, needs, results).Ok?
    ensures |heads| == |needs| + 1 && heads[0] == baseline
    ensures heads[|needs|] == MergedHead(baseline, needs, results).value
    ensures forall i :: 0 <= i < |needs| ==>
      results[i].Merged? && Onto(heads[i], needs[i], results[i].tree, heads[i + 1])
  {
    heads := [baseline];
    if needs != [] {
      var i := |needs| - 1;
      heads := MergedHeadTrace(baseline, needs[..i], results[..i]);
      assert forall k :: 0 <= k < i ==> needs[..i][k] == needs[k] && results[..i][k] == results[k];
      assert Onto(heads[i], needs[i], results[i].tree, MergedHead(baseline, needs, results).value);
      heads := heads + [MergedHead(baseline, needs, results).value];
    }
  }

  lemma {:induction false} MergingEnds(baseline: Commit, needs: seq<Commit>, results: seq<MergeResult>, i: nat)
    requires |results| == |needs| && i <= |needs| && MergedHead(baseline, needs[..i], results[..i]).Err?
    ensures MergedHead(baseline, needs, results) == MergedHead(baseline, needs[..i], results[..i])
    decreases |needs|
  {
    var n := |needs| - 1;
    if i <= n {
      assert needs[..n][..i] == needs[..i] && results[..n][..i] == results[..i];
      MergingEnds(baseline, needs[..n], results[..n], i);
    } else {
      assert needs[..i] == needs && results[..i] == results;
    }
  }

  method MergeNeeds(baseline: Commit, needs: seq<Commit>, results: seq<MergeResult>)
    returns (head: Result<Commit, Status>)
    requires |results| == |needs|
    ensures head == MergedHead(baseline, needs, results)
    ensures head.Ok? ==> Ancestor(baseline, head.value) && ContainsAll(head.value, needs)
    ensures head.Err? ==> head.error == Failed || (head.error == Cancelled && MergeFailed(ParentEnded) in results)
  {
    MergedHeadContains(baseline, needs, results);
    var h := baseline;
    for i := 0 to |needs|
      invariant MergedHead(baseline, needs[..i], results[..i]) == Ok(h)
    {
      assert needs[..i + 1][..i] == needs[..i] && results[..i + 1][..i] == results[..i];
      match results[i] {
        case MergeFailed(at) =>
          MergingEnds(baseline, needs, results, i + 1);
          return Err(StatusFor(at));
        case LogFailed =>
          MergingEnds(baseline, needs, results, i + 1);
          return Err(Failed);
        case Merged(tree) =>
          h := Merge(h, needs[i], tree);
      }
    }
    assert needs[..|needs|] == needs && results[..|needs|] == results;
    return Ok(h);
  }

  datatype Setup = Setup(logOpens: bool, worktreeOpens: bool, merges: seq<MergeResult>, head: Option<Context>)

  // The commit that the attempts start from, or the status of a task that never gets there.
  function SetupHead(baseline: Commit, needs: seq<Commit>, setup: Setup): (r: Result<Commit, Status>)
    requires |setup.merges| == |needs|
  {
    if !setup.logOpens || !setup.worktreeOpens then Err(Failed)
    else
      var merged := MergedHead(baseline, needs, setup.merges);
      if merged.Ok? && setup.head.Some? then Err(StatusFor(setup.head.value)) else merged
  }

  // Where a cancelled result comes from: the parent context ended somewhere on the way.
  ghost predicate ParentEndedSomewhere(setup: Setup, attempts: seq<Attempt>) {
    || MergeFailed(ParentEnded) in setup.merges
    || setup.head == Some(ParentEnded)
    || exists i :: 0 <= i < |attempts| && ParentEndedIn(attempts[i])
  }

  // Everything up to the first attempt works.
  predicate GoesThrough(setup: Setup) {
    && setup.logOpens && setup.worktreeOpens && setup.head == None
    && forall i :: 0 <= i < |setup.merges| ==> setup.merges[i].Merged?
  }

  // The first merge that fails does so because the run context has ended.
  ghost predicate CancelledInMerge(merges: seq<MergeResult>) {
    exists i :: 0 <= i < |merges| && CancelledAtMerge(merges, i)
  }

  ghost predicate CancelledAtMerge(merges: seq<MergeResult>, i: nat)
    requires i < |merges|
  {
    merges[i] == MergeFailed(ParentEnded) && forall j :: 0 <= j < i ==> merges[j].Merged?
  }

  ghost predicate CancelledInSetup(setup: Setup) {
    && setup.logOpens && setup.worktreeOpens
    && (CancelledInMerge(setup.merges)
        || (setup.head == Some(ParentEnded) && forall i :: 0 <= i < |setup.merges| ==> setup.merges[i].Merged?))
  }

  lemma {:induction false} MergedHeadCancelled(baseline: Commit, needs: seq<Commit>, merges: seq<MergeResult>)
    requires |merges| == |needs|
    ensures MergedHead(baseline, needs, merges) == Err(Cancelled) <==> CancelledInMerge(merges)
  {
    if needs != [] {
      var i := |needs| - 1;
      MergedHeadCancelled(baseline, needs[..i], merges[..i]);
      assert forall j :: 0 <= j < i ==> merges[..i][j] == merges[j];
      forall j: nat | j < i ensures CancelledAtMerge(merges[..i], j) <==> CancelledAtMerge(merges, j) {
        assert merges[..i][j] == merges[j];
      }
      assert CancelledInMerge(merges) <==> CancelledInMerge(merges[..i]) || CancelledAtMerge(merges, i);
    }
  }

  lemma SetupEnds(baseline: Commit, needs: seq<Commit>, setup: Setup)
    requires |setup.merges| == |needs|
    ensures SetupHead(baseline, needs, setup).Ok? <==> GoesThrough(setup)
    ensures SetupHead(baseline, needs, setup) == Err(Cancelled) <==> CancelledInSetup(setup)
    ensures GoesThrough(setup) ==> SetupHead(baseline, needs, setup) == MergedHead(baseline, needs, setup.merges)
  {
    MergedHeadCancelled(baseline, needs, setup.merges);
  }

  // Setup and attempts together, on what they meet.
  ghost predicate TaskSucceeds(baseline: Commit, needs: seq<Commit>, setup: Setup, expected: int,
                               attempts: seq<Attempt>)
    requires |setup.merges| == |needs|
  {
    GoesThrough(setup) && exists k: nat, c ::
      SucceedsAt(MergedHead(baseline, needs, setup.merges).value, expected, attempts, k, c)
  }

  ghost predicate TaskCancelled(baseline: Commit, needs: seq<Commit>, setup: Setup, expected: int,
                                attempts: seq<Attempt>)
    requires |setup.merges| == |needs|
  {
    CancelledInSetup(setup) || (GoesThrough(setup) && exists k: nat ::
      CancelledAt(MergedHead(baseline, needs, setup.merges).value, expected, attempts, k))
  }

  // executeTaskAt. `needs` are the recorded commits of the task's needs, `offset` the
  // attempts of earlier runs.
  method ExecuteTaskAt(baseline: Commit, needs: seq<Commit>, worktree: Worktree, expected: int, offset: nat,
                       setup: Setup, attempts: seq<Attempt>)
    returns (r: TaskResult, updates: seq<TaskResult>)
    requires |setup.merges| == |needs| && attempts != []
    ensures var head := SetupHead(baseline, needs, setup);
      if head.Err? then r.status == head.error && r.attempts == offset && r.commit == None
      else Decided(head.value, expected, attempts, offset, r)
    ensures r.status == Success <==> TaskSucceeds(baseline, needs, setup, expected, attempts)
    ensures r.status == Cancelled <==> TaskCancelled(baseline, needs, setup, expected, attempts)
    ensures r.status == Success || r.status == Failed || r.status == Cancelled
    ensures r.status == Success <==> r.commit.Some?
    ensures r.status == Success ==> r.worktree == Some(worktree) && r.attempts > offset
    ensures r.status == Success ==> Ancestor(baseline, r.commit.value) && ContainsAll(r.commit.value, needs)
    ensures r.status == Cancelled ==> ParentEndedSomewhere(setup, attempts)
    ensures offset <= r.attempts <= offset + |attempts| && !r.checkpointed
    ensures r.worktree == if setup.logOpens && setup.worktreeOpens then Some(worktree) else None
    ensures Reported(updates, worktree, offset, r.attempts) && |updates| <= |attempts| + 2
  {
    SetupEnds(baseline, needs, setup);
    r := TaskResult(Running, offset, None, None, false);
    updates := [];
    if !setup.logOpens {
      return r.(status := Failed), updates;
    }
    updates := [r];
    if !setup.worktreeOpens {
      return r.(status := Failed), updates;
    }
    r := r.(worktree := Some(worktree));
    updates := updates + [r];
    var head := MergeNeeds(baseline, needs, setup.merges);
    if head.Err? {
      return r.(status := head.error), updates;
    }
    if setup.head.Some? {
      return r.(status := StatusFor(setup.head.value)), updates;
    }
    var more;
    r, more := RunAttempts(head.value, expected, attempts, offset, r);
    updates := updates + more;
    DecidedByAttempts(head.value, expected, attempts, offset, r);
    if r.status == Success {
      AncestorIsTransitive(baseline, head.value, r.commit.value);
      ContainsAllGrows(head.value, r.commit.value, needs);
    }
  }

  // A command that exits 1 where 0 is expected fails its task, whatever it left staged.
  method RunUnexpectedExit() returns (r: TaskResult)
    ensures r == TaskResult(Failed, 1, Some(Worktree("a", 1)), None, false)
  {
    var base := Commit([], "base");
    var attempt := Attempt(Live, 1, ExitError(1), Live, base, true, "done", false, Live);
    var updates;
    r, updates := ExecuteTaskAt(base, [], Worktree("a", 1), 0, 0, Setup(true, true, [], None), [attempt]);
    assert Misses(0, attempt);
  }

  // With that exit expected, what it staged is committed.
  method RunExpectedExit() returns (r: TaskResult)
    ensures r == TaskResult(Success, 1, Some(Worktree("a", 1)), Some(Commit([Commit([], "base")], "done")), false)
  {
    var base := Commit([], "base");
    var attempt := Attempt(Live, 1, ExitError(1), Live, base, true, "done", false, Live);
    var updates;
    r, updates := ExecuteTaskAt(base, [], Worktree("a", 1), 1, 0, Setup(true, true, [], None), [attempt]);
    AncestorOfCommit(base, base, "done");
    assert SucceedsAt(base, 1, [attempt], 0, Commit([base], "done"));
  }
}
