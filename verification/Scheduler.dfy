// The task scheduler shared by Execute (workflow/executor.go) and resumeTasks
// (workflow/resume.go): its step relation, what every run keeps, and confluence.
module Scheduler {
  import opened Ids
  import opened Graph

  datatype Status = Pending | Running | Success | Failed | Blocked | Cancelled

  predicate Terminal(s: Status) {
    !s.Pending? && !s.Running?
  }

  // `done` says that the run context has ended, `observed` that the loop has
  // noticed, `checked` that it has looked since the last completion.
  datatype State = State(states: map<Id, Status>, done: bool, observed: bool, checked: bool)

  ghost predicate Has(s: State, id: Id, status: Status) {
    id in s.states && s.states[id] == status
  }

  ghost predicate DependencyFailed(g: Needs, s: State, id: Id)
    requires id in g
  {
    exists n :: n in g[id] && (Has(s, n, Failed) || Has(s, n, Blocked) || Has(s, n, Cancelled))
  }

  ghost predicate DependenciesSucceeded(g: Needs, s: State, id: Id)
    requires id in g
  {
    forall n :: n in g[id] ==> Has(s, n, Success)
  }

  ghost function InFlight(states: map<Id, Status>): set<Id> {
    set id | id in states && states[id] == Running
  }

  ghost function Ended(states: map<Id, Status>): set<Id> {
    set id | id in states && Terminal(states[id])
  }

  function Put(s: State, id: Id, status: Status): State {
    s.(states := s.states[id := status])
  }

  // ------------------------------------------------------------ step relation

  datatype Step =
    | EndContext                        // the user cancels, or persistence fails
    | Check                             // the top of a turn
    | Sweep(id: Id)                     // a pending task is cancelled
    | Block(id: Id)
    | Launch(id: Id)
    | Complete(id: Id, outcome: Status) // a completion is received

  ghost predicate Enabled(g: Needs, jobs: nat, s: State, step: Step) {
    match step
    case EndContext => true
    case Check => true
    case Sweep(id) => s.observed && Has(s, id, Pending)
    case Block(id) =>
      s.checked && !s.observed && id in g && Has(s, id, Pending) && DependencyFailed(g, s, id)
    case Launch(id) =>
      && s.checked && !s.observed && id in g && Has(s, id, Pending)
      && DependenciesSucceeded(g, s, id) && |InFlight(s.states)| < jobs
    case Complete(id, outcome) =>
      && Has(s, id, Running)
      && (outcome == Success || outcome == Failed || (outcome == Cancelled && s.done))
  }

  ghost function After(s: State, step: Step): State {
    match step
    case EndContext => s.(done := true)
    case Check => s.(observed := s.observed || s.done, checked := true)
    case Sweep(id) => Put(s, id, Cancelled)
    case Block(id) => Put(s, id, Blocked)
    case Launch(id) => Put(s, id, Running)
    case Complete(id, outcome) => Put(s, id, outcome).(checked := false)
  }

  ghost predicate Next(g: Needs, jobs: nat, s: State, s': State) {
    exists step :: Enabled(g, jobs, s, step) && s' == After(s, step)
  }

  ghost predicate NextAt(g: Needs, jobs: nat, run: seq<State>, i: nat)
    requires i + 1 < |run|
  {
    Next(g, jobs, run[i], run[i + 1])
  }

  ghost predicate IsRun(g: Needs, jobs: nat, run: seq<State>) {
    run != [] && forall i: nat :: i + 1 < |run| ==> NextAt(g, jobs, run, i)
  }

  lemma RunExtends(g: Needs, jobs: nat, run: seq<State>, step: Step)
    requires IsRun(g, jobs, run) && Enabled(g, jobs, run[|run| - 1], step)
    ensures IsRun(g, jobs, run + [After(run[|run| - 1], step)])
  {
    var longer := run + [After(run[|run| - 1], step)];
    forall i: nat | i + 1 < |longer| ensures NextAt(g, jobs, longer, i) {
      if i + 1 < |run| { assert NextAt(g, jobs, run, i); }
    }
  }

  // Execute starts with no success; resumeTasks with those it recovered.
  ghost predicate Initial(g: Needs, s: State, recovered: set<Id>) {
    && s.states.Keys == g.Keys && !s.done && !s.observed && !s.checked
    && (forall id :: id in g ==> s.states[id] == if id in recovered then Success else Pending)
    && recovered <= g.Keys
    && (forall id, n :: id in recovered && n in g[id] ==> n in recovered)
  }

  // ---------------------------------------------------------------- invariant

  ghost predicate Supported(g: Needs, s: State, id: Id)
    requires id in g && id in s.states
  {
    && ((s.states[id] == Running || s.states[id] == Success || s.states[id] == Failed)
        ==> DependenciesSucceeded(g, s, id))
    && (s.states[id] == Blocked
        ==> exists n :: n in g[id] && (Has(s, n, Failed) || Has(s, n, Blocked)))
    && (s.states[id] == Cancelled ==> s.done && !(s.checked && !s.observed))
  }

  ghost predicate Inv(g: Needs, jobs: nat, s: State) {
    && s.states.Keys == g.Keys
    && (forall id {:trigger Supported(g, s, id)} :: id in g ==> Supported(g, s, id))
    && |InFlight(s.states)| <= jobs
    && (s.observed ==> s.done)
  }

  lemma InitialInv(g: Needs, jobs: nat, s: State, recovered: set<Id>)
    requires Initial(g, s, recovered)
    ensures Inv(g, jobs, s)
  {
    assert InFlight(s.states) == {};
  }

  lemma SetCount(s: set<Id>, id: Id, now: bool)
    ensures |if now then s + {id} else s - {id}| == |s| - (if id in s then 1 else 0) + (if now then 1 else 0)
  {
    var rest := s - {id};
    assert id in s ==> s == rest + {id};
    assert id !in s ==> s == rest;
    assert s + {id} == rest + {id};
    assert |rest + {id}| == |rest| + 1;
  }

  lemma InFlightAfter(states: map<Id, Status>, id: Id, status: Status)
    requires id in states
    ensures InFlight(states[id := status]) ==
      if status == Running then InFlight(states) + {id} else InFlight(states) - {id}
  {
  }

  lemma EndedAfter(states: map<Id, Status>, id: Id, status: Status)
    requires id in states
    ensures Ended(states[id := status]) == if Terminal(status) then Ended(states) + {id} else Ended(states) - {id}
  {
  }

  // One task changes status: what becomes of the two counts.
  lemma CountsAfter(states: map<Id, Status>, id: Id, status: Status)
    requires id in states
    ensures var states' := states[id := status];
      && |InFlight(states')| == |InFlight(states)| - (if states[id] == Running then 1 else 0) +
          (if status == Running then 1 else 0)
      && |Ended(states')| == |Ended(states)| - (if Terminal(states[id]) then 1 else 0) +
          (if Terminal(status) then 1 else 0)
  {
    InFlightAfter(states, id, status);
    EndedAfter(states, id, status);
    SetCount(InFlight(states), id, status == Running);
    SetCount(Ended(states), id, Terminal(status));
  }

  lemma StepKeepsInv(g: Needs, jobs: nat, s: State, step: Step)
    requires Inv(g, jobs, s) && Enabled(g, jobs, s, step)
    ensures Inv(g, jobs, After(s, step))
  {
    var s' := After(s, step);
    forall id | id in g ensures Supported(g, s', id) {
      assert Supported(g, s, id);
      StepKeepsSupport(g, s, jobs, step, id);
    }
    match step {
      case Sweep(id) => CountsAfter(s.states, id, Cancelled);
      case Block(id) => CountsAfter(s.states, id, Blocked);
      case Launch(id) => CountsAfter(s.states, id, Running);
      case Complete(id, outcome) => CountsAfter(s.states, id, outcome);
      case _ =>
    }
  }

  lemma StepKeepsSupport(g: Needs, s: State, jobs: nat, step: Step, id: Id)
    requires Inv(g, jobs, s) && Enabled(g, jobs, s, step) && id in g && Supported(g, s, id)
    ensures Supported(g, After(s, step), id)
  {
    var s' := After(s, step);
    forall n, status | status == Success || status == Failed || status == Blocked
      ensures Has(s, n, status) ==> Has(s', n, status)
    {
    }
    if s'.states[id] == Blocked && s.states[id] == Pending {
      var n :| n in g[id] && (Has(s, n, Failed) || Has(s, n, Blocked) || Has(s, n, Cancelled));
      assert n in g && Supported(g, s, n);
    }
  }

  lemma {:induction false} RunKeepsInv(g: Needs, jobs: nat, run: seq<State>, recovered: set<Id>)
    requires IsRun(g, jobs, run) && Initial(g, run[0], recovered)
    ensures forall i :: 0 <= i < |run| ==> Inv(g, jobs, run[i])
  {
    InitialInv(g, jobs, run[0], recovered);
    var i := 0;
    while i + 1 < |run|
      invariant 0 <= i < |run|
      invariant forall k :: 0 <= k <= i ==> Inv(g, jobs, run[k])
    {
      assert NextAt(g, jobs, run, i);
      var step :| Enabled(g, jobs, run[i], step) && run[i + 1] == After(run[i], step);
      StepKeepsInv(g, jobs, run[i], step);
      i := i + 1;
    }
  }

  // A blocked task always has an ancestor that ran and failed: cancellation never
  // shows up as blocking, so the "cancelled" test in dependencyFailed is never what decides.
  lemma {:induction false} BlockedHasFailedAncestor(g: Needs, jobs: nat, s: State, rank: map<Id, nat>, id: Id)
    requires Inv(g, jobs, s) && Ranked(g, rank) && Has(s, id, Blocked)
    ensures exists a :: Reaches(g, id, a) && a != id && Has(s, a, Failed)
    decreases rank[id]
  {
    assert Supported(g, s, id);
    var n :| n in g[id] && (Has(s, n, Failed) || Has(s, n, Blocked));
    ReachesSelf(g, n);
    ReachesStep(g, id, n, n);
    if Has(s, n, Blocked) {
      BlockedHasFailedAncestor(g, jobs, s, rank, n);
      var a :| Reaches(g, n, a) && a != n && Has(s, a, Failed);
      ReachesStep(g, id, n, a);
    }
  }

  // Once the loop has observed the end of its context nothing starts any more.
  lemma {:induction false} NothingStartsAfterObserving(g: Needs, jobs: nat, run: seq<State>, i: nat, j: nat)
    requires IsRun(g, jobs, run) && i <= j < |run| && run[i].observed
    ensures run[j].observed && InFlight(run[j].states) <= InFlight(run[i].states)
    decreases j
  {
    if i < j {
      NothingStartsAfterObserving(g, jobs, run, i, j - 1);
      assert NextAt(g, jobs, run, j - 1);
    }
  }

  // ---------------------------------------------------------------- progress

  // What the loop looks for before it waits: nothing to block, nothing to launch.
  ghost predicate Settled(g: Needs, s: State) {
    forall id :: id in g && Has(s, id, Pending) ==> !DependencyFailed(g, s, id) && !DependenciesSucceeded(g, s, id)
  }

  // "scheduler made no progress" cannot happen on an acyclic graph.
  lemma SettledAndIdleIsFinished(g: Needs, s: State)
    requires Known(g) && !HasCycle(g) && s.states.Keys == g.Keys
    requires Settled(g, s) && InFlight(s.states) == {}
    ensures Ended(s.states) == g.Keys
  {
    var left := set id | id in g && Has(s, id, Pending);
    if left != {} {
      forall id | id in left ensures NeedsInside(g, left, id) {
        assert !DependencyFailed(g, s, id) && !DependenciesSucceeded(g, s, id);
        var n :| n in g[id] && !Has(s, n, Success);
        assert n in g && n !in InFlight(s.states);
        assert Has(s, n, Pending);
      }
      assert Stuck(g, left);
      StuckHasCycle(g, left);
    }
    forall id | id in g ensures id in Ended(s.states) {
      assert id !in InFlight(s.states) && id !in left;
    }
  }

  // --------------------------------------------------------------- confluence

  // The statuses that a plan determines: a task's own outcome if all its needs
  // succeed, otherwise blocked.
  ghost function Verdict(g: Needs, own: map<Id, Status>, rank: map<Id, nat>, id: Id): Status
    requires Ranked(g, rank) && own.Keys == g.Keys && id in g
    decreases rank[id]
  {
    if forall n :: n in g[id] ==> Verdict(g, own, rank, n) == Success then own[id] else Blocked
  }

  lemma {:induction false} VerdictIgnoresRank(g: Needs, own: map<Id, Status>, rank: map<Id, nat>, rank': map<Id, nat>,
                                              id: Id)
    requires Ranked(g, rank) && Ranked(g, rank') && own.Keys == g.Keys && id in g
    ensures Verdict(g, own, rank, id) == Verdict(g, own, rank', id)
    decreases rank[id]
  {
    forall n | n in g[id] ensures Verdict(g, own, rank, n) == Verdict(g, own, rank', n) {
      VerdictIgnoresRank(g, own, rank, rank', n);
    }
  }

  // Every status that a task earned by itself is its own outcome.
  ghost predicate Honest(own: map<Id, Status>, s: State) {
    forall id :: id in s.states && id in own && (s.states[id] == Success || s.states[id] == Failed) ==>
      s.states[id] == own[id]
  }

  ghost predicate HonestStep(own: map<Id, Status>, s: State, s': State) {
    forall id :: Has(s, id, Running) && id in s'.states && id in own && Terminal(s'.states[id]) ==>
      s'.states[id] == own[id]
  }

  // A finished state without cancellation is the verdict, whatever the interleaving.
  lemma {:induction false} FinishedIsVerdict(g: Needs, jobs: nat, own: map<Id, Status>, rank: map<Id, nat>, s: State,
                                             id: Id)
    requires Inv(g, jobs, s) && Honest(own, s) && !s.done && Ended(s.states) == g.Keys
    requires Ranked(g, rank) && own.Keys == g.Keys && id in g
    ensures s.states[id] == Verdict(g, own, rank, id)
    decreases rank[id]
  {
    assert Supported(g, s, id) && id in Ended(s.states);
    forall n | n in g[id] ensures Has(s, n, Success) <==> Verdict(g, own, rank, n) == Success {
      FinishedIsVerdict(g, jobs, own, rank, s, n);
    }
  }

  lemma FinishedIsVerdictMap(g: Needs, jobs: nat, own: map<Id, Status>, rank: map<Id, nat>, s: State)
    requires Inv(g, jobs, s) && Honest(own, s) && !s.done && Ended(s.states) == g.Keys
    requires Ranked(g, rank) && own.Keys == g.Keys
    ensures s.states == map id | id in g :: Verdict(g, own, rank, id)
  {
    forall id | id in g ensures s.states[id] == Verdict(g, own, rank, id) {
      FinishedIsVerdict(g, jobs, own, rank, s, id);
    }
  }

  lemma StaysHonest(g: Needs, jobs: nat, own: map<Id, Status>, s: State, step: Step)
    requires Enabled(g, jobs, s, step) && Honest(own, s) && HonestStep(own, s, After(s, step))
    ensures Honest(own, After(s, step))
    ensures After(s, step).states.Keys == s.states.Keys
  {
  }

  lemma {:induction false} HonestRun(g: Needs, jobs: nat, own: map<Id, Status>, run: seq<State>, recovered: set<Id>,
                                     k: nat)
    requires IsRun(g, jobs, run) && Initial(g, run[0], recovered) && k < |run|
    requires own.Keys == g.Keys && forall id :: id in recovered ==> own[id] == Success
    requires forall i :: 0 <= i < k ==> HonestStep(own, run[i], run[i + 1])
    ensures Honest(own, run[k]) && run[k].states.Keys == g.Keys
    decreases k
  {
    if k > 0 {
      HonestRun(g, jobs, own, run, recovered, k - 1);
      assert NextAt(g, jobs, run, k - 1);
      var step :| Enabled(g, jobs, run[k - 1], step) && run[k] == After(run[k - 1], step);
      assert HonestStep(own, run[k - 1], run[k]);
      StaysHonest(g, jobs, own, run[k - 1], step);
    }
  }

  // Confluence: any two uncancelled runs of one plan that finish, with whatever
  // interleavings, job limits and recovered successes, end in the same statuses. They are
  // the verdict, by whichever ranks the two runs' plans were found acyclic.
  lemma Confluence(g: Needs, own: map<Id, Status>,
                   rank: map<Id, nat>, jobs: nat, run: seq<State>, recovered: set<Id>,
                   rank': map<Id, nat>, jobs': nat, run': seq<State>, recovered': set<Id>)
    requires Ranked(g, rank) && Ranked(g, rank') && own.Keys == g.Keys
    requires Uncancelled(g, own, jobs, run, recovered) && Uncancelled(g, own, jobs', run', recovered')
    ensures run[|run| - 1].states == map id | id in g :: Verdict(g, own, rank, id)
    ensures run'[|run'| - 1].states == map id | id in g :: Verdict(g, own, rank', id)
    ensures run[|run| - 1].states == run'[|run'| - 1].states
  {
    UncancelledIsVerdict(g, own, rank, jobs, run, recovered);
    UncancelledIsVerdict(g, own, rank', jobs', run', recovered');
    forall id | id in g ensures Verdict(g, own, rank, id) == Verdict(g, own, rank', id) {
      VerdictIgnoresRank(g, own, rank, rank', id);
    }
  }

  // A finished, honest run whose context never ended.
  ghost predicate Uncancelled(g: Needs, own: map<Id, Status>, jobs: nat, run: seq<State>, recovered: set<Id>) {
    && IsRun(g, jobs, run) && Initial(g, run[0], recovered)
    && own.Keys == g.Keys && (forall id :: id in recovered ==> own[id] == Success)
    && (forall i :: 0 <= i < |run| - 1 ==> HonestStep(own, run[i], run[i + 1]))
    && !run[|run| - 1].done && Ended(run[|run| - 1].states) == g.Keys
  }

  lemma UncancelledIsVerdict(g: Needs, own: map<Id, Status>, rank: map<Id, nat>, jobs: nat, run: seq<State>,
                             recovered: set<Id>)
    requires Ranked(g, rank) && own.Keys == g.Keys && Uncancelled(g, own, jobs, run, recovered)
    ensures run[|run| - 1].states == map id | id in g :: Verdict(g, own, rank, id)
  {
    var s := run[|run| - 1];
    RunKeepsInv(g, jobs, run, recovered);
    HonestRun(g, jobs, own, run, recovered, |run| - 1);
    FinishedIsVerdictMap(g, jobs, own, rank, s);
  }
}
