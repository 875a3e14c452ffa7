// run.go and internal/formatters/fmt_flushwrap.go: scenarios in flight under a channel of
// `rate` slots, each with its own buffered formatter. A state machine over every
// interleaving of the dispatching goroutine and the scenarios.
module Concurrent {
  import opened Ids

  datatype Call =
    | TestRunStarted | Feature(uri: string) | Pickle(id: string) | Defined(step: string)
    | Passed(step: string) | Failed(step: string) | Skipped(step: string) | Undefined(step: string)
    | Pending(step: string) | Ambiguous(step: string) | Summary

  // A call of the shared formatter, by the dispatcher or for the scenario at a position.
  datatype Entry = BySuite(call: Call) | ByScenario(at: nat, call: Call)

  datatype Main = Reserving | Announcing | Spawning | Draining(taken: nat) | AfterSuite | Summarising | Ended

  datatype Worker =
    | Working(buffer: seq<Call>)
    | Flushing(buffer: seq<Call>, shown: nat)
    | Released(buffer: seq<Call>, ran: bool)

  // headings: the features announced before the scenario at that position.
  datatype Config = Config(count: nat, rate: nat, stopOnFailure: bool, headings: map<nat, string>)

  datatype State = State(main: Main, next: nat, slots: nat, workers: map<nat, Worker>, failed: bool,
                         log: seq<Entry>, handled: seq<nat>)

  datatype Action =
    | Reserve | Announce | Spawn | StartDraining | Drain | EndDraining | RunAfterSuite | Summarise
    | Emit(at: nat, call: Call) | Skip(at: nat) | Finish(at: nat, fails: bool) | Show(at: nat) | Release(at: nat)

  predicate WorkingAt(s: State, p: nat) {
    p in s.workers && s.workers[p].Working?
  }

  predicate FlushingAt(s: State, p: nat) {
    p in s.workers && s.workers[p].Flushing?
  }

  predicate Enabled(c: Config, s: State, a: Action) {
    match a
    case Reserve => s.main == Reserving && s.next < c.count && s.slots < c.rate
    case Announce => s.main == Announcing
    case Spawn => s.main == Spawning
    case StartDraining => s.main == Reserving && s.next == c.count
    case Drain => s.main.Draining? && s.main.taken < c.rate && s.slots < c.rate
    case EndDraining => s.main.Draining? && s.main.taken == c.rate
    case RunAfterSuite => s.main == AfterSuite
    case Summarise => s.main == Summarising
    case Emit(p, _) => WorkingAt(s, p)
    case Skip(p) => WorkingAt(s, p) && s.workers[p].buffer == [] && c.stopOnFailure && s.failed && s.slots > 0
    case Finish(p, _) => WorkingAt(s, p)
    case Show(p) => FlushingAt(s, p) && s.workers[p].shown < |s.workers[p].buffer|
    case Release(p) => FlushingAt(s, p) && s.workers[p].shown == |s.workers[p].buffer| && s.slots > 0
  }

  function After(c: Config, s: State, a: Action): State
    requires Enabled(c, s, a)
  {
    match a
    case Reserve => s.(slots := s.slots + 1, main := Announcing)
    case Announce =>
      s.(main := Spawning, log := s.log + if s.next in c.headings then [BySuite(Feature(c.headings[s.next]))] else [])
    case Spawn => s.(main := Reserving, next := s.next + 1, workers := s.workers[s.next := Working([])])
    case StartDraining => s.(main := Draining(0))
    case Drain => s.(main := Draining(s.main.taken + 1), slots := s.slots + 1)
    case EndDraining => s.(main := AfterSuite)
    case RunAfterSuite => s.(main := Summarising)
    case Summarise => s.(main := Ended, log := s.log + [BySuite(Summary)])
    case Emit(p, call) => s.(workers := s.workers[p := Working(s.workers[p].buffer + [call])])
    case Skip(p) => s.(workers := s.workers[p := Released([], false)], slots := s.slots - 1, handled := s.handled + [p])
    case Finish(p, fails) =>
      s.(workers := s.workers[p := Flushing(s.workers[p].buffer, 0)], failed := s.failed || fails,
         handled := s.handled + [p])
    case Show(p) =>
      var w := s.workers[p];
      s.(workers := s.workers[p := Flushing(w.buffer, w.shown + 1)], log := s.log + [ByScenario(p, w.buffer[w.shown])])
    case Release(p) => s.(workers := s.workers[p := Released(s.workers[p].buffer, true)], slots := s.slots - 1)
  }

  ghost predicate Next(c: Config, s: State, s': State) {
    exists a :: Enabled(c, s, a) && s' == After(c, s, a)
  }

  function Start(): State {
    State(Reserving, 0, 0, map[], false, [BySuite(TestRunStarted)], [])
  }

  ghost predicate IsRun(c: Config, run: seq<State>) {
    run != [] && run[0] == Start() && forall i :: 0 <= i < |run| - 1 ==> Next(c, run[i], run[i + 1])
  }

  // ------------------------------------------------------------------------ invariants

  // The scenarios holding a slot.
  function Live(s: State): set<nat> {
    set p | p in s.workers && !s.workers[p].Released?
  }

  function Holding(c: Config, main: Main): nat {
    match main
    case Reserving => 0
    case Announcing => 1
    case Spawning => 1
    case Draining(k) => k
    case AfterSuite => c.rate
    case Summarising => c.rate
    case Ended => c.rate
  }

  // What the shared formatter was told about one scenario.
  function CallsFor(log: seq<Entry>, p: nat): seq<Call> {
    if log == [] then []
    else
      var last := log[|log| - 1];
      CallsFor(log[..|log| - 1], p) + if last.ByScenario? && last.at == p then [last.call] else []
  }

  function ShownBy(s: State, p: nat): seq<Call> {
    if p !in s.workers then []
    else
      match s.workers[p]
      case Working(_) => []
      case Flushing(buffer, k) => if k <= |buffer| then buffer[..k] else []
      case Released(buffer, _) => buffer
  }

  ghost predicate WellFormed(c: Config, s: State) {
    && s.next <= c.count
    && (forall p: nat :: p in s.workers <==> p < s.next)
    && (forall p :: p in s.workers && s.workers[p].Flushing? ==> s.workers[p].shown <= |s.workers[p].buffer|)
    && (forall p :: p in s.workers && s.workers[p].Released? && !s.workers[p].ran ==> c.stopOnFailure && s.failed)
    && (s.main.Announcing? || s.main.Spawning? ==> s.next < c.count)
    && (!s.main.Reserving? && !s.main.Announcing? && !s.main.Spawning? ==> s.next == c.count)
    && (s.main.Draining? ==> s.main.taken <= c.rate)
  }

  // Every occupied slot belongs to a scenario in flight or to the dispatcher.
  ghost predicate SlotsCount(c: Config, s: State) {
    s.slots == |Live(s)| + Holding(c, s.main) && s.slots <= c.rate
  }

  ghost predicate LogMatches(s: State) {
    forall p {:trigger CallsFor(s.log, p)} :: CallsFor(s.log, p) == ShownBy(s, p)
  }

  ghost predicate HandledMatches(s: State) {
    NoDup(s.handled) && forall p: nat :: p in s.handled <==> p in s.workers && !s.workers[p].Working?
  }

  ghost predicate SummaryLast(s: State) {
    && (s.main == Ended ==> s.log != [] && s.log[|s.log| - 1] == BySuite(Summary))
    && forall i :: 0 <= i < |s.log| && s.log[i] == BySuite(Summary) ==> s.main == Ended && i == |s.log| - 1
  }

  ghost predicate Inv(c: Config, s: State) {
    WellFormed(c, s) && SlotsCount(c, s) && LogMatches(s) && HandledMatches(s) && SummaryLast(s)
  }

  lemma StartInv(c: Config)
    ensures Inv(c, Start())
  {
    var s := Start();
    assert Live(s) == {};
    forall p: nat ensures CallsFor(s.log, p) == ShownBy(s, p) {
      LogSnoc([], BySuite(TestRunStarted), p);
      assert s.log == [] + [BySuite(TestRunStarted)];
    }
  }

  lemma LogSnoc(log: seq<Entry>, e: Entry, p: nat)
    ensures CallsFor(log + [e], p) == CallsFor(log, p) + if e.ByScenario? && e.at == p then [e.call] else []
  {
    assert (log + [e])[..|log|] == log;
  }

  lemma KeepsWellFormed(c: Config, s: State, a: Action)
    requires WellFormed(c, s) && Enabled(c, s, a)
    ensures WellFormed(c, After(c, s, a))
  {
    if a.Emit? || a.Skip? || a.Finish? || a.Show? || a.Release? {
      WorkersStayWellFormed(c, s, a);
    } else {
      MainStaysWellFormed(c, s, a);
    }
  }

  lemma WorkersStayWellFormed(c: Config, s: State, a: Action)
    requires WellFormed(c, s) && Enabled(c, s, a)
    requires a.Emit? || a.Skip? || a.Finish? || a.Show? || a.Release?
    ensures WellFormed(c, After(c, s, a))
  {
  }

  lemma MainStaysWellFormed(c: Config, s: State, a: Action)
    requires WellFormed(c, s) && Enabled(c, s, a)
    requires !(a.Emit? || a.Skip? || a.Finish? || a.Show? || a.Release?)
    ensures WellFormed(c, After(c, s, a))
  {
  }

  lemma LiveAfter(c: Config, s: State, a: Action)
    requires WellFormed(c, s) && Enabled(c, s, a)
    ensures Live(After(c, s, a)) ==
      if a.Spawn? then Live(s) + {s.next}
      else if a.Skip? || a.Release? then Live(s) - {a.at}
      else Live(s)
    ensures a.Skip? || a.Release? ==> a.at in Live(s)
    ensures s.next !in Live(s)
  {
  }

  lemma KeepsSlotsCount(c: Config, s: State, a: Action)
    requires WellFormed(c, s) && SlotsCount(c, s) && Enabled(c, s, a)
    ensures SlotsCount(c, After(c, s, a))
  {
    LiveAfter(c, s, a);
  }

  lemma KeepsLogMatches(c: Config, s: State, a: Action)
    requires WellFormed(c, s) && LogMatches(s) && Enabled(c, s, a)
    ensures LogMatches(After(c, s, a))
  {
    var s' := After(c, s, a);
    forall p ensures CallsFor(s'.log, p) == ShownBy(s', p) {
      assert CallsFor(s.log, p) == ShownBy(s, p);
      LogAfter(c, s, a, p);
      ShownAfter(c, s, a, p);
    }
  }

  // What one action adds to the log about a scenario.
  function Adds(s: State, a: Action, p: nat): seq<Call>
    requires a.Show? ==> FlushingAt(s, a.at) && s.workers[a.at].shown < |s.workers[a.at].buffer|
  {
    if a.Show? && a.at == p then [s.workers[p].buffer[s.workers[p].shown]] else []
  }

  lemma LogAfter(c: Config, s: State, a: Action, p: nat)
    requires Enabled(c, s, a)
    ensures CallsFor(After(c, s, a).log, p) == CallsFor(s.log, p) + Adds(s, a, p)
  {
    match a
    case Announce =>
      if s.next in c.headings { LogSnoc(s.log, BySuite(Feature(c.headings[s.next])), p); }
      else { assert s.log + [] == s.log; }
    case Summarise => LogSnoc(s.log, BySuite(Summary), p);
    case Show(q) => LogSnoc(s.log, ByScenario(q, s.workers[q].buffer[s.workers[q].shown]), p);
    case _ =>
  }

  lemma ShownAfter(c: Config, s: State, a: Action, p: nat)
    requires WellFormed(c, s) && Enabled(c, s, a)
    ensures ShownBy(After(c, s, a), p) == ShownBy(s, p) + Adds(s, a, p)
  {
    match a
    case Show(q) =>
      var w := s.workers[q];
      assert w.buffer[..w.shown + 1] == w.buffer[..w.shown] + [w.buffer[w.shown]];
    case Release(q) =>
      var w := s.workers[q];
      assert w.buffer[..|w.buffer|] == w.buffer;
    case _ =>
  }

  lemma KeepsHandledMatches(c: Config, s: State, a: Action)
    requires WellFormed(c, s) && HandledMatches(s) && Enabled(c, s, a)
    ensures HandledMatches(After(c, s, a))
  {
    if a.Skip? || a.Finish? {
      assert a.at !in s.handled;
      NoDupSnoc(s.handled, a.at);
    }
  }

  // Once the dispatcher holds every slot, no scenario is in flight.
  lemma AllSlotsHeld(c: Config, s: State)
    requires SlotsCount(c, s) && Holding(c, s.main) == c.rate
    ensures Live(s) == {} && forall p :: p in s.workers ==> s.workers[p].Released?
  {
    forall p | p in s.workers ensures s.workers[p].Released? {
      assert p !in Live(s);
    }
  }

  lemma KeepsSummaryLast(c: Config, s: State, a: Action)
    requires SummaryLast(s) && Enabled(c, s, a) && SlotsCount(c, s)
    ensures SummaryLast(After(c, s, a))
  {
    if s.main == Ended {
      AllSlotsHeld(c, s);
    }
  }

  lemma StepKeepsInv(c: Config, s: State, a: Action)
    requires Inv(c, s) && Enabled(c, s, a)
    ensures Inv(c, After(c, s, a))
  {
    KeepsWellFormed(c, s, a);
    KeepsSlotsCount(c, s, a);
    KeepsLogMatches(c, s, a);
    KeepsHandledMatches(c, s, a);
    KeepsSummaryLast(c, s, a);
  }

  lemma {:induction false} RunKeepsInv(c: Config, run: seq<State>, i: nat)
    requires IsRun(c, run) && i < |run|
    ensures Inv(c, run[i])
  {
    if i == 0 {
      StartInv(c);
    } else {
      RunKeepsInv(c, run, i - 1);
      assert Next(c, run[i - 1], run[i - 1 + 1]);
      var a :| Enabled(c, run[i - 1], a) && run[i] == After(c, run[i - 1], a);
      StepKeepsInv(c, run[i - 1], a);
    }
  }

  // ------------------------------------------------------------- what the actions were

  // A run with its actions.
  ghost predicate RunBy(c: Config, run: seq<State>, acts: seq<Action>) {
    && run != [] && run[0] == Start() && |acts| == |run| - 1
    && forall i {:trigger acts[i]} :: 0 <= i < |acts| ==> Takes(c, run[i], acts[i], run[i + 1])
  }

  ghost predicate Takes(c: Config, s: State, a: Action, s': State) {
    Enabled(c, s, a) && s' == After(c, s, a)
  }

  lemma RunByIsRun(c: Config, run: seq<State>, acts: seq<Action>)
    requires RunBy(c, run, acts)
    ensures IsRun(c, run)
  {
    forall i | 0 <= i < |run| - 1 ensures Next(c, run[i], run[i + 1]) {
      assert Takes(c, run[i], acts[i], run[i + 1]);
    }
  }

  // Every run has actions.
  lemma ActionsOf(c: Config, run: seq<State>) returns (acts: seq<Action>)
    requires IsRun(c, run)
    ensures RunBy(c, run, acts)
  {
    acts := [];
    for i := 0 to |run| - 1
      invariant |acts| == i
      invariant forall k {:trigger acts[k]} :: 0 <= k < i ==> Takes(c, run[k], acts[k], run[k + 1])
    {
      assert Next(c, run[i], run[i + 1]);
      var a :| Enabled(c, run[i], a) && run[i + 1] == After(c, run[i], a);
      acts := acts + [a];
    }
  }

  // The calls a scenario makes, in order.
  function Emitted(acts: seq<Action>, p: nat): seq<Call> {
    if acts == [] then []
    else
      var a := acts[|acts| - 1];
      Emitted(acts[..|acts| - 1], p) + if a.Emit? && a.at == p then [a.call] else []
  }

  // What the shared formatter was told by the dispatcher.
  function SuiteCalls(log: seq<Entry>): seq<Call> {
    if log == [] then []
    else
      var e := log[|log| - 1];
      SuiteCalls(log[..|log| - 1]) + if e.BySuite? then [e.call] else []
  }

  // The features of the first n scenarios.
  function Headings(c: Config, n: nat): seq<Call> {
    if n == 0 then []
    else Headings(c, n - 1) + if n - 1 in c.headings then [Feature(c.headings[n - 1])] else []
  }

  ghost predicate SomeFailed(acts: seq<Action>) {
    exists k :: 0 <= k < |acts| && acts[k].Finish? && acts[k].fails
  }

  ghost predicate OtherFailed(acts: seq<Action>, p: nat) {
    exists k :: 0 <= k < |acts| && acts[k].Finish? && acts[k].fails && acts[k].at != p
  }

  ghost predicate FinishedBy(acts: seq<Action>, p: nat) {
    exists k :: 0 <= k < |acts| && acts[k].Finish? && acts[k].at == p
  }

  // One scenario against the actions so far.
  ghost predicate HistoryAt(c: Config, s: State, acts: seq<Action>, p: nat) {
    && (FinishedBy(acts, p) ==>
          p in s.workers && (s.workers[p].Flushing? || (s.workers[p].Released? && s.workers[p].ran)))
    && (p !in s.workers ==> Emitted(acts, p) == [])
    && (p in s.workers ==> s.workers[p].buffer == Emitted(acts, p))
    && (p in s.workers && s.workers[p].Released? && !s.workers[p].ran ==>
          c.stopOnFailure && s.workers[p].buffer == [] && OtherFailed(acts, p))
  }

  // The features announced so far.
  function Announced(s: State): nat {
    if s.main == Spawning then s.next + 1 else s.next
  }

  ghost predicate HeadedAt(c: Config, s: State, k: nat)
    requires k < |s.log|
  {
    s.log[k].ByScenario? ==> [TestRunStarted] + Headings(c, s.log[k].at + 1) <= SuiteCalls(s.log[..k])
  }

  ghost predicate History(c: Config, s: State, acts: seq<Action>) {
    && (s.failed <==> SomeFailed(acts))
    && (forall p {:trigger HistoryAt(c, s, acts, p)} :: HistoryAt(c, s, acts, p))
    && SuiteCalls(s.log) == [TestRunStarted] + Headings(c, Announced(s)) + (if s.main == Ended then [Summary] else [])
    && (forall k {:trigger HeadedAt(c, s, k)} :: 0 <= k < |s.log| ==> HeadedAt(c, s, k))
  }

  lemma ActsSnoc(acts: seq<Action>, a: Action, p: nat)
    ensures SomeFailed(acts + [a]) <==> SomeFailed(acts) || (a.Finish? && a.fails)
    ensures OtherFailed(acts + [a], p) <==> OtherFailed(acts, p) || (a.Finish? && a.fails && a.at != p)
    ensures FinishedBy(acts + [a], p) <==> FinishedBy(acts, p) || (a.Finish? && a.at == p)
    ensures Emitted(acts + [a], p) == Emitted(acts, p) + if a.Emit? && a.at == p then [a.call] else []
  {
    var more := acts + [a];
    assert more[..|acts|] == acts && more[|acts|] == a;
    assert forall k :: 0 <= k < |acts| ==> more[k] == acts[k];
    if SomeFailed(acts) {
      var k :| 0 <= k < |acts| && acts[k].Finish? && acts[k].fails;
      assert more[k].Finish? && more[k].fails;
    }
    if OtherFailed(acts, p) {
      var k :| 0 <= k < |acts| && acts[k].Finish? && acts[k].fails && acts[k].at != p;
      assert more[k].Finish? && more[k].fails && more[k].at != p;
    }
    if FinishedBy(acts, p) {
      var k :| 0 <= k < |acts| && acts[k].Finish? && acts[k].at == p;
      assert more[k].Finish? && more[k].at == p;
    }
  }

  lemma KeepsHistoryAt(c: Config, s: State, acts: seq<Action>, a: Action, p: nat)
    requires WellFormed(c, s) && History(c, s, acts) && Enabled(c, s, a)
    ensures HistoryAt(c, After(c, s, a), acts + [a], p)
  {
    assert HistoryAt(c, s, acts, p);
    ActsSnoc(acts, a, p);
    if a == Skip(p) {
      var k :| 0 <= k < |acts| && acts[k].Finish? && acts[k].fails;
      assert acts[k].at != p;
    }
  }

  lemma SuiteSnoc(log: seq<Entry>, e: Entry)
    ensures SuiteCalls(log + [e]) == SuiteCalls(log) + if e.BySuite? then [e.call] else []
  {
    assert (log + [e])[..|log|] == log;
  }

  // What one action tells the shared formatter for the dispatcher.
  function SuiteAdds(c: Config, s: State, a: Action): seq<Call> {
    if a.Announce? && s.next in c.headings then [Feature(c.headings[s.next])]
    else if a.Summarise? then [Summary] else []
  }

  lemma SuiteCallsAfter(c: Config, s: State, a: Action)
    requires Enabled(c, s, a)
    ensures SuiteCalls(After(c, s, a).log) == SuiteCalls(s.log) + SuiteAdds(c, s, a)
  {
    match a
    case Announce => if s.next in c.headings { SuiteSnoc(s.log, BySuite(Feature(c.headings[s.next]))); }
                     else { assert s.log + [] == s.log; }
    case Summarise => SuiteSnoc(s.log, BySuite(Summary));
    case Show(p) => SuiteSnoc(s.log, ByScenario(p, s.workers[p].buffer[s.workers[p].shown]));
    case _ =>
  }

  lemma SuiteToldAfter(c: Config, s: State, a: Action)
    requires Enabled(c, s, a) && s.next <= c.count
    ensures var s' := After(c, s, a);
      Headings(c, Announced(s')) + (if s'.main == Ended then [Summary] else [])
        == Headings(c, Announced(s)) + (if s.main == Ended then [Summary] else []) + SuiteAdds(c, s, a)
  {
  }

  lemma KeepsSuiteCalls(c: Config, s: State, acts: seq<Action>, a: Action)
    requires Inv(c, s) && History(c, s, acts) && Enabled(c, s, a)
    ensures var s' := After(c, s, a);
      SuiteCalls(s'.log) == [TestRunStarted] + Headings(c, Announced(s')) + (if s'.main == Ended then [Summary] else [])
  {
    SuiteCallsAfter(c, s, a);
    SuiteToldAfter(c, s, a);
  }

  lemma {:induction false} HeadingsGrow(c: Config, m: nat, n: nat)
    requires m <= n
    ensures Headings(c, m) <= Headings(c, n)
  {
    if m < n { HeadingsGrow(c, m, n - 1); }
  }

  lemma KeepsHeaded(c: Config, s: State, acts: seq<Action>, a: Action, k: nat)
    requires Inv(c, s) && History(c, s, acts) && Enabled(c, s, a) && k < |After(c, s, a).log|
    ensures HeadedAt(c, After(c, s, a), k)
  {
    var s' := After(c, s, a);
    LogGrows(c, s, a);
    if k < |s.log| {
      assert HeadedAt(c, s, k);
      assert s'.log[k] == s.log[k] && s'.log[..k] == s.log[..k];
    } else if a.Show? {
      ShownIsHeaded(c, s, a.at);
      assert s'.log[..k] == s.log;
    }
  }

  lemma LogGrows(c: Config, s: State, a: Action)
    requires Enabled(c, s, a)
    ensures s.log <= After(c, s, a).log && |After(c, s, a).log| <= |s.log| + 1
    ensures |After(c, s, a).log| > |s.log| ==>
      if a.Show? then After(c, s, a).log[|s.log|].ByScenario? && After(c, s, a).log[|s.log|].at == a.at
      else After(c, s, a).log[|s.log|].BySuite?
  {
  }

  // A scenario that shows something was started, so its feature was announced.
  lemma ShownIsHeaded(c: Config, s: State, p: nat)
    requires WellFormed(c, s) && p in s.workers
    requires SuiteCalls(s.log) ==
      [TestRunStarted] + Headings(c, Announced(s)) + (if s.main == Ended then [Summary] else [])
    ensures [TestRunStarted] + Headings(c, p + 1) <= SuiteCalls(s.log)
  {
    HeadingsGrow(c, p + 1, Announced(s));
  }

  lemma StepKeepsHistory(c: Config, s: State, acts: seq<Action>, a: Action)
    requires Inv(c, s) && History(c, s, acts) && Enabled(c, s, a)
    ensures History(c, After(c, s, a), acts + [a])
  {
    ActsSnoc(acts, a, 0);
    KeepsSuiteCalls(c, s, acts, a);
    forall p ensures HistoryAt(c, After(c, s, a), acts + [a], p) {
      KeepsHistoryAt(c, s, acts, a, p);
    }
    forall k | 0 <= k < |After(c, s, a).log| ensures HeadedAt(c, After(c, s, a), k) {
      KeepsHeaded(c, s, acts, a, k);
    }
  }

  lemma StartHistory(c: Config)
    ensures History(c, Start(), [])
  {
    SuiteSnoc([], BySuite(TestRunStarted));
    assert Start().log == [] + [BySuite(TestRunStarted)];
    forall p ensures HistoryAt(c, Start(), [], p) {
    }
  }

  lemma {:induction false} RunKeepsHistory(c: Config, run: seq<State>, acts: seq<Action>, i: nat)
    requires RunBy(c, run, acts) && i < |run|
    ensures History(c, run[i], acts[..i])
  {
    if i == 0 {
      StartHistory(c);
    } else {
      RunKeepsHistory(c, run, acts, i - 1);
      RunByIsRun(c, run, acts);
      RunKeepsInv(c, run, i - 1);
      assert Takes(c, run[i - 1], acts[i - 1], run[i - 1 + 1]);
      StepKeepsHistory(c, run[i - 1], acts[..i - 1], acts[i - 1]);
      assert acts[..i] == acts[..i - 1] + [acts[i - 1]];
    }
  }

  // -------------------------------------------------------------------------- theorems

  // At most `rate` scenarios are in flight.
  lemma InFlightBounded(c: Config, run: seq<State>, i: nat)
    requires IsRun(c, run) && i < |run|
    ensures |Live(run[i])| <= c.rate
  {
    RunKeepsInv(c, run, i);
  }

  // When the after-suite handlers run, and from then on, every scenario of every feature
  // has been handled once, has shown all it recorded and nothing else, and is over; none
  // was passed over unless another one really failed and failures stop the suite; the suite was told
  // of the run, of every feature in turn and of the summary, which is the last thing shown.
  lemma BarrierHolds(c: Config, run: seq<State>, acts: seq<Action>, i: nat)
    requires RunBy(c, run, acts) && i < |run| && run[i].main in {AfterSuite, Summarising, Ended}
    ensures forall p: nat :: p in run[i].workers <==> p < c.count
    ensures forall p: nat :: p < c.count ==>
      run[i].workers[p].Released? && CallsFor(run[i].log, p) == run[i].workers[p].buffer
    ensures forall p: nat :: p < c.count && run[i].workers[p].ran ==> CallsFor(run[i].log, p) == Emitted(acts[..i], p)
    ensures forall p: nat :: p < c.count && !run[i].workers[p].ran ==>
      c.stopOnFailure && CallsFor(run[i].log, p) == [] && OtherFailed(acts[..i], p)
    ensures NoDup(run[i].handled) && forall p: nat :: p in run[i].handled <==> p < c.count
    ensures run[i].main == Ended ==> run[i].log != [] && run[i].log[|run[i].log| - 1] == BySuite(Summary)
    ensures forall k :: 0 <= k < |run[i].log| && run[i].log[k] == BySuite(Summary) ==> k == |run[i].log| - 1
    ensures SuiteCalls(run[i].log) ==
      [TestRunStarted] + Headings(c, c.count) + if run[i].main == Ended then [Summary] else []
  {
    RunByIsRun(c, run, acts);
    RunKeepsInv(c, run, i);
    RunKeepsHistory(c, run, acts, i);
    AllSlotsHeld(c, run[i]);
    forall p: nat | p < c.count
      ensures CallsFor(run[i].log, p) == run[i].workers[p].buffer
      ensures run[i].workers[p].ran ==> run[i].workers[p].buffer == Emitted(acts[..i], p)
      ensures !run[i].workers[p].ran ==> run[i].workers[p].buffer == [] && OtherFailed(acts[..i], p)
    {
      assert CallsFor(run[i].log, p) == ShownBy(run[i], p);
      assert HistoryAt(c, run[i], acts[..i], p);
    }
  }

  // If no scenario fails, every scenario runs and the suite does not fail.
  lemma NothingFailsNothingSkipped(c: Config, run: seq<State>, acts: seq<Action>, i: nat)
    requires RunBy(c, run, acts) && i < |run| && run[i].main in {AfterSuite, Summarising, Ended}
    requires forall k :: 0 <= k < i ==> !(acts[k].Finish? && acts[k].fails)
    ensures !run[i].failed
    ensures forall p: nat :: p < c.count ==> p in run[i].workers && run[i].workers[p].Released? && run[i].workers[p].ran
  {
    BarrierHolds(c, run, acts, i);
    FailedIff(c, run, acts, i);
    forall p: nat | p < c.count ensures run[i].workers[p].ran {
      assert !OtherFailed(acts[..i], p);
    }
  }

  // The suite has failed exactly when some scenario was finished with a failure.
  lemma FailedIff(c: Config, run: seq<State>, acts: seq<Action>, i: nat)
    requires RunBy(c, run, acts) && i < |run|
    ensures run[i].failed <==> exists k :: 0 <= k < i && acts[k].Finish? && acts[k].fails
  {
    RunKeepsHistory(c, run, acts, i);
    assert forall k :: 0 <= k < i ==> acts[..i][k] == acts[k];
  }

  // A scenario's calls are shown only after the headings of its own feature and those before.
  lemma HeadingsComeFirst(c: Config, run: seq<State>, acts: seq<Action>, i: nat, k: nat)
    requires RunBy(c, run, acts) && i < |run| && k < |run[i].log| && run[i].log[k].ByScenario?
    ensures [TestRunStarted] + Headings(c, run[i].log[k].at + 1) <= SuiteCalls(run[i].log[..k])
  {
    RunKeepsHistory(c, run, acts, i);
    assert HeadedAt(c, run[i], k);
  }

  // The dispatcher and the scenarios never wait for each other: short of the end some
  // step is possible, whatever else has happened.
  lemma NeverStuck(c: Config, run: seq<State>, i: nat)
    requires IsRun(c, run) && i < |run| && c.rate > 0 && run[i].main != Ended
    ensures exists a :: Enabled(c, run[i], a)
  {
    var s := run[i];
    RunKeepsInv(c, run, i);
    if Live(s) != {} {
      var p :| p in Live(s);
      LiveHasSlot(c, s, p);
      match s.workers[p]
      case Working(_) => assert Enabled(c, s, Finish(p, false));
      case Flushing(buffer, k) =>
        if k < |buffer| { assert Enabled(c, s, Show(p)); } else { assert Enabled(c, s, Release(p)); }
    } else {
      DispatcherMoves(c, s);
    }
  }

  lemma LiveHasSlot(c: Config, s: State, p: nat)
    requires SlotsCount(c, s) && p in Live(s)
    ensures s.slots > 0
  {
    SubsetCardinality({p}, Live(s));
  }

  lemma DispatcherMoves(c: Config, s: State)
    requires Inv(c, s) && Live(s) == {} && c.rate > 0 && s.main != Ended
    ensures exists a :: Enabled(c, s, a)
  {
    match s.main
    case Reserving =>
      if s.next < c.count { assert Enabled(c, s, Reserve); } else { assert Enabled(c, s, StartDraining); }
    case Announcing => assert Enabled(c, s, Announce);
    case Spawning => assert Enabled(c, s, Spawn);
    case Draining(k) =>
      if k < c.rate { assert Enabled(c, s, Drain); } else { assert Enabled(c, s, EndDraining); }
    case AfterSuite => assert Enabled(c, s, RunAfterSuite);
    case Summarising => assert Enabled(c, s, Summarise);
  }
}
