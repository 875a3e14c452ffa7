// suite.go and testingt.go: error values, what errors.Is sees of them, and which of
// them fail a scenario. Texts are left out; only the identity of an error matters.
module Errors {
  import opened Ids

  datatype Kind = Undefined | Pending | Skip | Ambiguous | StopNow

  // Opaque stands for any error without one of the five identities: a user's error,
  // a recovered panic, or one whose chain was cut by formatting it as text.
  datatype Error =
    | Sentinel(kind: Kind)
    | Opaque
    | Wrapped(inner: Error)
    | Joined(first: Error, second: Error)

  // nil is None.
  type Err = Option<Error>

  predicate Has(e: Error, kind: Kind) {
    match e
    case Sentinel(k) => k == kind
    case Opaque => false
    case Wrapped(inner) => Has(inner, kind)
    case Joined(a, b) => Has(a, kind) || Has(b, kind)
  }

  // errors.Is(err, kind).
  predicate Is(err: Err, kind: Kind) {
    err.Some? && Has(err.value, kind)
  }

  function MergeErrors(err1: Err, err2: Err): (r: Err)
    ensures r.None? <==> err1.None? && err2.None?
    ensures forall kind :: Is(r, kind) <==> Is(err1, kind) || Is(err2, kind)
  {
    if err1.None? then err2 else if err2.None? then err1 else Some(Joined(err1.value, err2.value))
  }

  function Wrap(err: Err): (r: Err)
    ensures r.None? <==> err.None?
    ensures forall kind :: Is(r, kind) <==> Is(err, kind)
  {
    if err.None? then None else Some(Wrapped(err.value))
  }

  predicate ShouldFail(strict: bool, err: Err) {
    if err.None? || Is(err, Skip) then false
    else if Is(err, Undefined) || Is(err, Pending) then strict
    else true
  }

  // An error that shouldFail lets pass, and that makes every error it is merged with pass.
  predicate Forgiven(strict: bool, err: Err) {
    err.Some? && !ShouldFail(strict, err)
  }

  lemma MergeFails(strict: bool, err1: Err, err2: Err)
    ensures ShouldFail(strict, MergeErrors(err1, err2)) <==>
      (err1.Some? || err2.Some?) && !Forgiven(strict, err1) && !Forgiven(strict, err2)
  {
  }

  // What the scenario's own TestingT has recorded.
  datatype TestState = TestState(skipped: bool, failed: bool)

  function IsFailed(t: TestState): Err {
    if t.skipped then Some(Sentinel(Skip)) else if t.failed then Some(Opaque) else None
  }

  datatype Panic = Panic(err: Err)

  // The value of the named result err once the deferred function has recovered.
  function Recovered(err: Err, panic: Option<Panic>): Err {
    if panic.None? then err
    else if Is(panic.value.err, StopNow) then None
    else Some(Opaque)
  }

  datatype Status = Passed | Failed | Skipped | UndefinedStep | PendingStep | AmbiguousStep

  // The status the after-step hooks are told.
  function StatusOf(err: Err, scenarioErr: Err): Status {
    if Is(err, Ambiguous) then AmbiguousStep
    else if Is(err, Pending) then PendingStep
    else if Is(err, Skip) || (err.None? && scenarioErr.Some?) then Skipped
    else if Is(err, Undefined) then UndefinedStep
    else if err.Some? then Failed
    else Passed
  }

  // The status stored and shown once all hooks have run.
  function ResultOf(err: Err): Status {
    if err.None? then Passed
    else if Is(err, Pending) then PendingStep
    else if Is(err, Skip) then Skipped
    else if Is(err, Ambiguous) then AmbiguousStep
    else Failed
  }
}
