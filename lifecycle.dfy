/** The disposition state machine of gsl::unique_error, stated on values: the
    two data members of a unique_error and what each operation makes of them.
    The class in UniqueErrors is proved against these functions, and the
    either combinator, which stores its unique_error by value, uses them
    directly. */
module Lifecycle {
  import opened ErrorTraits

  /** details::Disposition without its Invalid and End sentinels, which no
      unique_error ever holds. */
  datatype Disposition = Initiated | Defaulted | Released | Checked | Unchecked

  /** The state of one unique_error: the held error and how it has been dealt with. */
  datatype ErrorState<E> = ErrorState(value: E, disposition: Disposition)

  /** The guard of reset(raw), which reset() and the destructor reach too: only
      an Unchecked value may not be overwritten or destroyed. */
  predicate MayDiscard<E>(s: ErrorState<E>) {
    s.disposition != Unchecked
  }

  /** unique_error(): the traits' initial value, nothing to check. */
  function Initial<E>(traits: Traits<E>): (r: ErrorState<E>)
    ensures r.value == traits.initiate && MayDiscard(r)
    ensures traits.Lawful() ==> traits.ok(r.value)
  {
    ErrorState(traits.initiate, Defaulted)
  }

  /** unique_error(const type&) and unique_error(type&&): a raw error taken in as it is. */
  function FromValue<E>(raw: E): (r: ErrorState<E>)
    ensures r.value == raw && MayDiscard(r)
  {
    ErrorState(raw, Initiated)
  }

  /** reset(raw): past the guard, the new value is one nobody has looked at. */
  function ResetWith<E>(s: ErrorState<E>, raw: E): (r: ErrorState<E>)
    requires MayDiscard(s)
    ensures r.value == raw && !MayDiscard(r)
  {
    ErrorState(raw, Unchecked)
  }

  /** reset(): reset(initiate()), then marked Defaulted. */
  function Reset<E>(traits: Traits<E>, s: ErrorState<E>): (r: ErrorState<E>)
    requires MayDiscard(s)
    ensures r == Initial(traits) && MayDiscard(r)
    ensures traits.Lawful() ==> traits.ok(r.value)
  {
    ResetWith(s, traits.initiate).(disposition := Defaulted)
  }

  /** release(): marks the value Released, takes a copy of it and clears through reset(). */
  function Release<E>(traits: Traits<E>, s: ErrorState<E>): (r: (E, ErrorState<E>))
    ensures r.0 == s.value
    ensures r.1 == Initial(traits) && MayDiscard(r.1)
  {
    var marked := s.(disposition := Released);
    (marked.value, Reset(traits, marked))
  }

  /** ok(): a const member that still marks the value Checked. */
  function Check<E>(traits: Traits<E>, s: ErrorState<E>): (r: (bool, ErrorState<E>))
    ensures r.0 <==> traits.ok(s.value)
    ensures r.1.value == s.value && r.1.disposition == Checked && MayDiscard(r.1)
  {
    (traits.ok(s.value), s.(disposition := Checked))
  }

  /** `explicit operator bool`: `!ok()`, so testing the object checks it. */
  function Test<E>(traits: Traits<E>, s: ErrorState<E>): (r: (bool, ErrorState<E>))
    ensures r.0 <==> !traits.ok(s.value)
    ensures r.1.value == s.value && r.1.disposition == Checked && MayDiscard(r.1)
  {
    var (succeeded, checked) := Check(traits, s);
    (!succeeded, checked)
  }

  /** unique_error(const unique_error&), and the target side of both assignments
      as far as the source's value goes: the new owner has not looked at it. */
  function CopyOf<E>(source: ErrorState<E>): (r: ErrorState<E>)
    ensures r.value == source.value && !MayDiscard(r)
  {
    ErrorState(source.value, Unchecked)
  }

  /** swap(): the two objects exchange value and disposition, so an
      obligation to check travels with the value. The result is (this, other). */
  function Swap<E>(s: ErrorState<E>, other: ErrorState<E>): (r: (ErrorState<E>, ErrorState<E>))
    ensures r.0 == other && r.1 == s
    ensures MayDiscard(r.0) <==> MayDiscard(other)
  {
    (other, s)
  }

  /** unique_error(unique_error&&): the value comes out of source.release();
      the result is (new object, what is left of the source). */
  function MoveConstruct<E>(traits: Traits<E>, source: ErrorState<E>): (r: (ErrorState<E>, ErrorState<E>))
    ensures r.0 == CopyOf(source) && !MayDiscard(r.0)
    ensures r.1 == Initial(traits)
  {
    var (taken, rest) := Release(traits, source);
    (ErrorState(taken, Unchecked), rest)
  }

  /** One call a client makes on a unique_error. `Peek` stands for get(),
      try_ok(), the comparison operators and being copied from; `AssignFrom`
      for copy or move assignment from an object holding `source`; `SwapWith`
      for swap() with an object in state `other`. Being moved from is a
      release(). */
  datatype Op<E> =
    | ResetOp
    | ResetWithOp(raw: E)
    | ReleaseOp
    | OkOp
    | BoolOp
    | PeekOp
    | AssignFromOp(source: E)
    | SwapWithOp(other: ErrorState<E>)

  /** A call either fails fast or leaves the object in a new state. */
  datatype Outcome<E> = Aborted | Running(state: ErrorState<E>)

  /** The effect of one call. */
  function Step<E>(traits: Traits<E>, s: ErrorState<E>, op: Op<E>): (r: Outcome<E>)
    ensures r.Aborted? <==> (op.ResetOp? || op.ResetWithOp?) && s.disposition == Unchecked
    ensures r.Running? && op.PeekOp? ==> r.state == s
  {
    match op
    case ResetOp => if MayDiscard(s) then Running(Reset(traits, s)) else Aborted
    case ResetWithOp(raw) => if MayDiscard(s) then Running(ResetWith(s, raw)) else Aborted
    case ReleaseOp => Running(Release(traits, s).1)
    case OkOp => Running(Check(traits, s).1)
    case BoolOp => Running(Test(traits, s).1)
    case PeekOp => Running(s)
    case AssignFromOp(source) => Running(ErrorState(source, Unchecked))
    case SwapWithOp(other) => Running(Swap(s, other).0)
  }

  /** The effect of a sequence of calls; the first abort ends it. */
  function Run<E>(traits: Traits<E>, s: ErrorState<E>, ops: seq<Op<E>>): Outcome<E>
    decreases |ops|
  {
    if ops == [] then Running(s)
    else match Step(traits, s, ops[0])
      case Aborted => Aborted
      case Running(next) => Run(traits, next, ops[1..])
  }

  /** Calls that neither inspect nor dispose of the value. */
  predicate Unguarded<E>(op: Op<E>) {
    op.PeekOp? || op.AssignFromOp?
  }

  /** Running `first` and then `second` is running their concatenation. */
  lemma {:induction false} RunAppend<E>(traits: Traits<E>, s: ErrorState<E>, first: seq<Op<E>>, second: seq<Op<E>>)
    ensures Run(traits, s, first + second) ==
            match Run(traits, s, first)
            case Aborted => Aborted
            case Running(mid) => Run(traits, mid, second)
    decreases |first|
  {
    if first == [] {
      assert first + second == second;
    } else {
      assert (first + second)[0] == first[0];
      assert (first + second)[1..] == first[1..] + second;
      match Step(traits, s, first[0])
      case Aborted =>
      case Running(next) => RunAppend(traits, next, first[1..], second);
    }
  }

  /** Reads and assignments never abort, and an Unchecked value stays
      Unchecked through any number of them. */
  lemma {:induction false} UncheckedSurvivesUnguardedCalls<E>(traits: Traits<E>, s: ErrorState<E>, ops: seq<Op<E>>)
    requires s.disposition == Unchecked
    requires forall i :: 0 <= i < |ops| ==> Unguarded(ops[i])
    ensures Run(traits, s, ops).Running? && Run(traits, s, ops).state.disposition == Unchecked
    decreases |ops|
  {
    if ops != [] {
      assert Unguarded(ops[0]);
      var next := Step(traits, s, ops[0]).state;
      UncheckedSurvivesUnguardedCalls(traits, next, ops[1..]);
    }
  }

  /** The calls that can free an Unchecked value of its obligation: ok(),
      operator bool and release(), which look at it or give it up, and a
      swap() with an object that is not Unchecked, which takes it away. */
  predicate Discharges<E>(op: Op<E>) {
    op.OkOp? || op.BoolOp? || op.ReleaseOp? || (op.SwapWithOp? && MayDiscard(op.other))
  }

  /** From an Unchecked value, calls none of which discharges it either fail
      fast or leave it Unchecked. */
  lemma {:induction false} UncheckedUntilDischarged<E>(traits: Traits<E>, s: ErrorState<E>, ops: seq<Op<E>>)
    requires s.disposition == Unchecked
    requires forall i :: 0 <= i < |ops| ==> !Discharges(ops[i])
    ensures Run(traits, s, ops).Running? ==> Run(traits, s, ops).state.disposition == Unchecked
    decreases |ops|
  {
    if ops != [] {
      assert !Discharges(ops[0]);
      match Step(traits, s, ops[0])
      case Aborted =>
      case Running(next) => UncheckedUntilDischarged(traits, next, ops[1..]);
    }
  }

  /** After reset(raw), a second reset(raw) fails fast unless an ok(),
      operator bool, release() or a swap() with an object that is not
      Unchecked comes in between: reads, assignments and swaps with Unchecked
      objects keep the value Unchecked, and any reset among them already
      fails fast. */
  lemma SecondOverwriteFailsFast<E>(traits: Traits<E>, s: ErrorState<E>, raw: E, between: seq<Op<E>>, raw2: E)
    requires MayDiscard(s)
    requires forall i :: 0 <= i < |between| ==> !Discharges(between[i])
    ensures Run(traits, s, [ResetWithOp(raw)] + between + [ResetWithOp(raw2)]) == Aborted
  {
    var overwritten := ResetWith(s, raw);
    RunAppend(traits, s, [ResetWithOp(raw)] + between, [ResetWithOp(raw2)]);
    RunAppend(traits, s, [ResetWithOp(raw)], between);
    UncheckedUntilDischarged(traits, overwritten, between);
  }

  /** ok(), operator bool and release() each make any value safe to
      overwrite: the following reset(raw) always goes through. */
  lemma InspectionPermitsOverwrite<E>(traits: Traits<E>, s: ErrorState<E>, inspect: Op<E>, raw: E)
    requires inspect.OkOp? || inspect.BoolOp? || inspect.ReleaseOp?
    ensures Run(traits, s, [inspect, ResetWithOp(raw)]) == Running(ErrorState(raw, Unchecked))
  {
    var ops := [inspect, ResetWithOp(raw)];
    var inspected := Step(traits, s, inspect).state;
    assert MayDiscard(inspected);
    assert ops[1..] == [ResetWithOp(raw)] && [ResetWithOp(raw)][1..] == [];
    assert Run(traits, s, ops) == Run(traits, inspected, [ResetWithOp(raw)]);
    assert Run(traits, inspected, [ResetWithOp(raw)]) == Run(traits, ResetWith(inspected, raw), []);
  }

  /** swap() hands the obligation over: after reset(raw), a swap with an
      object that may be discarded lets the next reset(raw) through. */
  lemma SwapPassesObligationOn<E>(traits: Traits<E>, s: ErrorState<E>, raw: E, other: ErrorState<E>, raw2: E)
    requires MayDiscard(s) && MayDiscard(other)
    ensures Run(traits, s, [ResetWithOp(raw), SwapWithOp(other), ResetWithOp(raw2)]) == Running(ErrorState(raw2, Unchecked))
  {
    var ops := [ResetWithOp(raw), SwapWithOp(other), ResetWithOp(raw2)];
    assert ops[1..] == [SwapWithOp(other), ResetWithOp(raw2)];
    assert ops[1..][1..] == [ResetWithOp(raw2)] && [ResetWithOp(raw2)][1..] == [];
    assert Run(traits, s, ops) == Run(traits, ErrorState(raw, Unchecked), ops[1..]);
    assert Run(traits, ErrorState(raw, Unchecked), ops[1..]) == Run(traits, other, [ResetWithOp(raw2)]);
  }
}
