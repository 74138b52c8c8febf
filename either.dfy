/** The small either<Error, T> combinator that the unique_error tests build:
    a unique_error_condition slot and a payload, the either_ok / either_fail
    tags it is made from, `ifok`, and the allocation helpers chained with it.
    Error is always unique_error_condition here, held by value, so its slot is
    a Lifecycle.ErrorState. */
module Eithers {
  import opened ErrorTraits
  import opened Lifecycle

  /** A std::unique_ptr as the model sees it: empty, or owning the allocation
      identified by `handle`. */
  datatype Ptr = Null | Owned(handle: nat)

  /** either_ok<T> (`ok(t)`) and either_fail<Error> (`fail(e)`). */
  datatype Tag<T> = OkTag(payload: T) | FailTag(error: ErrorState<ErrorCondition>)

  /** either<unique_error_condition, T>: the error slot `e` and the payload `t`. */
  datatype Either<T> = Either(e: ErrorState<ErrorCondition>, t: T)

  /** What `if (e)` answers: the slot holds an error. */
  predicate Failed<T>(m: Either<T>) {
    !ConditionTraits().ok(m.e.value)
  }

  /** fail(e) for an lvalue `e`: the tag holds a copy, Unchecked. */
  function Fail<T>(e: ErrorState<ErrorCondition>): (r: Tag<T>)
    ensures r.FailTag? && r.error.value == e.value && !MayDiscard(r.error)
  {
    FailTag(CopyOf(e))
  }

  /** `either() = default`: a default slot and `empty`, the payload's T{}. */
  function DefaultEither<T>(empty: T): (r: Either<T>)
    ensures !Failed(r) && MayDiscard(r.e) && r.t == empty
  {
    Either(Initial(ConditionTraits()), empty)
  }

  /** The converting constructors either(either_ok<T>&&) and
      either(either_fail<Error>&&); `empty` is the payload's T{}. */
  function FromTag<T>(tag: Tag<T>, empty: T): (r: Either<T>)
    ensures tag.OkTag? ==> r.t == tag.payload && r.e == Initial(ConditionTraits()) && !Failed(r)
    ensures tag.FailTag? ==> r.t == empty && r.e == ErrorState(tag.error.value, Unchecked)
    ensures tag.FailTag? ==> (Failed(r) <==> !ConditionTraits().ok(tag.error.value))
  {
    match tag
    case OkTag(payload) => Either(Initial(ConditionTraits()), payload)
    case FailTag(error) => Either(MoveConstruct(ConditionTraits(), error).0, empty)
  }

  /** `either& operator=(either o)`: moves o's slot and payload in without
      looking at the target's slot, whatever its disposition. */
  function AssignEither<T>(target: Either<T>, source: Either<T>): (r: Either<T>)
    ensures r.t == source.t
    ensures r.e == ErrorState(source.e.value, Unchecked) && !MayDiscard(r.e)
  {
    Either(MoveConstruct(ConditionTraits(), source.e).0, source.t)
  }

  /** What an `ifok` call produces: its result, and the source's slot as the
      call leaves it. */
  datatype Chained<U> = Chained(sourceError: ErrorState<ErrorCondition>, result: Either<U>)

  /** ifok(f): `if (e) return fail(e);` then `return f(std::move(t));`.
      `empty` is U{} for the failure branch. */
  function IfOk<T, U>(m: Either<T>, f: T -> Either<U>, empty: U): (r: Chained<U>)
    ensures r.sourceError == ErrorState(m.e.value, Checked) && MayDiscard(r.sourceError)
    ensures Failed(m) ==> r.result == Either(ErrorState(m.e.value, Unchecked), empty) && Failed(r.result)
    ensures !Failed(m) ==> r.result == f(m.t)
  {
    var (failed, checked) := Test(ConditionTraits(), m.e);
    if failed then Chained(checked, FromTag(Fail(checked), empty))
    else Chained(checked, f(m.t))
  }

  /** ifok(f) of either<Error, void>: the continuation takes nothing. */
  function IfOkVoid(m: Either<()>, f: () -> Either<()>): (r: Chained<()>)
    ensures r.sourceError == ErrorState(m.e.value, Checked) && MayDiscard(r.sourceError)
    ensures Failed(m) ==> r.result == Either(ErrorState(m.e.value, Unchecked), ())
    ensures !Failed(m) ==> r.result == f()
  {
    var (failed, checked) := Test(ConditionTraits(), m.e);
    if failed then Chained(checked, FromTag(Fail(checked), ()))
    else Chained(checked, f())
  }

  /** check_unique_ptr(p): not_enough_memory (Initiated) for a null pointer,
      otherwise a default unique_error_condition. */
  function CheckUniquePtr(p: Ptr): (r: ErrorState<ErrorCondition>)
    ensures p.Null? <==> !ConditionTraits().ok(r.value)
    ensures p.Null? ==> r == FromValue(NotEnoughMemory)
    ensures p.Owned? ==> r == Initial(ConditionTraits())
    ensures MayDiscard(r)
  {
    if p.Null? then FromValue(NotEnoughMemory) else Initial(ConditionTraits())
  }

  /** make_unique_or_error_condition<T>(): `allocation` is what
      make_unique_nothrow returned. Its local `ge` is tested with `if (ge)`,
      so destroying it on return is safe. */
  function MakeUniqueOrErrorCondition(allocation: Ptr): (r: Either<Ptr>)
    ensures Failed(r) <==> allocation.Null?
    ensures allocation.Null? ==> r == Either(ErrorState(NotEnoughMemory, Unchecked), Null)
    ensures allocation.Owned? ==> r == Either(Initial(ConditionTraits()), allocation)
  {
    var ge := CheckUniquePtr(allocation);
    var (failed, checked) := Test(ConditionTraits(), ge);
    assert MayDiscard(checked);
    if failed then FromTag(Fail(checked), Null) else FromTag(OkTag(allocation), Null)
  }

  /** Create2: allocate a Foo, and only if that worked a Bar, then pair them.
      `fooAllocation` and `barAllocation` are the outcomes of the two
      make_unique_nothrow calls. */
  function Create2(fooAllocation: Ptr, barAllocation: Ptr): (r: Either<(Ptr, Ptr)>)
    ensures fooAllocation.Null? ==> r == Either(ErrorState(NotEnoughMemory, Unchecked), (Null, Null))
    ensures fooAllocation.Owned? && barAllocation.Null? ==> r == Either(ErrorState(NotEnoughMemory, Unchecked), (Null, Null))
    ensures fooAllocation.Owned? && barAllocation.Owned? ==> r == Either(Initial(ConditionTraits()), (fooAllocation, barAllocation))
    ensures Failed(r) <==> fooAllocation.Null? || barAllocation.Null?
  {
    IfOk(MakeUniqueOrErrorCondition(fooAllocation),
         (foo: Ptr) =>
           IfOk(MakeUniqueOrErrorCondition(barAllocation),
                (bar: Ptr) => FromTag(OkTag((foo, bar)), (Null, Null)),
                (Null, Null)).result,
         (Null, Null)).result
  }

  /** When the Foo allocation fails, the outcome of the Bar allocation cannot
      influence the result: the second step is never run. */
  lemma Create2SkipsSecondStep(barAllocation: Ptr, otherBarAllocation: Ptr)
    ensures Create2(Null, barAllocation) == Create2(Null, otherBarAllocation)
    ensures Failed(Create2(Null, barAllocation))
  {
  }

  /** The continuation of create2_test: it gets the pair and returns ok(). */
  function UseBoth(foobar: (Ptr, Ptr)): (r: Either<()>)
    ensures !Failed(r) && MayDiscard(r.e)
  {
    FromTag(OkTag(()), ())
  }

  /** create2_test, when both allocations succeed: Create2's payload holds two
      set pointers, the continuation runs and its result is returned, and the
      error released from that result is ok. */
  lemma Create2TestPasses(fooAllocation: Ptr, barAllocation: Ptr)
    requires fooAllocation.Owned? && barAllocation.Owned?
    ensures var created := Create2(fooAllocation, barAllocation);
            && !Failed(created)
            && created.t.0.Owned? && created.t.1.Owned?
            && IfOk(created, UseBoth, ()).result == UseBoth(created.t)
            && ConditionTraits().ok(Release(ConditionTraits(), IfOk(created, UseBoth, ()).result.e).0)
  {
  }

  /** Several ifok steps of one payload type applied in turn. */
  function Chain<T>(m: Either<T>, steps: seq<T -> Either<T>>, empty: T): (r: Either<T>)
    ensures steps == [] ==> r == m
    ensures Failed(m) && steps != [] ==> Failed(r) && r.t == empty
    decreases |steps|
  {
    if steps == [] then m else Chain(IfOk(m, steps[0], empty).result, steps[1..], empty)
  }

  /** Chaining is associative: a chain of `first + second` is the chain of
      `second` applied to the result of `first`. */
  lemma {:induction false} ChainAppend<T>(m: Either<T>, first: seq<T -> Either<T>>, second: seq<T -> Either<T>>, empty: T)
    ensures Chain(m, first + second, empty) == Chain(Chain(m, first, empty), second, empty)
    decreases |first|
  {
    if first == [] {
      assert first + second == second;
    } else {
      assert (first + second)[0] == first[0];
      assert (first + second)[1..] == first[1..] + second;
      ChainAppend(IfOk(m, first[0], empty).result, first[1..], second, empty);
    }
  }

  /** A failure passes through any number of further steps with its error
      value unchanged and none of those steps run. */
  lemma {:induction false} ChainPropagatesFailure<T>(m: Either<T>, steps: seq<T -> Either<T>>, empty: T)
    requires Failed(m) && steps != []
    ensures Chain(m, steps, empty) == Either(ErrorState(m.e.value, Unchecked), empty)
    decreases |steps|
  {
    var next := IfOk(m, steps[0], empty).result;
    if |steps| > 1 {
      ChainPropagatesFailure(next, steps[1..], empty);
    } else {
      assert steps[1..] == [];
    }
  }

  /** If the chain has failed after its first k steps, the whole chain
      carries that failure: the remaining steps are skipped. */
  lemma ChainStopsAtFailure<T>(m: Either<T>, steps: seq<T -> Either<T>>, k: nat, empty: T)
    requires k < |steps| && Failed(Chain(m, steps[..k], empty))
    ensures Chain(m, steps, empty) == Either(ErrorState(Chain(m, steps[..k], empty).e.value, Unchecked), empty)
  {
    assert steps == steps[..k] + steps[k..];
    ChainAppend(m, steps[..k], steps[k..], empty);
    ChainPropagatesFailure(Chain(m, steps[..k], empty), steps[k..], empty);
  }

  /** If the chain is still ok after its first k steps, step k receives that
      payload and the chain up to it returns exactly what step k returns. */
  lemma ChainThreadsPayload<T>(m: Either<T>, steps: seq<T -> Either<T>>, k: nat, empty: T)
    requires k < |steps| && !Failed(Chain(m, steps[..k], empty))
    ensures Chain(m, steps[..k + 1], empty) == steps[k](Chain(m, steps[..k], empty).t)
  {
    assert steps[..k + 1] == steps[..k] + [steps[k]];
    ChainAppend(m, steps[..k], [steps[k]], empty);
    var mid := Chain(m, steps[..k], empty);
    assert Chain(mid, [steps[k]], empty) == Chain(IfOk(mid, steps[k], empty).result, [], empty);
  }
}
