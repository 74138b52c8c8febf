/** The imperative half of tests/unique_error_tests.cpp: Create1, which
    reassigns one unique_error_condition step by step, and the unit tests,
    each written as a method whose out-parameters are the outcomes of its
    CHECKs in order. A CHECK_THROW(ge.reset(...), fail_fast) is the
    observation that the guard of reset(raw) fires, i.e. that `ge` is
    Unchecked; in the throwing test build the reset then does nothing. */
module UniqueErrorTests {
  import opened ErrorTraits
  import opened Lifecycle
  import opened UniqueErrors
  import opened Eithers

  /** The allocator behind make_unique_nothrow: any attempt may fail, and
      attempts are counted. */
  class Heap {
    var attempts: nat

    constructor ()
      ensures attempts == 0
    {
      attempts := 0;
    }

    /** make_unique_nothrow<T>(): an owning pointer to a new object, or null. */
    method MakeUniqueNothrow() returns (p: Ptr)
      modifies this
      ensures attempts == old(attempts) + 1
      ensures p.Owned? ==> p.handle == old(attempts)
    {
      var succeeded: bool :| true;
      p := if succeeded then Owned(attempts) else Null;
      attempts := attempts + 1;
    }
  }

  /** check_unique_ptr(p), returning the object the caller then owns. */
  method NewCheckUniquePtr(p: Ptr) returns (ge: UniqueError<ErrorCondition>)
    ensures fresh(ge) && ge.traits == ConditionTraits()
    ensures ge.State() == CheckUniquePtr(p)
  {
    if p.Null? {
      ge := new UniqueError.FromRaw(ConditionTraits(), NotEnoughMemory);
    } else {
      ge := new UniqueError(ConditionTraits());
    }
  }

  /** okcall(): a default unique_error_condition. */
  method OkCall() returns (ge: UniqueError<ErrorCondition>)
    ensures fresh(ge) && ge.traits == ConditionTraits()
    ensures ge.State() == Initial(ConditionTraits())
  {
    ge := new UniqueError(ConditionTraits());
  }

  /** failcall(): a unique_error_condition built from invalid_argument. */
  method FailCall() returns (ge: UniqueError<ErrorCondition>)
    ensures fresh(ge) && ge.traits == ConditionTraits()
    ensures ge.State() == FromValue(InvalidArgument)
  {
    ge := new UniqueError.FromRaw(ConditionTraits(), InvalidArgument);
  }

  /** okApiCall(): a plain error_condition meaning success. */
  function OkApiCall(): (r: ErrorCondition)
    ensures ConditionTraits().ok(r) && r == ErrorCondition(0, GenericCategory)
  {
    ConditionTraits().initiate
  }

  /** failApiCall(): a plain invalid_argument error_condition. */
  function FailApiCall(): (r: ErrorCondition)
    ensures !ConditionTraits().ok(r)
  {
    InvalidArgument
  }

  /** `ge = expr` where expr yields a temporary unique_error: move assignment,
      then the temporary, left Defaulted, is destroyed. */
  method AssignTemporary(ge: UniqueError<ErrorCondition>, temporary: UniqueError<ErrorCondition>)
    requires temporary != ge && temporary.traits == ge.traits
    modifies ge, temporary
    ensures ge.State() == CopyOf(old(temporary.State()))
  {
    ge.MoveAssign(temporary);
    temporary.Destroy();
  }

  /** The `result` lambda of Create1: moves `ge` into the returned tuple,
      whose element is Unchecked; the local is then destroyed. */
  method HandOff(local: UniqueError<ErrorCondition>) returns (ge: UniqueError<ErrorCondition>)
    modifies local
    ensures fresh(ge) && ge.traits == local.traits
    ensures ge.State() == ErrorState(old(local.value), Unchecked)
  {
    ge := new UniqueError.Move(local);
    local.Destroy();
  }

  /** Create1: allocates a Foo, checks it, and only then allocates a Bar.
      Every reassignment of `ge` follows an `if (ge)`, so it never fails fast;
      the caller receives the error Unchecked. */
  method Create1(heap: Heap) returns (ge: UniqueError<ErrorCondition>, foo: Ptr, bar: Ptr)
    modifies heap
    ensures fresh(ge) && ge.traits == ConditionTraits()
    ensures ge.disposition == Unchecked
    ensures ge.value == if foo.Owned? && bar.Owned? then ConditionTraits().initiate else NotEnoughMemory
    ensures foo.Null? ==> bar.Null? && heap.attempts == old(heap.attempts) + 1
    ensures foo.Owned? ==> heap.attempts == old(heap.attempts) + 2
  {
    var local := new UniqueError(ConditionTraits());
    bar := Null;

    foo := heap.MakeUniqueNothrow();
    var checked := NewCheckUniquePtr(foo);
    AssignTemporary(local, checked);
    var failed := local.HoldsError();
    if failed {
      ge := HandOff(local);
      return;
    }

    bar := heap.MakeUniqueNothrow();
    checked := NewCheckUniquePtr(bar);
    AssignTemporary(local, checked);
    failed := local.HoldsError();
    if failed {
      ge := HandOff(local);
      return;
    }

    ge := HandOff(local);
  }

  /** create1_test: CHECK(try_ok()), then, when `!ge`, CHECK(!!foo) and
      CHECK(!!bar). Whenever Create1 reports success both pointers are set,
      and the returned error, tested by `!ge`, is safe to destroy. */
  method Create1Test(heap: Heap) returns (tryOk: bool, fooSet: bool, barSet: bool)
    modifies heap
    ensures tryOk <==> fooSet && barSet
  {
    var ge, foo, bar := Create1(heap);
    tryOk := ge.TryOk();
    var failed := ge.HoldsError();
    fooSet, barSet := false, false;
    if !failed {
      fooSet := foo.Owned?;
      barSet := bar.Owned?;
    }
    ge.Destroy();
  }

  /** error_ge_basic_test: a default object is ok and safe to destroy. */
  method ErrorGeBasicTest() returns (checks: seq<bool>)
    ensures checks == [true]
  {
    var ge := new UniqueError(ConditionTraits());
    checks := [ge.TryOk()];
    ge.Destroy();
  }

  /** error_ge_missing_ok_test: a second reset of an unchecked success value
      fails fast; release() makes the object safe to destroy. */
  method ErrorGeMissingOkTest() returns (checks: seq<bool>)
    ensures checks == [true]
  {
    var ge := new UniqueError(ConditionTraits());
    ge.ResetWith(OkApiCall());
    checks := [ge.disposition == Unchecked];
    var released := ge.Release();
    ge.Destroy();
  }

  /** error_ge_missing_fail_test: an object built from an error may be reset
      once; a second reset before a check fails fast. */
  method ErrorGeMissingFailTest() returns (checks: seq<bool>)
    ensures checks == [true, true, true]
  {
    var ge := new UniqueError.FromRaw(ConditionTraits(), InvalidArgument);
    checks := [!ge.TryOk()];
    ge.ResetWith(FailApiCall());
    checks := checks + [!ge.TryOk()];
    checks := checks + [ge.disposition == Unchecked];
    var released := ge.Release();
    ge.Destroy();
  }

  /** error_ge_long_test: operator bool, release() and ok() each make the
      object safe again; every assignment makes it unsafe again. */
  method ErrorGeLongTest() returns (checks: seq<bool>)
    ensures checks == [true, true, true, true, true, true, true, true, true, true, true, true]
  {
    var ge := new UniqueError(ConditionTraits());
    var defaultOk := ge.TryOk();
    ge.ResetWith(OkApiCall());
    var resetOk := ge.TryOk();
    var firstThrow := ge.disposition == Unchecked;
    var failed := ge.HoldsError();

    var temporary := OkCall();
    AssignTemporary(ge, temporary);
    var okCallOk, okCallValue := ge.TryOk(), ge.Get() == ErrorCondition(0, GenericCategory);
    var secondThrow := ge.disposition == Unchecked;
    var released := ge.Release();

    temporary := FailCall();
    AssignTemporary(ge, temporary);
    var failCallFailed, failCallValue := !ge.TryOk(), ge.Get() == InvalidArgument;
    var thirdThrow := ge.disposition == Unchecked;
    released := ge.Release();

    ge.Reset();
    var clearedOk := ge.TryOk();

    temporary := new UniqueError.FromRaw(ConditionTraits(), NotEnoughMemory);
    AssignTemporary(ge, temporary);
    var assignedFailed := !ge.TryOk();
    var fourthThrow := ge.disposition == Unchecked;
    var succeeded := ge.Ok();
    ge.Destroy();

    checks := [defaultOk, resetOk, firstThrow, okCallOk, okCallValue, secondThrow,
               failCallFailed, failCallValue, thirdThrow, clearedOk,
               assignedFailed, fourthThrow];
  }
}
