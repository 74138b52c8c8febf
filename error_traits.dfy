/** The error representations a unique_error can guard, and error_traits<E>,
    which says for each of them what the initial value is and which values
    mean success. */
module ErrorTraits {

  /** error_traits<E>: `initiate` is the value a fresh or cleared unique_error
      holds, `ok` tells success from failure. */
  datatype Traits<!E> = Traits(initiate: E, ok: E -> bool) {

    /** What every usable specialization promises: the initial value means success. */
    predicate Lawful() {
      ok(initiate)
    }
  }

  /** The error category of a std::error_condition or std::error_code. */
  datatype Category = GenericCategory | SystemCategory

  /** std::error_condition: an integer value within a category; value 0 means "no error". */
  datatype ErrorCondition = ErrorCondition(code: int, category: Category)

  /** std::error_code: the same shape, defaulting to the system category. */
  datatype ErrorCode = ErrorCode(code: int, category: Category)

  /** std::errc::not_enough_memory (ENOMEM) as an error condition. */
  const NotEnoughMemory: ErrorCondition := ErrorCondition(12, GenericCategory)

  /** std::errc::invalid_argument (EINVAL) as an error condition. */
  const InvalidArgument: ErrorCondition := ErrorCondition(22, GenericCategory)

  /** `explicit operator bool` of std::error_condition: an error is held. */
  predicate ConditionRaised(e: ErrorCondition) {
    e.code != 0
  }

  /** `explicit operator bool` of std::error_code. */
  predicate CodeRaised(e: ErrorCode) {
    e.code != 0
  }

  /** error_traits<std::error_condition>: starts as error_condition{}, ok iff `!e`. */
  function ConditionTraits(): (t: Traits<ErrorCondition>)
    ensures t.Lawful()
    ensures forall e :: t.ok(e) <==> e.code == 0
  {
    Traits(ErrorCondition(0, GenericCategory), e => !ConditionRaised(e))
  }

  /** error_traits<std::error_code>: starts as error_code{}, ok iff `!e`. */
  function CodeTraits(): (t: Traits<ErrorCode>)
    ensures t.Lawful()
    ensures forall e :: t.ok(e) <==> e.code == 0
  {
    Traits(ErrorCode(0, SystemCategory), e => !CodeRaised(e))
  }

  /** The primary template error_traits<T> as written: `initiate()` is the
      value-initialised T{} and `ok(e)` is `!!e`, i.e. "e converts to true". */
  function GenericTraits<T(!new)>(valueInitialised: T, truthy: T -> bool): (t: Traits<T>)
    ensures t.initiate == valueInitialised
    ensures forall e :: t.ok(e) <==> truthy(e)
    ensures t.Lawful() <==> truthy(valueInitialised)
  {
    Traits(valueInitialised, truthy)
  }

  /** error_traits<bool> through the primary template (bool is not among the
      integral types it deletes): the initial value `false` is not ok, so a
      default-constructed unique_error<bool> already reports failure. */
  lemma GenericTraitsRejectTheirInitialValue()
    ensures !GenericTraits(false, (b: bool) => b).Lawful()
  {
  }

  /** The primary template with the test both specializations use, `ok(e) == !e`:
      lawful for every T whose value-initialised T{} converts to false. */
  function CorrectedGenericTraits<T(!new)>(valueInitialised: T, truthy: T -> bool): (t: Traits<T>)
    ensures !truthy(valueInitialised) ==> t.Lawful()
    ensures t.initiate == valueInitialised
    ensures forall e :: t.ok(e) <==> !truthy(e)
  {
    Traits(valueInitialised, e => !truthy(e))
  }
}
