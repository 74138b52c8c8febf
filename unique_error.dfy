/** gsl::unique_error<Error>: an error value that must be inspected (or handed
    off) before it is overwritten or destroyed. Every operation changes the two
    fields step by step as the header does; each is proved to leave the state
    that the matching Lifecycle function describes. fail_fast is the
    precondition `disposition != Unchecked`. */
module UniqueErrors {
  import opened ErrorTraits
  import opened Lifecycle

  class UniqueError<E(==)> {
    /** The template argument's error_traits. */
    const traits: Traits<E>
    /** The held error. */
    var value: E
    /** How the held error has been dealt with; `mutable` in the header. */
    var disposition: Disposition

    /** The two fields as a value. */
    function State(): ErrorState<E>
      reads this
    {
      ErrorState(value, disposition)
    }

    /** get(): a copy of the held error, the one try_ok() judges; nothing is marked. */
    function Get(): (r: E)
      reads this
      ensures r == State().value
      ensures traits.ok(r) <==> TryOk()
    {
      value
    }

    /** try_ok(): the success test without marking the value Checked. */
    function TryOk(): (r: bool)
      reads this
      ensures r <==> Check(traits, State()).0
      ensures traits.Lawful() && State() == Initial(traits) ==> r
    {
      traits.ok(value)
    }

    /** unique_error(): initiate(), Defaulted. */
    constructor (traits: Traits<E>)
      ensures this.traits == traits
      ensures State() == Initial(traits)
    {
      this.traits := traits;
      value := traits.initiate;
      disposition := Defaulted;
    }

    /** The implicit conversions from a raw error: stored as given, Initiated. */
    constructor FromRaw(traits: Traits<E>, raw: E)
      ensures this.traits == traits
      ensures State() == FromValue(raw)
    {
      this.traits := traits;
      value := raw;
      disposition := Initiated;
    }

    /** unique_error(unique_error&&): takes `other.release()`, Unchecked;
        `other` is left Defaulted with initiate(). */
    constructor Move(other: UniqueError<E>)
      modifies other
      ensures traits == other.traits
      ensures State() == MoveConstruct(other.traits, old(other.State())).0
      ensures other.State() == MoveConstruct(other.traits, old(other.State())).1
    {
      traits := other.traits;
      var taken := other.Release();
      value := taken;
      disposition := Unchecked;
    }

    /** unique_error(const unique_error&): an equal value, Unchecked; `other` untouched. */
    constructor Copy(other: UniqueError<E>)
      ensures traits == other.traits
      ensures State() == CopyOf(other.State())
    {
      traits := other.traits;
      value := other.value;
      disposition := Unchecked;
    }

    /** swap(): exchanges both fields, and nothing else. */
    method Swap(other: UniqueError<E>)
      requires other.traits == traits
      modifies this, other
      ensures (State(), other.State()) == Lifecycle.Swap(old(State()), old(other.State()))
    {
      var v, d := value, disposition;
      value, disposition := other.value, other.disposition;
      other.value, other.disposition := v, d;
    }

    /** operator=(unique_error&&): never looks at this object's disposition;
        takes `other.release()` and becomes Unchecked. A self-move keeps the value. */
    method MoveAssign(other: UniqueError<E>)
      requires other.traits == traits
      modifies this, other
      ensures State() == CopyOf(old(other.State()))
      ensures other != this ==> other.State() == Initial(traits)
    {
      var taken := other.Release();
      value := taken;
      disposition := Unchecked;
    }

    /** operator=(const unique_error&): never looks at this object's
        disposition; copies the value and becomes Unchecked. */
    method CopyAssign(other: UniqueError<E>)
      requires other.traits == traits
      modifies this
      ensures State() == CopyOf(old(other.State()))
      ensures other != this ==> unchanged(other)
    {
      value := other.value;
      disposition := Unchecked;
    }

    /** `explicit operator bool`: `!ok()`, true when an error is held; marks Checked. */
    method HoldsError() returns (failed: bool)
      modifies this`disposition
      ensures (failed, State()) == Test(traits, old(State()))
    {
      var succeeded := Ok();
      failed := !succeeded;
    }

    /** reset(): reset(initiate()), then Defaulted. Fails fast on an Unchecked value. */
    method Reset()
      requires disposition != Unchecked
      modifies this
      ensures State() == Lifecycle.Reset(traits, old(State()))
    {
      ResetWith(traits.initiate);
      disposition := Defaulted;
    }

    /** reset(raw): the one guard. Fails fast on an Unchecked value; otherwise
        stores `raw`, Unchecked. */
    method ResetWith(raw: E)
      requires disposition != Unchecked
      modifies this
      ensures State() == Lifecycle.ResetWith(old(State()), raw)
    {
      value := raw;
      disposition := Unchecked;
    }

    /** release(): never fails fast; hands back the held error and leaves
        initiate(), Defaulted. */
    method Release() returns (result: E)
      modifies this
      ensures (result, State()) == Lifecycle.Release(traits, old(State()))
    {
      disposition := Released;
      result := value;
      Reset();
    }

    /** ok(): const, yet marks the value Checked; returns the success test. */
    method Ok() returns (succeeded: bool)
      modifies this`disposition
      ensures (succeeded, State()) == Check(traits, old(State()))
    {
      disposition := Checked;
      succeeded := TryOk();
    }

    /** ~unique_error(): reset(), so it fails fast on an Unchecked value. */
    method Destroy()
      requires disposition != Unchecked
      modifies this
      ensures State() == Initial(traits)
    {
      Reset();
    }
  }

  /** The free swap(lhs, rhs): lhs.swap(rhs). */
  method Swap<E(==)>(lhs: UniqueError<E>, rhs: UniqueError<E>)
    requires lhs.traits == rhs.traits
    modifies lhs, rhs
    ensures lhs.State() == old(rhs.State()) && rhs.State() == old(lhs.State())
  {
    lhs.Swap(rhs);
  }

  /** operator== between two unique_errors: compares the held errors. */
  function Equal<E(==)>(lhs: UniqueError<E>, rhs: UniqueError<E>): (r: bool)
    reads lhs, rhs
    ensures r <==> lhs.Get() == rhs.Get()
    ensures lhs == rhs ==> r
  {
    lhs.value == rhs.value
  }

  /** operator!= between two unique_errors. */
  function NotEqual<E(==)>(lhs: UniqueError<E>, rhs: UniqueError<E>): (r: bool)
    reads lhs, rhs
    ensures r <==> lhs.Get() != rhs.Get()
  {
    !Equal(lhs, rhs)
  }

  /** operator< between two unique_errors, through the Error type's own `<`;
      an irreflexive `<` never orders two equal objects. */
  function Less<E(==)>(lhs: UniqueError<E>, rhs: UniqueError<E>, errorLess: (E, E) -> bool): (r: bool)
    reads lhs, rhs
    ensures r <==> errorLess(lhs.Get(), rhs.Get())
    ensures Equal(lhs, rhs) && !errorLess(lhs.Get(), lhs.Get()) ==> !r
  {
    errorLess(lhs.value, rhs.value)
  }

  /** get(), try_ok() and the comparisons depend on the held errors alone:
      two objects holding the same errors answer alike whatever their
      dispositions, and being functions they mark nothing. */
  lemma ReadsIgnoreDisposition<E>(a: UniqueError<E>, b: UniqueError<E>, c: UniqueError<E>, d: UniqueError<E>, errorLess: (E, E) -> bool)
    requires a.traits == c.traits
    requires a.value == c.value && b.value == d.value
    ensures a.Get() == c.Get() && a.TryOk() == c.TryOk()
    ensures Equal(a, b) == Equal(c, d) && Less(a, b, errorLess) == Less(c, d, errorLess)
    ensures NotEqual(a, b) == NotEqual(c, d) && NotEqual(a, b) == !Equal(c, d)
  {
  }
}
