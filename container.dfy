/** `SafeUninit<T, R>`: a slot holding zero or one payload of type `T`, with
    checked accessors that panic on an empty slot, unchecked ones whose
    presence requirement is discharged by proof, in-place stores, and the
    transparent `Deref`/`DerefMut` access that the marker `R` grants. */
module Container {
  import opened Wrappers
  import opened Capabilities
  import Lifecycle

  class SafeUninit<T> {
    /** The payload, present or absent. */
    var inner: Option<T>
    /** The marker type `R`, chosen when the slot's type is written down. */
    const cap: Capability

    /** `uninit`: an empty slot. */
    constructor Uninit(cap: Capability)
      ensures !Initialized() && TakeOption() == None
      ensures this.cap == cap
    {
      this.inner := None;
      this.cap := cap;
    }

    /** `new`: a slot already holding `inner`. */
    constructor New(cap: Capability, inner: T)
      ensures Initialized() && Take() == Ok(inner)
      ensures this.cap == cap
    {
      this.inner := Some(inner);
      this.cap := cap;
    }

    /** `Default::default`, where `typeDefault` stands for `T::default()`:
        the same slot as `New(cap, typeDefault)`. */
    constructor Default(cap: Capability, typeDefault: T)
      ensures Initialized() && Take() == Ok(typeDefault)
      ensures this.cap == cap
    {
      this.inner := Some(typeDefault);
      this.cap := cap;
    }

    /** `initialized`: whether a payload is present, which is exactly when
        the checked `Take` would not panic. */
    predicate Initialized()
      reads this
      ensures Initialized() <==> Take().Ok?
    {
      inner.Some?
    }

    /** `take`: the payload, or a panic when the slot is empty. */
    function Take(): (r: Checked<T>)
      reads this
      ensures r.Panic? <==> inner == None
      ensures r.Ok? ==> inner == Some(r.value)
    {
      inner.Unwrap()
    }

    /** `take_option`: never panics; it agrees with `Take` whenever `Take`
        succeeds and is `None` exactly when `Take` would panic. */
    function TakeOption(): (r: Option<T>)
      reads this
      ensures r.None? <==> Take().Panic?
      ensures Take().Ok? ==> r == Some(Take().value)
    {
      inner
    }

    /** `Into<Option<T>>`: the same conversion as `TakeOption`. */
    function Into(): (r: Option<T>)
      reads this
      ensures r == TakeOption()
      ensures r.Some? <==> Initialized()
    {
      TakeOption()
    }

    /** `take_ref`: a shared borrow of the payload. It reaches the value that
        `Take` would move out and panics in the same state. */
    function TakeRef(): (r: Checked<T>)
      reads this
      ensures r == Take()
      ensures r.Ok? <==> Lifecycle.Step(inner, Lifecycle.Read).Ok?
    {
      inner.Unwrap()
    }

    /** `take_unchecked`: callable only on a populated slot, where it returns
        what `Take` returns. */
    function TakeUnchecked(): (r: T)
      reads this
      requires Initialized()
      ensures Take() == Ok(r)
    {
      inner.value
    }

    /** `take_ref_unchecked`: callable only on a populated slot, where it
        reaches what `TakeRef` reaches. */
    function TakeRefUnchecked(): (r: T)
      reads this
      requires Initialized()
      ensures TakeRef() == Ok(r)
    {
      inner.value
    }

    /** `Deref::deref`: exists only when the marker enables it, and then is
        `TakeRef`, panic included. */
    function Deref(): (r: Checked<T>)
      reads this
      requires EnablesDeref(cap)
      ensures r == TakeRef()
      ensures r.Panic? <==> !Initialized()
    {
      inner.Unwrap()
    }

    /** `take_mut` followed by a write through the borrow: `update` computes
        the new payload from the one reached. On an empty slot it panics and
        the slot is left as it was. */
    method TakeMut(update: T -> T) returns (reached: Checked<T>)
      modifies this
      ensures reached == old(TakeRef())
      ensures reached.Panic? ==> inner == old(inner)
      ensures reached.Ok? ==> inner == Some(update(reached.value))
      ensures Lifecycle.Step(old(inner), Lifecycle.Write(update)) ==
                if reached.Ok? then Ok(inner) else Panic(reached.fault)
    {
      reached := inner.Unwrap();
      if reached.Ok? {
        inner := Some(update(reached.value));
      }
    }

    /** `take_mut_unchecked` followed by a write through the borrow: callable
        only on a populated slot, where it has the effect of `TakeMut`. */
    method TakeMutUnchecked(update: T -> T) returns (reached: T)
      requires Initialized()
      modifies this
      ensures old(TakeRef()) == Ok(reached)
      ensures inner == Some(update(reached))
      ensures Lifecycle.Step(old(inner), Lifecycle.Write(update)) == Ok(inner)
    {
      reached := inner.value;
      inner := Some(update(reached));
    }

    /** `DerefMut::deref_mut` followed by a write through the borrow: exists
        only when the marker enables write-through, and then is `TakeMut`. */
    method DerefMut(update: T -> T) returns (reached: Checked<T>)
      requires EnablesDerefMut(cap)
      modifies this
      ensures reached == old(TakeRef())
      ensures reached.Panic? ==> inner == old(inner)
      ensures reached.Ok? ==> inner == Some(update(reached.value))
      ensures Lifecycle.Step(old(inner), Lifecycle.Write(update)) ==
                if reached.Ok? then Ok(inner) else Panic(reached.fault)
    {
      reached := inner.Unwrap();
      if reached.Ok? {
        inner := Some(update(reached.value));
      }
    }

    /** `replace`: stores `with` in place and hands back the previous
        contents, whatever they were. */
    method Replace(with: T) returns (previous: Option<T>)
      modifies this
      ensures previous == old(TakeOption())
      ensures Initialized() && Take() == Ok(with)
      ensures Lifecycle.Step(old(inner), Lifecycle.Replace(with)) == Ok(inner)
    {
      previous := inner;
      inner := Some(with);
    }

    /** `initialize`: `Replace` with its result dropped. */
    method Initialize(with: T)
      modifies this
      ensures Initialized() && Take() == Ok(with)
      ensures Lifecycle.Step(old(inner), Lifecycle.Initialize(with)) == Ok(inner)
    {
      var previous := Replace(with);
    }
  }
}
