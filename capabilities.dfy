/** The zero-size marker type `R` of `SafeUninit<T, R>`. In the source it exists
    only at the type level; here it is a value fixed when a slot is created. */
module Capabilities {

  /** One variant per choice of the container's type macro. */
  datatype Capability =
    | NoAccess   // `no_deref`: the marker `()`; taken, from the choice's name, to implement neither trait
    | ReadOnly   // `deref`: a marker implementing `EnableDeref` only
    | ReadWrite  // `deref_mut`, the macro's default: `EnableDeref` and `EnableDerefMut`

  /** The marker implements `EnableDeref`, so the slot implements `Deref`:
      the `deref` and `deref_mut` choices do, `no_deref` does not. */
  predicate EnablesDeref(c: Capability)
    ensures EnablesDeref(c) <==> c == ReadOnly || c == ReadWrite
  {
    c != NoAccess
  }

  /** The marker satisfies `R: EnableDeref + EnableDerefMut`, so the slot
      implements `DerefMut`; write-through always comes with read-through. */
  predicate EnablesDerefMut(c: Capability)
    ensures EnablesDerefMut(c) ==> EnablesDeref(c)
    ensures EnablesDerefMut(c) <==> c == ReadWrite
  {
    EnablesDeref(c) && c != ReadOnly
  }
}
