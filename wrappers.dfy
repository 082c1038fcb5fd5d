/** Value wrappers shared by the model: Rust's `Option` and the outcome of a
    checked access, which either yields a value or panics. */
module Wrappers {

  /** Rust's `Option<T>`: the contents of a slot, present or absent. */
  datatype Option<+T> = None | Some(value: T)
  {
    /** `Option::unwrap`: the payload, or a panic when there is none. */
    function Unwrap(): (r: Checked<T>)
      ensures r.Ok? <==> Some?
      ensures r.Ok? ==> r.value == value
    {
      match this
      case Some(v) => Ok(v)
      case None => Panic(UninitializedAccess)
    }
  }

  /** The one fault a checked accessor can raise. */
  datatype Fault = UninitializedAccess

  /** The outcome of a checked access: the value reached, or the panic raised
      when the slot was empty. A panic ends the operation that raised it. */
  datatype Checked<+T> = Ok(value: T) | Panic(fault: Fault)
}
