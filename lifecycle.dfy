/** The two-state life of a slot, Empty (`None`) or Populated (`Some`), as a
    pure transition system over its contents. The container's in-place
    operations are each proved to take one of these steps. A run stops at its
    first panic; a client that sends each operation of a run to the matching
    method ends exactly as `Run` does (`Usage.ApplyOps`), so what is proved
    here about runs holds of any sequence of calls on one slot. */
module Lifecycle {
  import opened Wrappers

  /** An in-place operation on a slot that its owner keeps using afterwards.
      The consuming operations (`take`, `take_option`, `into`) end a slot's
      life and are not steps. */
  datatype Op<!T> =
    | Initialize(with: T)     // `initialize`
    | Replace(with: T)        // `replace`
    | Read                    // `take_ref`, or `deref` where the marker allows it
    | Write(update: T -> T)   // a write through `take_mut`, or `deref_mut`

  /** Operations that store a payload whatever the slot held. */
  predicate IsStore<T>(op: Op<T>)
  {
    op.Initialize? || op.Replace?
  }

  /** Checked accesses, which panic on an empty slot. */
  predicate IsAccess<T>(op: Op<T>)
  {
    op.Read? || op.Write?
  }

  /** The contents after one operation, or the panic of a checked access. */
  function Step<T>(inner: Option<T>, op: Op<T>): (r: Checked<Option<T>>)
    ensures r.Panic? <==> IsAccess(op) && inner.None?
    ensures r.Ok? ==> r.value.Some?
    ensures IsStore(op) ==> r == Ok(Some(op.with))
    ensures op.Read? && r.Ok? ==> r.value == inner
    ensures op.Write? && r.Ok? ==> r.value == Some(op.update(inner.value))
  {
    match op
    case Initialize(w) => Ok(Some(w))
    case Replace(w) => Ok(Some(w))
    case Read =>
      (match inner.Unwrap()
       case Ok(_) => Ok(inner)
       case Panic(e) => Panic(e))
    case Write(f) =>
      match inner.Unwrap()
      case Ok(v) => Ok(Some(f(v)))
      case Panic(e) => Panic(e)
  }

  /** The contents after a run of operations, or the first panic. */
  function Run<T>(inner: Option<T>, ops: seq<Op<T>>): Checked<Option<T>>
    decreases |ops|
  {
    if ops == [] then Ok(inner)
    else
      match Step(inner, ops[0])
      case Panic(e) => Panic(e)
      case Ok(next) => Run(next, ops[1..])
  }

  /** Running two runs back to back is running the first and, unless it
      panicked, the second from where the first left the slot. */
  lemma {:induction false} RunConcat<T>(inner: Option<T>, a: seq<Op<T>>, b: seq<Op<T>>)
    ensures Run(inner, a + b) ==
              match Run(inner, a)
              case Panic(e) => Panic(e)
              case Ok(s) => Run(s, b)
    decreases |a|
  {
    if a == [] {
      assert a + b == b;
    } else {
      assert (a + b)[0] == a[0];
      assert (a + b)[1..] == a[1..] + b;
      match Step(inner, a[0])
      case Panic(e) =>
      case Ok(next) => RunConcat(next, a[1..], b);
    }
  }

  /** A populated slot never becomes empty again, so no checked access on it
      ever panics: there is no Populated-to-Empty step. */
  lemma {:induction false} PopulatedStaysPopulated<T>(inner: Option<T>, ops: seq<Op<T>>)
    requires inner.Some?
    ensures Run(inner, ops).Ok?
    ensures Run(inner, ops).value.Some?
    decreases |ops|
  {
    if ops != [] {
      PopulatedStaysPopulated(Step(inner, ops[0]).value, ops[1..]);
    }
  }

  /** A run panics exactly when it starts on an empty slot with a checked
      access; a run that does not panic and does anything at all leaves the
      slot populated, which is what the unchecked accessors require. */
  lemma {:induction false} RunOutcome<T>(inner: Option<T>, ops: seq<Op<T>>)
    ensures Run(inner, ops).Panic? <==> inner.None? && ops != [] && IsAccess(ops[0])
    ensures Run(inner, ops).Ok? && ops != [] ==> Run(inner, ops).value.Some?
  {
    if ops != [] && Step(inner, ops[0]).Ok? {
      PopulatedStaysPopulated(Step(inner, ops[0]).value, ops[1..]);
    }
  }

  /** Reads leave a populated slot exactly as it was. */
  lemma {:induction false} ReadsKeepContents<T>(inner: Option<T>, ops: seq<Op<T>>)
    requires inner.Some?
    requires forall j :: 0 <= j < |ops| ==> ops[j].Read?
    ensures Run(inner, ops) == Ok(inner)
    decreases |ops|
  {
    if ops != [] {
      ReadsKeepContents(inner, ops[1..]);
    }
  }

  /** The last store wins: if only reads follow the store at index i, the run
      ends with that store's payload, unless it panicked before reaching it. */
  lemma {:induction false} LastStoreWins<T>(inner: Option<T>, ops: seq<Op<T>>, i: nat)
    requires i < |ops| && IsStore(ops[i])
    requires forall j :: i < j < |ops| ==> ops[j].Read?
    ensures Run(inner, ops) ==
              if Run(inner, ops[..i]).Ok? then Ok(Some(ops[i].with)) else Run(inner, ops[..i])
  {
    assert ops == ops[..i] + ops[i..];
    RunConcat(inner, ops[..i], ops[i..]);
    var tail := ops[i + 1..];
    forall j | 0 <= j < |tail| ensures tail[j].Read? {
      assert tail[j] == ops[i + 1 + j];
    }
    ReadsKeepContents(Some(ops[i].with), tail);
  }
}
