# SafeUninit: a verified model of safe-init's slot container

The `safe-init` crate provides `SafeUninit<T, R>`, a slot that holds zero or
one payload of type `T` so that a variable can be declared before its value
exists. The slot is Empty (`inner == None`) or Populated (`inner == Some(v)`).
It is created by `uninit`, `new` or `default`, and `initialize` and `replace`
overwrite it in place. It is read through checked accessors (`take`,
`take_ref`, `take_mut`), which panic on an empty slot, and through unchecked
accessors, whose use on an empty slot is undefined behaviour. `take_option` and
`into` never fail. A zero-size marker type `R` decides whether the slot also
offers transparent access through `Deref` (read) and `DerefMut` (write).

The model has five modules:

- `Wrappers` (wrappers.dfy): `Option`, and `Checked`, the outcome of a
  checked access. That outcome is either `Ok(value)` or
  `Panic(UninitializedAccess)`, so the panic is an explicit value instead of a
  precondition.
- `Capabilities` (capabilities.dfy): the marker `R` as the value
  `NoAccess | ReadOnly | ReadWrite`. These are the type macro's `no_deref`,
  `deref` and `deref_mut` choices. `EnablesDeref` and `EnablesDerefMut` stand
  for the trait bounds on the `Deref` and `DerefMut` impls.
- `Lifecycle` (lifecycle.dfy): the Empty/Populated state machine as pure
  functions. `Step` takes one in-place operation and `Run` a sequence of them.
  A run stops at the first panic. `Usage.ApplyOps` sends each operation of a
  run to the container method it names and is proved to end as `Run` does, so
  the lemmas here hold of any sequence of calls on one slot.
- `Container` (container.dfy): the class `SafeUninit<T>`. It has a mutable
  field `inner` and a `const cap` for the marker. The accessors that only read
  are functions. The operations that write in place are methods, and each of
  them is proved to take the `Lifecycle.Step` it stands for.
- `Usage` (usage.dfy): client methods proved from the contracts alone. They
  cover the crate's taking-references example, the behaviour of an empty
  slot, and runs of operations on one slot.

A `&mut T` borrow followed by a write is modelled as a total function
`update: T -> T` that computes the new payload from the payload reached. This
applies to `take_mut`, `take_mut_unchecked` and `deref_mut`. `T::default()` is
passed to the `Default` constructor as the parameter `typeDefault`.

## Model

| member | source | states |
|---|---|---|
| `Container.SafeUninit.Uninit` | src/lib.rs:123-127 | the new slot is not initialized and converts to `None` |
| `Container.SafeUninit.New` | src/lib.rs:129-133 | the new slot is initialized and `Take` yields exactly the given payload |
| `Container.SafeUninit.Default` | src/lib.rs:142-147 | the same slot as `New(T::default())`: initialized, and `Take` yields the default |
| `Container.SafeUninit.Initialized` | src/lib.rs:40-44 | true exactly when the checked `Take` would not panic |
| `Container.SafeUninit.Take` | src/lib.rs:46-51 | panics exactly when the slot is empty, and otherwise yields the stored payload |
| `Container.SafeUninit.TakeOption` | src/lib.rs:53-58 | never panics; `None` exactly when `Take` would panic, otherwise `Some` of what `Take` yields |
| `Container.SafeUninit.Into` | src/lib.rs:136-140 | the same result as `TakeOption`, and `Some` exactly when initialized |
| `Container.SafeUninit.TakeRef` | src/lib.rs:60-69 | reaches what `Take` yields and panics in the same state; it succeeds exactly when a `Read` step does |
| `Container.SafeUninit.TakeMut` | src/lib.rs:71-80 | reaches the payload `TakeRef` would reach; on an empty slot it panics and leaves the slot unchanged; otherwise the payload becomes `update` of the old one; this is the lifecycle's `Write` step |
| `Container.SafeUninit.TakeUnchecked` | src/lib.rs:82-89 | requires a populated slot, and then returns exactly what `Take` returns |
| `Container.SafeUninit.TakeMutUnchecked` | src/lib.rs:91-99 | requires a populated slot; reaches what `TakeRef` reaches and stores `update` of it, which is the `Write` step |
| `Container.SafeUninit.TakeRefUnchecked` | src/lib.rs:100-108 | requires a populated slot, and then returns exactly what `TakeRef` returns |
| `Container.SafeUninit.Initialize` | src/lib.rs:110-114 | afterwards the slot is initialized and holds the given payload whatever it held before; the same step as `Replace` |
| `Container.SafeUninit.Replace` | src/lib.rs:116-121 | returns the previous contents (`None` when empty) and leaves the slot holding the given payload |
| `Container.SafeUninit.Deref` | src/lib.rs:158-167 | exists only when the marker enables `Deref`; then equals `TakeRef`, and panics exactly when the slot is empty |
| `Container.SafeUninit.DerefMut` | src/lib.rs:149-156 | exists only when the marker enables `DerefMut`; then has exactly the effect and result of `TakeMut` |
| `Wrappers.Option.Unwrap` | src/lib.rs:48-51 | `Option::unwrap`, through which every checked accessor and both `Deref` impls panic: it panics exactly on `None` and otherwise yields the payload |
| `Capabilities.EnablesDeref` | src/lib.rs:158-159 | `Deref` is enabled exactly for the `deref` and `deref_mut` markers |
| `Capabilities.EnablesDerefMut` | src/lib.rs:149-150 | only the read-write marker enables `DerefMut`, and it always enables `Deref` as well |
| `Lifecycle.Step` | src/lib.rs:60-121 | a checked access panics exactly on an empty slot; every step that succeeds leaves the slot populated; stores set the payload whatever the state; reads leave it alone; writes apply the update |
| `Lifecycle.RunConcat` | src/lib.rs:60-121 | running two sequences of operations back to back is running the first and then, unless it panicked, the second |
| `Lifecycle.PopulatedStaysPopulated` | src/lib.rs:60-121 | once populated, a slot never becomes empty again through in-place operations, and none of its checked accesses panics |
| `Lifecycle.RunOutcome` | src/lib.rs:60-80 | a run panics exactly when it starts on an empty slot with a checked access; a non-empty run that does not panic leaves the slot populated, so the unchecked accessors may follow it |
| `Lifecycle.ReadsKeepContents` | src/lib.rs:65-69 | shared reads never change a populated slot |
| `Lifecycle.LastStoreWins` | src/lib.rs:110-121 | after a store followed only by reads, the slot holds that store's payload, unless the run panicked before the store |
| `Usage.TakingReferences` | examples/taking-references/src/main.rs:4-9 | `new(-10)`: the borrowed payload plus 10 is 0; after `*x = 100` through `DerefMut`, the payload that `Display` shows through `take_ref` is 100 |
| `Usage.DefaultedVector` | examples/taking-references/src/main.rs:17-22 | a defaulted vector slot with 1024 pushed through `DerefMut` yields `[1024]` by `take`, and a second slot built the same way yields `Some([1024])` by `into` |
| `Usage.ReplaceThenTake` | src/lib.rs:116-121 | on `new(v1)`, `replace(v2)` returns `Some(v1)` and a later `take` yields `v2` |
| `Usage.ApplyOps` | src/lib.rs:60-121 | a sequence of `initialize`, `replace`, `take_ref` and `take_mut` calls on one slot, stopped at the first panic, ends with exactly the outcome and contents of `Lifecycle.Run` |
| `Usage.EmptySlot` | src/lib.rs:46-80 | on fresh `uninit()` slots, `take`, `take_ref` and `take_mut` each panic with `UninitializedAccess` and `take_option` gives `None`; `replace(v)` returns `None`, after which `take_unchecked` yields `v` |

## Left out

- `Display` and `Debug` (src/lib.rs:20-32): text formatting that delegates to the payload's own formatter.
- `test` (src/lib.rs:34-37): a demo that prints to the console.
- The type macro (src/macros.rs): type-level notation with no runtime behaviour. Its three choices are the three `Capability` values.
- src/deref.rs and src/deref_mut.rs are not part of this model. The marker types they define are taken to implement the traits that the macro's comments describe, and the `no_deref` marker `()` is taken, from the choice's name, to implement neither.
- Container.SafeUninit.Take: `take`, `take_option`, `into` and `take_unchecked` move the payload out and consume the slot. The model reads `inner` without invalidating the object, because Rust's ownership rules, not the code, rule out later use.
- Container.SafeUninit.TakeMut: the `&mut T` borrow is modelled as a single write computed from the payload reached. Borrow lifetimes and repeated writes through one borrow are not modelled; the same holds for `TakeMutUnchecked` and `DerefMut`.
- The undefined behaviour of `unwrap_unchecked`: the unchecked accessors require a populated slot, so misuse cannot be expressed.
- The marker is a compile-time type parameter in the source and a `const` field here. The gating of `Deref` and `DerefMut` is a precondition, so the slot's layout being independent of the marker is not stated.
- A panic is an explicit `Checked.Panic` result. Unwinding and process termination are not modelled.
