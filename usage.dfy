/** Callers of the container, showing what its contracts let a client prove:
    the crate's usage example and the promised behaviour of a fresh slot. */
module Usage {
  import opened Wrappers
  import opened Capabilities
  import opened Container
  import Lifecycle

  /** The taking-references example: a read-write slot made with -10; the
      borrowed payload plus 10 is 0; 100 is written through `DerefMut`, and
      the payload then shown (`Display` reads it with `take_ref`) is 100. */
  method TakingReferences() returns (sum: int, shown: int)
    ensures sum == 0 && shown == 100
  {
    var x := new SafeUninit<int>.New(ReadWrite, -10);
    var borrowed := x.TakeRef();
    sum := borrowed.value + 10;
    var reached := x.DerefMut(v => 100);
    shown := x.TakeRef().value;
  }

  /** The same example's vector: a defaulted read-write slot, a push through
      `DerefMut`, then moving the vector out by `take` or, on a second slot
      built the same way, by `into` (each of them consumes its slot). */
  method DefaultedVector() returns (taken: Checked<seq<int>>, converted: Option<seq<int>>)
    ensures taken == Ok([1024])
    ensures converted == Some([1024])
  {
    var integers := PushedVector();
    taken := integers.Take();
    var others := PushedVector();
    converted := others.Into();
  }

  /** A defaulted read-write vector slot with 1024 pushed through `DerefMut`. */
  method PushedVector() returns (integers: SafeUninit<seq<int>>)
    ensures fresh(integers) && integers.inner == Some([1024])
  {
    integers := new SafeUninit<seq<int>>.Default(ReadWrite, []);
    var reached := integers.DerefMut(v => v + [1024]);
    assert reached.value + [1024] == [1024];
  }

  /** On a slot made by `New(v1)`, `Replace(v2)` hands back `v1` and a later
      `Take` yields `v2`. */
  method ReplaceThenTake<T>(v1: T, v2: T) returns (previous: Option<T>, taken: Checked<T>)
    ensures previous == Some(v1)
    ensures taken == Ok(v2)
  {
    var s := new SafeUninit<T>.New(NoAccess, v1);
    previous := s.Replace(v2);
    taken := s.Take();
  }

  /** On an empty slot every checked accessor panics with
      `UninitializedAccess` and `take_option` gives `None`; `Replace` hands
      back `None`, after which the unchecked read is allowed and yields the
      stored value. A panic ends the caller and `take_option` consumes the
      slot, so each fact is shown on a fresh slot of its own. */
  method EmptySlot<T>(update: T -> T, v: T)
    returns (taken: Checked<T>, borrowed: Checked<T>, reached: Checked<T>,
             option: Option<T>, previous: Option<T>, unchecked: T)
    ensures taken == Panic(UninitializedAccess)
    ensures borrowed == Panic(UninitializedAccess)
    ensures reached == Panic(UninitializedAccess)
    ensures option == None
    ensures previous == None
    ensures unchecked == v
  {
    var s1 := new SafeUninit<T>.Uninit(ReadWrite);
    taken := s1.Take();
    var s2 := new SafeUninit<T>.Uninit(ReadWrite);
    borrowed := s2.TakeRef();
    var s3 := new SafeUninit<T>.Uninit(ReadWrite);
    reached := s3.TakeMut(update);
    var s4 := new SafeUninit<T>.Uninit(ReadWrite);
    option := s4.TakeOption();
    var s5 := new SafeUninit<T>.Uninit(ReadWrite);
    previous := s5.Replace(v);
    unchecked := s5.TakeUnchecked();
  }

  /** Any sequence of in-place operations on one slot, each sent to the
      container method it names, stopping at the first panic. The outcome and
      the slot's final contents are those of `Lifecycle.Run`, so every lemma
      about runs holds of such a sequence of calls. */
  method ApplyOps<T>(s: SafeUninit<T>, ops: seq<Lifecycle.Op<T>>) returns (res: Checked<Option<T>>)
    modifies s
    ensures res == Lifecycle.Run(old(s.inner), ops)
    ensures res.Ok? ==> s.inner == res.value
  {
    res := Ok(s.inner);
    var i := 0;
    while i < |ops| && res.Ok?
      invariant 0 <= i <= |ops|
      invariant res.Ok? ==> res.value == s.inner
      invariant Lifecycle.Run(old(s.inner), ops) ==
                  match res
                  case Panic(e) => Panic(e)
                  case Ok(v) => Lifecycle.Run(v, ops[i..])
    {
      assert ops[i..][0] == ops[i] && ops[i..][1..] == ops[i + 1..];
      match ops[i] {
        case Initialize(w) =>
          s.Initialize(w);
        case Replace(w) =>
          var previous := s.Replace(w);
        case Read =>
          var borrowed := s.TakeRef();
          if borrowed.Panic? {
            res := Panic(borrowed.fault);
          }
        case Write(f) =>
          var reached := s.TakeMut(f);
          if reached.Panic? {
            res := Panic(reached.fault);
          }
      }
      if res.Ok? {
        res := Ok(s.inner);
      }
      i := i + 1;
    }
    assert res.Ok? ==> ops[i..] == [];
  }
}
