/**
 * The bounded integer stack of StackV0.1_ByRef: a heap buffer `stk` of
 * capacity `size`, a top index `tos` (-1 when empty), and the live-instance
 * counter.  The program prints a stack through a `const stack&`, so printing
 * takes no copy.
 * The members shared with the other two stack modules are repeated here on
 * purpose, one class per program, and are identical to theirs.
 */
module StackByRef {
  import opened StackSpec

  class Stack {
    var size: int
    var stk: array<int>
    var tos: int

    /** The index invariant: -1 <= TOS <= size - 1 over a buffer of exactly `size` slots. */
    ghost predicate Valid()
      reads this
    {
      0 < size == stk.Length && -1 <= tos < size
    }

    /** The stored elements, bottom to top: buffer slots 0..TOS. */
    ghost function Contents(): seq<int>
      reads this, stk
      requires Valid()
    {
      stk[..tos + 1]
    }

    /** `stack()`: an empty stack of the default capacity 10. */
    constructor Default(counter: InstanceCounter)
      modifies counter
      ensures Valid() && fresh(stk)
      ensures size == DefaultSize && tos == -1 && Contents() == []
      ensures counter.stkNum == old(counter.stkNum) + 1
    {
      size := DefaultSize;
      stk := new int[DefaultSize];
      tos := -1;
      new;
      counter.stkNum := counter.stkNum + 1;
    }

    /** `stack(int size)`: an empty stack of the requested capacity. */
    constructor Sized(size: int, counter: InstanceCounter)
      requires size > 0
      modifies counter
      ensures Valid() && fresh(stk)
      ensures this.size == size && tos == -1 && Contents() == []
      ensures counter.stkNum == old(counter.stkNum) + 1
    {
      this.size := size;
      stk := new int[size];
      tos := -1;
      new;
      counter.stkNum := counter.stkNum + 1;
    }

    /**
     * `pop`: the top element, or the sentinel -1 with no change when empty.
     * `PopShrinks` and `PushThenPop` state the same behaviour on `Contents()`.
     */
    method Pop() returns (r: int)
      requires Valid()
      modifies this`tos
      ensures Valid()
      ensures old(tos) >= 0 ==> r == stk[old(tos)] && tos == old(tos) - 1
      ensures old(tos) < 0 ==> r == EmptySentinel && tos == old(tos)
      ensures (r, Contents()) == PopResult(old(Contents()))
    {
      if tos >= 0 {
        assert stk[..tos] == stk[..tos + 1][..tos];
        r := stk[tos];
        tos := tos - 1;
      } else {
        r := EmptySentinel;
      }
    }

    /**
     * `push`: writes slot TOS + 1 when there is room, otherwise changes nothing.
     * `PushKeepsBound` states the resulting bound on `Contents()`.
     */
    method Push(item: int)
      requires Valid()
      modifies this`tos, stk
      ensures Valid()
      ensures old(tos) < size - 1 ==> tos == old(tos) + 1 && stk[..] == old(stk[..])[tos := item]
      ensures old(tos) >= size - 1 ==> tos == old(tos) && stk[..] == old(stk[..])
      ensures Contents() == PushResult(old(Contents()), size, item)
    {
      if tos < size - 1 {
        tos := tos + 1;
        stk[tos] := item;
      }
    }

    /** `printStack`: the elements it lists, bottom to top. */
    method PrintStack() returns (elems: seq<int>)
      requires Valid()
      ensures elems == Contents()
    {
      elems := [];
      if tos == -1 {
        return;
      }
      for i := 0 to tos + 1
        invariant elems == stk[..i]
      {
        elems := elems + [stk[i]];
      }
    }

    /** `~stack`: the counter goes down by one (freeing the buffer is not modelled). */
    method Destroy(counter: InstanceCounter)
      modifies counter
      ensures counter.stkNum == old(counter.stkNum) - 1
    {
      counter.stkNum := counter.stkNum - 1;
    }
  }

  /** `printStackObj(const stack&)`: reads the caller's stack directly; no copy, no counter change. */
  method PrintStackObj(stackObj: Stack) returns (elems: seq<int>)
    requires stackObj.Valid()
    ensures elems == stackObj.Contents()
  {
    elems := [];
    if stackObj.tos == -1 {
      return;
    }
    for i := 0 to stackObj.tos + 1
      invariant elems == stackObj.stk[..i]
    {
      elems := elems + [stackObj.stk[i]];
    }
  }

  /**
   * The program's `main`: twelve unguarded pushes onto a default stack (the
   * last two hit the full branch), five pops, then printing s1 by reference.
   */
  method ByRefDemo() returns (popped: seq<int>, printed: seq<int>, live: int)
    ensures popped == [10, 9, 8, 7, 6]
    ensures printed == [1, 2, 3, 4, 5]
    ensures live == 2
  {
    var counter := new InstanceCounter();
    var s1 := new Stack.Default(counter);
    var s2 := new Stack.Sized(10, counter);
    for i := 1 to 13
      invariant s1.Valid() && s1.size == DefaultSize && fresh(s1.stk)
      invariant s1.Contents() == PushAll([], DefaultSize, OneTo(i - 1))
      invariant counter.stkNum == 2
    {
      assert OneTo(i)[..i - 1] == OneTo(i - 1);
      s1.Push(i);
    }
    DemoRun();
    popped := [];
    for i := 0 to 5
      invariant s1.Valid() && s1.size == DefaultSize && fresh(s1.stk)
      invariant (popped, s1.Contents()) == PopMany(OneTo(10), i)
      invariant counter.stkNum == 2
    {
      var value := s1.Pop();
      popped := popped + [value];
    }
    printed := PrintStackObj(s1);
    assert OneTo(5) == [1, 2, 3, 4, 5];
    live := counter.GetStkNum();
  }
}
