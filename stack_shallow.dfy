/**
 * The bounded integer stack of StackV0.0_Shallow (the 00.OOP and 05.OOP copies
 * of this program are the same text).  The class declares no copy constructor
 * and no copy assignment, so the compiler-generated memberwise ones copy the
 * `stk` pointer: `s2 = s1` and passing a stack by value make two objects share
 * one buffer.
 * The members shared with the other two stack modules are repeated here on
 * purpose, one class per program, and are identical to theirs.
 */
module StackShallow {
  import opened StackSpec

  class Stack {
    var size: int
    var stk: array<int>
    var tos: int

    /** The index invariant: -1 <= TOS <= size - 1 over a buffer of exactly `size` slots. */
    ghost predicate Valid()
      reads this
    {
      0 < size == stk.Length && -1 <= tos < size
    }

    /** The stored elements, bottom to top: buffer slots 0..TOS. */
    ghost function Contents(): seq<int>
      reads this, stk
      requires Valid()
    {
      stk[..tos + 1]
    }

    /** `stack()`: an empty stack of the default capacity 10. */
    constructor Default(counter: InstanceCounter)
      modifies counter
      ensures Valid() && fresh(stk)
      ensures size == DefaultSize && tos == -1 && Contents() == []
      ensures counter.stkNum == old(counter.stkNum) + 1
    {
      size := DefaultSize;
      stk := new int[DefaultSize];
      tos := -1;
      new;
      counter.stkNum := counter.stkNum + 1;
    }

    /** `stack(int size)`: an empty stack of the requested capacity. */
    constructor Sized(size: int, counter: InstanceCounter)
      requires size > 0
      modifies counter
      ensures Valid() && fresh(stk)
      ensures this.size == size && tos == -1 && Contents() == []
      ensures counter.stkNum == old(counter.stkNum) + 1
    {
      this.size := size;
      stk := new int[size];
      tos := -1;
      new;
      counter.stkNum := counter.stkNum + 1;
    }

    /**
     * `pop`: the top element, or the sentinel -1 with no change when empty.
     * `PopShrinks` and `PushThenPop` state the same behaviour on `Contents()`.
     */
    method Pop() returns (r: int)
      requires Valid()
      modifies this`tos
      ensures Valid()
      ensures old(tos) >= 0 ==> r == stk[old(tos)] && tos == old(tos) - 1
      ensures old(tos) < 0 ==> r == EmptySentinel && tos == old(tos)
      ensures (r, Contents()) == PopResult(old(Contents()))
    {
      if tos >= 0 {
        assert stk[..tos] == stk[..tos + 1][..tos];
        r := stk[tos];
        tos := tos - 1;
      } else {
        r := EmptySentinel;
      }
    }

    /**
     * `push`: writes slot TOS + 1 when there is room, otherwise changes nothing.
     * `PushKeepsBound` states the resulting bound on `Contents()`.
     */
    method Push(item: int)
      requires Valid()
      modifies this`tos, stk
      ensures Valid()
      ensures old(tos) < size - 1 ==> tos == old(tos) + 1 && stk[..] == old(stk[..])[tos := item]
      ensures old(tos) >= size - 1 ==> tos == old(tos) && stk[..] == old(stk[..])
      ensures Contents() == PushResult(old(Contents()), size, item)
    {
      if tos < size - 1 {
        tos := tos + 1;
        stk[tos] := item;
      }
    }

    /** `printStack`: the elements it lists, bottom to top. */
    method PrintStack() returns (elems: seq<int>)
      requires Valid()
      ensures elems == Contents()
    {
      elems := [];
      if tos == -1 {
        return;
      }
      for i := 0 to tos + 1
        invariant elems == stk[..i]
      {
        elems := elems + [stk[i]];
      }
    }

    /** `getTOS`: the top index, in -1..size-1. */
    function GetTos(): (t: int)
      reads this
      requires Valid()
      ensures -1 <= t < GetStkSize() && t + 1 == |Contents()|
    {
      tos
    }

    /** `getStkSize`: the capacity, which is the length of the buffer. */
    function GetStkSize(): (n: int)
      reads this
      requires Valid()
      ensures n > 0 && n == stk.Length
    {
      size
    }

    /**
     * The compiler-generated copy constructor (used to pass a stack by value):
     * memberwise, so the copy shares `stk` with the original, and it does not
     * touch the counter.
     */
    constructor ShallowCopy(other: Stack)
      requires other.Valid()
      ensures Valid() && size == other.size && tos == other.tos && stk == other.stk
      ensures Contents() == other.Contents()
    {
      size := other.size;
      stk := other.stk;
      tos := other.tos;
    }

    /**
     * The compiler-generated copy assignment `s2 = s1`: memberwise, so afterwards
     * both objects hold the same buffer reference. The counter is not touched.
     */
    method ShallowAssign(other: Stack) returns (self: Stack)
      requires other.Valid()
      modifies this
      ensures self == this && Valid()
      ensures size == other.size && tos == other.tos && stk == other.stk
      ensures Contents() == other.Contents()
    {
      size := other.size;
      stk := other.stk;
      tos := other.tos;
      self := this;
    }

    /**
     * `~stack`: the counter goes down by one. It runs for every object, the
     * memberwise copies included (freeing the buffer is not modelled).
     */
    method Destroy(counter: InstanceCounter)
      modifies counter
      ensures counter.stkNum == old(counter.stkNum) - 1
    {
      counter.stkNum := counter.stkNum - 1;
    }
  }

  /**
   * `printStackObj(stack stackObj)`: the parameter is a memberwise copy of the
   * caller's stack, so it lists the caller's own buffer slots 0..TOS; the
   * copy's destructor then runs at the end of the call and takes one off the
   * counter although the copy never added one.
   */
  method PrintStackObj(s: Stack, counter: InstanceCounter) returns (elems: seq<int>)
    requires s.Valid()
    modifies counter
    ensures elems == s.Contents()
    ensures counter.stkNum == old(counter.stkNum) - 1
  {
    var stackObj := new Stack.ShallowCopy(s);
    elems := [];
    if stackObj.tos != -1 {
      for i := 0 to stackObj.tos + 1
        invariant elems == stackObj.stk[..i]
      {
        elems := elems + [stackObj.stk[i]];
      }
    }
    stackObj.Destroy(counter);
  }

  /**
   * The program's `main`: pushes 1..12 onto s1 only while `getTOS() <
   * getStkSize() - 1`, which is exactly push's success condition, so ten pushes
   * are made and each succeeds; five pops return 10 down to 6, leaving TOS 4;
   * `s2 = s1` then makes both stacks share s1's buffer, both print 1..5, and
   * after the by-value print the counter reads one less than the two stacks
   * still in scope.
   */
  method ShallowDemo() returns (pushes: nat, popped: seq<int>, finalTos: int,
                                printed1: seq<int>, printed2: seq<int>, shared: bool, live: int)
    ensures pushes == 10
    ensures popped == [10, 9, 8, 7, 6] && finalTos == 4
    ensures printed1 == [1, 2, 3, 4, 5] && printed2 == printed1
    ensures shared
    ensures live == 1
  {
    var counter := new InstanceCounter();
    var s1 := new Stack.Default(counter);
    var s2 := new Stack.Sized(10, counter);
    pushes := 0;
    for i := 1 to 13
      invariant s1.Valid() && s1.size == DefaultSize && fresh(s1.stk)
      invariant s1.Contents() == PushAll([], DefaultSize, OneTo(i - 1))
      invariant pushes == |s1.Contents()|
      invariant s2.Valid() && counter.stkNum == 2
    {
      assert OneTo(i)[..i - 1] == OneTo(i - 1);
      if s1.GetTos() < s1.GetStkSize() - 1 {
        ghost var before := s1.tos;
        s1.Push(i);
        assert s1.tos == before + 1;
        pushes := pushes + 1;
      }
    }
    DemoRun();
    popped := [];
    for i := 0 to 5
      invariant s1.Valid() && s1.size == DefaultSize && fresh(s1.stk)
      invariant (popped, s1.Contents()) == PopMany(OneTo(10), i)
      invariant s2.Valid() && counter.stkNum == 2
    {
      var value := s1.Pop();
      popped := popped + [value];
    }
    finalTos := s1.GetTos();
    var _ := s2.ShallowAssign(s1);
    shared := s1.stk == s2.stk;
    printed1 := s1.PrintStack();
    printed2 := PrintStackObj(s2, counter);
    assert OneTo(5) == [1, 2, 3, 4, 5];
    live := counter.GetStkNum();
  }

  /**
   * Aliasing after the memberwise `s2 = s1`: replacing s1's top element (a pop
   * then a push) rewrites the slot that s2 still reads as its own top.
   */
  method AssignThenOverwrite(s1: Stack, s2: Stack, x: int) returns (top2: int)
    requires s1.Valid() && s2.Valid() && s1 != s2 && s1.tos >= 0
    modifies s1, s1.stk, s2
    ensures s1.Valid() && s2.Valid()
    ensures s2.stk == s1.stk && s2.tos == s1.tos == old(s1.tos)
    ensures top2 == x
    ensures s2.Contents() == s1.Contents() == old(s1.Contents())[old(s1.tos) := x]
  {
    var _ := s2.ShallowAssign(s1);
    var _ := s1.Pop();
    s1.Push(x);
    top2 := s2.stk[s2.tos];
  }
}
