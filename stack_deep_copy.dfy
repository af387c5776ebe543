/**
 * The bounded integer stack of StackV0.3_OperatorOverloading: the same buffer,
 * top index and live-instance counter as the other variants, plus a copy
 * constructor and a copy assignment that both copy into a freshly allocated
 * buffer, so a copy never shares storage with its source.
 * The members shared with the other two stack modules are repeated here on
 * purpose, one class per program, and are identical to theirs.
 */
module StackDeepCopy {
  import opened StackSpec

  class Stack {
    var size: int
    var stk: array<int>
    var tos: int

    /** The index invariant: -1 <= TOS <= size - 1 over a buffer of exactly `size` slots. */
    ghost predicate Valid()
      reads this
    {
      0 < size == stk.Length && -1 <= tos < size
    }

    /** The stored elements, bottom to top: buffer slots 0..TOS. */
    ghost function Contents(): seq<int>
      reads this, stk
      requires Valid()
    {
      stk[..tos + 1]
    }

    /** `stack()`: an empty stack of the default capacity 10. */
    constructor Default(counter: InstanceCounter)
      modifies counter
      ensures Valid() && fresh(stk)
      ensures size == DefaultSize && tos == -1 && Contents() == []
      ensures counter.stkNum == old(counter.stkNum) + 1
    {
      size := DefaultSize;
      stk := new int[DefaultSize];
      tos := -1;
      new;
      counter.stkNum := counter.stkNum + 1;
    }

    /** `stack(int size)`: an empty stack of the requested capacity. */
    constructor Sized(size: int, counter: InstanceCounter)
      requires size > 0
      modifies counter
      ensures Valid() && fresh(stk)
      ensures this.size == size && tos == -1 && Contents() == []
      ensures counter.stkNum == old(counter.stkNum) + 1
    {
      this.size := size;
      stk := new int[size];
      tos := -1;
      new;
      counter.stkNum := counter.stkNum + 1;
    }

    /**
     * `stack(stack& other)`: same size and TOS, a fresh buffer, and every one of
     * the `size` slots copied (slots above TOS included, whatever they hold).
     */
    constructor CopyOf(other: Stack, counter: InstanceCounter)
      requires other.Valid()
      modifies counter
      ensures Valid() && fresh(stk)
      ensures size == other.size && tos == other.tos
      ensures stk[..] == other.stk[..] && Contents() == other.Contents()
      ensures counter.stkNum == old(counter.stkNum) + 1
    {
      var buf := new int[other.size];
      for i := 0 to other.size
        modifies buf
        invariant buf[..i] == other.stk[..i]
      {
        buf[i] := other.stk[i];
      }
      size := other.size;
      tos := other.tos;
      stk := buf;
      new;
      counter.stkNum := counter.stkNum + 1;
    }

    /**
     * `operator=(const stack& s)`: nothing happens on self-assignment; otherwise
     * size and TOS are taken from `s` and slots 0..TOS are copied into a fresh
     * buffer. The source stack and the counter are left alone; the result is
     * this object.
     */
    method Assign(s: Stack) returns (self: Stack)
      requires Valid() && s.Valid()
      modifies this
      ensures self == this && Valid()
      ensures s == this ==> size == old(size) && tos == old(tos) && stk == old(stk)
      ensures s != this ==> fresh(stk) && size == s.size && tos == s.tos
      ensures s != this ==> Contents() == s.Contents() && s.Contents() == old(s.Contents())
    {
      self := this;
      if this == s {
        return;
      }
      size := s.size;
      tos := s.tos;
      var buf := new int[size];
      for i := 0 to s.tos + 1
        modifies buf
        invariant buf[..i] == s.stk[..i]
      {
        buf[i] := s.stk[i];
      }
      stk := buf;
    }

    /**
     * `pop`: the top element, or the sentinel -1 with no change when empty.
     * `PopShrinks` and `PushThenPop` state the same behaviour on `Contents()`.
     */
    method Pop() returns (r: int)
      requires Valid()
      modifies this`tos
      ensures Valid()
      ensures old(tos) >= 0 ==> r == stk[old(tos)] && tos == old(tos) - 1
      ensures old(tos) < 0 ==> r == EmptySentinel && tos == old(tos)
      ensures (r, Contents()) == PopResult(old(Contents()))
    {
      if tos >= 0 {
        assert stk[..tos] == stk[..tos + 1][..tos];
        r := stk[tos];
        tos := tos - 1;
      } else {
        r := EmptySentinel;
      }
    }

    /**
     * `push`: writes slot TOS + 1 when there is room, otherwise changes nothing.
     * `PushKeepsBound` states the resulting bound on `Contents()`.
     */
    method Push(item: int)
      requires Valid()
      modifies this`tos, stk
      ensures Valid()
      ensures old(tos) < size - 1 ==> tos == old(tos) + 1 && stk[..] == old(stk[..])[tos := item]
      ensures old(tos) >= size - 1 ==> tos == old(tos) && stk[..] == old(stk[..])
      ensures Contents() == PushResult(old(Contents()), size, item)
    {
      if tos < size - 1 {
        tos := tos + 1;
        stk[tos] := item;
      }
    }

    /** `printStack`: the elements it lists, bottom to top. */
    method PrintStack() returns (elems: seq<int>)
      requires Valid()
      ensures elems == Contents()
    {
      elems := [];
      if tos == -1 {
        return;
      }
      for i := 0 to tos + 1
        invariant elems == stk[..i]
      {
        elems := elems + [stk[i]];
      }
    }

    /** `~stack`: the counter goes down by one (freeing the buffer is not modelled). */
    method Destroy(counter: InstanceCounter)
      modifies counter
      ensures counter.stkNum == old(counter.stkNum) - 1
    {
      counter.stkNum := counter.stkNum - 1;
    }
  }

  /**
   * The program's `main`: twelve unguarded pushes onto s1, five pops, then the
   * deep assignment `s2 = s1`; both stacks then print 1..5 and the counter
   * still says two stacks are live.
   */
  method DeepCopyDemo() returns (popped: seq<int>, printed1: seq<int>, printed2: seq<int>, live: int)
    ensures popped == [10, 9, 8, 7, 6]
    ensures printed1 == [1, 2, 3, 4, 5] && printed2 == printed1
    ensures live == 2
  {
    var counter := new InstanceCounter();
    var s1 := new Stack.Default(counter);
    var s2 := new Stack.Sized(10, counter);
    for i := 1 to 13
      invariant s1.Valid() && s1.size == DefaultSize && fresh(s1.stk)
      invariant s1.Contents() == PushAll([], DefaultSize, OneTo(i - 1))
      invariant s2.Valid() && counter.stkNum == 2
    {
      assert OneTo(i)[..i - 1] == OneTo(i - 1);
      s1.Push(i);
    }
    DemoRun();
    popped := [];
    for i := 0 to 5
      invariant s1.Valid() && s1.size == DefaultSize && fresh(s1.stk)
      invariant (popped, s1.Contents()) == PopMany(OneTo(10), i)
      invariant s2.Valid() && counter.stkNum == 2
    {
      var value := s1.Pop();
      popped := popped + [value];
    }
    var _ := s2.Assign(s1);
    printed1 := s1.PrintStack();
    printed2 := s2.PrintStack();
    assert OneTo(5) == [1, 2, 3, 4, 5];
    live := counter.GetStkNum();
  }

  /**
   * Independence after a deep copy: once `s2 = s1` has run, a push on s1 and a
   * pop on s2 do not see each other. s2 keeps the contents s1 had, minus its
   * own pop, and s1 gets just its own push.
   */
  method AssignThenMutate(s1: Stack, s2: Stack, x: int) returns (top2: int)
    requires s1.Valid() && s2.Valid() && s1 != s2
    modifies s1, s1.stk, s2
    ensures s1.Valid() && s2.Valid() && s1.stk != s2.stk
    ensures s1.Contents() == PushResult(old(s1.Contents()), old(s1.size), x)
    ensures (top2, s2.Contents()) == PopResult(old(s1.Contents()))
  {
    var _ := s2.Assign(s1);
    s1.Push(x);
    top2 := s2.Pop();
  }

  /**
   * Independence after the copy constructor: pushing onto the original leaves
   * the copy's buffer and contents as they were at the time of the copy.
   */
  method CopyThenPush(s1: Stack, counter: InstanceCounter, x: int) returns (s2: Stack)
    requires s1.Valid()
    modifies s1, s1.stk, counter
    ensures fresh(s2) && fresh(s2.stk) && s2.Valid() && s1.Valid()
    ensures s2.Contents() == old(s1.Contents())
    ensures s1.Contents() == PushResult(old(s1.Contents()), old(s1.size), x)
    ensures counter.stkNum == old(counter.stkNum) + 1
  {
    s2 := new Stack.CopyOf(s1, counter);
    s1.Push(x);
  }
}
