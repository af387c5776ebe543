/**
 * The abstract behaviour shared by every variant of the array-backed bounded
 * integer stack: the contents of a stack are the buffer slots 0..TOS, bottom to
 * top, and `push`/`pop` act on that sequence as defined here.  The classes in
 * StackDeepCopy, StackByRef and StackShallow are each proved against these
 * functions.
 */
module StackSpec {

  /** The value `pop` returns when the stack is empty. */
  const EmptySentinel: int := -1

  /** The capacity a default-constructed stack gets. */
  const DefaultSize: int := 10

  /**
   * The static member `stk_Num` of each stack program: a count of constructed
   * and not yet destroyed stacks. It is zero before any stack exists.
   */
  class InstanceCounter {
    var stkNum: int

    constructor ()
      ensures stkNum == 0
    {
      stkNum := 0;
    }

    /** The static accessor `getSTKnum`. */
    function GetStkNum(): (n: int)
      reads this
      ensures n == stkNum
    {
      stkNum
    }
  }

  function Min(a: int, b: int): int
  {
    if a <= b then a else b
  }

  /** Contents after `push(item)` on a stack holding `elems` whose capacity is `size`. */
  function PushResult(elems: seq<int>, size: int, item: int): seq<int>
  {
    if |elems| < size then elems + [item] else elems
  }

  /** The value `pop` returns and the contents it leaves, on a stack holding `elems`. */
  function PopResult(elems: seq<int>): (int, seq<int>)
  {
    if |elems| == 0 then (EmptySentinel, elems)
    else (elems[|elems| - 1], elems[..|elems| - 1])
  }

  /** Contents after pushing `items` one after another, first to last. */
  function PushAll(elems: seq<int>, size: int, items: seq<int>): seq<int>
    decreases |items|
  {
    if |items| == 0 then elems
    else PushResult(PushAll(elems, size, items[..|items| - 1]), size, items[|items| - 1])
  }

  /** The values returned by `k` pops in a row, in the order returned, and the contents left. */
  function PopMany(elems: seq<int>, k: nat): (seq<int>, seq<int>)
  {
    if k == 0 then ([], elems)
    else
      var before := PopMany(elems, k - 1);
      var last := PopResult(before.1);
      (before.0 + [last.0], last.1)
  }

  function Reverse(s: seq<int>): seq<int>
  {
    if |s| == 0 then [] else Reverse(s[1..]) + [s[0]]
  }

  /** The sequence 1, 2, ..., n. */
  function OneTo(n: nat): (r: seq<int>)
    ensures |r| == n
  {
    seq(n, k => k + 1)
  }

  /** A push on a stack that is not full increments TOS, so pushing keeps 0 <= TOS + 1 <= size. */
  lemma PushKeepsBound(elems: seq<int>, size: int, item: int)
    requires |elems| <= size
    ensures |PushResult(elems, size, item)| <= size
    ensures |PushResult(elems, size, item)| == if |elems| < size then |elems| + 1 else |elems|
  {
  }

  /** LIFO: a successful push followed by a pop returns the pushed item and restores the contents. */
  lemma PushThenPop(elems: seq<int>, size: int, item: int)
    requires |elems| < size
    ensures PopResult(PushResult(elems, size, item)) == (item, elems)
  {
  }

  /** Pop on an empty stack returns the sentinel and leaves the stack empty; otherwise it removes the top. */
  lemma PopShrinks(elems: seq<int>)
    ensures |elems| == 0 ==> PopResult(elems) == (EmptySentinel, [])
    ensures |elems| > 0 ==> elems == PopResult(elems).1 + [PopResult(elems).0]
  {
  }

  /**
   * Pushing a run of items onto a bounded stack keeps exactly as many of the
   * first items as there is room for; pushes made while full are lost.
   */
  lemma {:induction false} PushAllKeepsFirst(elems: seq<int>, size: int, items: seq<int>)
    requires |elems| <= size
    ensures PushAll(elems, size, items) == elems + items[..Min(size - |elems|, |items|)]
    decreases |items|
  {
    if |items| > 0 {
      var init := items[..|items| - 1];
      PushAllKeepsFirst(elems, size, init);
      assert init[..Min(size - |elems|, |init|)] == items[..Min(size - |elems|, |init|)];
      if |elems| + |init| < size {
        assert items[..|init|] + [items[|init|]] == items[..|items|];
      }
    }
  }

  /** LIFO over many pops: `k` pops return the top `k` elements, top first, and leave the rest. */
  lemma {:induction false} PopManyReturnsTopReversed(elems: seq<int>, k: nat)
    requires k <= |elems|
    ensures PopMany(elems, k) == (Reverse(elems[|elems| - k..]), elems[..|elems| - k])
  {
    if k > 0 {
      PopManyReturnsTopReversed(elems, k - 1);
      var n := |elems|;
      var rest := elems[..n - (k - 1)];
      assert PopResult(rest) == (elems[n - k], elems[..n - k]) by {
        assert rest[..|rest| - 1] == elems[..n - k];
      }
      var top := elems[n - k..];
      assert top[0] == elems[n - k] && top[1..] == elems[n - (k - 1)..];
      assert Reverse(top) == Reverse(elems[n - (k - 1)..]) + [elems[n - k]];
    } else {
      assert elems[|elems|..] == [] && elems[..|elems|] == elems;
    }
  }

  /**
   * The run the unguarded `main`s of StackV0.1 and StackV0.3 make on a default
   * stack: pushing 1..12 keeps 1..10, and five pops then return 10, 9, 8, 7, 6
   * and leave 1..5. (StackV0.0's guard skips pushes 11 and 12, which a full
   * stack would ignore anyway, so its run ends in the same state.)
   */
  lemma DemoRun()
    ensures PushAll([], DefaultSize, OneTo(12)) == OneTo(10)
    ensures PopMany(OneTo(10), 5) == ([10, 9, 8, 7, 6], OneTo(5))
  {
    PushAllKeepsFirst([], DefaultSize, OneTo(12));
    assert OneTo(12)[..10] == OneTo(10);
    PopManyReturnsTopReversed(OneTo(10), 5);
    assert OneTo(10)[5..] == [6, 7, 8, 9, 10];
    assert Reverse([6, 7, 8, 9, 10]) == [10, 9, 8, 7, 6];
    assert OneTo(10)[..5] == OneTo(5);
  }
}
