/** The SDK's `Stack`: a last-in first-out sequence kept in an array whose first
    element is the top. `push` inserts at index 0; `peek` and `pop` read and remove
    the first element, and both are fatal on an empty stack. */
module Stacks {

  /** The element `peek` returns: the first one. Only defined on a non-empty stack,
      since `peek` on an empty one is a fatal error. */
  function Top<T>(items: seq<T>): (r: T)
    requires |items| > 0
  {
    items[0]
  }

  /** The items after `push(e)`: `e` in front of the old items. */
  function Pushed<T>(items: seq<T>, e: T): (r: seq<T>)
    ensures |r| == |items| + 1
    ensures Top(r) == e
    ensures Popped(r) == items
  {
    [e] + items
  }

  /** The items after `pop()`: the old items without their first element, the rest
      in their old order. Only defined on a non-empty stack, since `removeFirst` traps
      on an empty array. */
  function Popped<T>(items: seq<T>): (r: seq<T>)
    requires |items| > 0
    ensures |r| == |items| - 1
    ensures forall i :: 0 <= i < |r| ==> r[i] == items[i + 1]
  {
    items[1..]
  }

  /** Pushing `a` then `b` and popping twice yields `b`, then `a`, then the
      original stack. */
  lemma Lifo<T>(items: seq<T>, a: T, b: T)
    ensures var s := Pushed(Pushed(items, a), b);
            Top(s) == b && Top(Popped(s)) == a && Popped(Popped(s)) == items
  {
  }

  class Stack<T> {
    var items: seq<T>

    constructor ()
      ensures items == []
    {
      items := [];
    }

    /** Reads the top without changing the stack. */
    method Peek() returns (e: T)
      requires |items| > 0
      ensures e == Top(items)
    {
      e := items[0];
    }

    method Pop() returns (e: T)
      requires |items| > 0
      modifies this
      ensures e == Top(old(items))
      ensures items == Popped(old(items))
    {
      e := items[0];
      items := items[1..];
    }

    method Push(e: T)
      modifies this
      ensures items == Pushed(old(items), e)
    {
      items := [e] + items;
    }
  }

  /** A client of `Stack`: two pushes followed by two pops return the pushed
      elements in reverse order and leave the stack as it was. */
  method PushTwicePopTwice<T>(s: Stack<T>, a: T, b: T) returns (first: T, second: T)
    modifies s
    ensures first == b && second == a
    ensures s.items == old(s.items)
  {
    s.Push(a);
    s.Push(b);
    var top := s.Peek();
    assert top == b;
    first := s.Pop();
    second := s.Pop();
  }
}
