// tsqueue: std::queue behind a mutex (erased).  `push` and `pop` return the
// queue itself so calls can be chained.
module TsQueue {
  class Queue<T> {
    var items: seq<T>

    constructor ()
      ensures items == []
    {
      items := [];
    }

    /** `empty()`: holds exactly when `size()` is zero. */
    method Empty() returns (e: bool)
      ensures e <==> |items| == 0
    {
      e := items == [];
    }

    /** `push(const T&)`: appends at the back and returns the same queue. */
    method Push(x: T) returns (self: Queue<T>)
      modifies this
      ensures self == this && items == old(items) + [x]
    {
      items := items + [x];
      self := this;
    }

    /** `push(const T&&)`: the same effect as the copying overload. */
    method PushMoved(x: T) returns (self: Queue<T>)
      modifies this
      ensures self == this && items == old(items) + [x]
    {
      self := Push(x);
    }

    /** `front()`: the oldest element, left in place; std::queue leaves an
        empty queue undefined, so the caller must know it is non-empty. */
    method Front() returns (x: T)
      requires items != []
      ensures x == items[0]
    {
      x := items[0];
    }

    /** `pop()`: removes exactly the oldest element (undefined on an empty queue). */
    method Pop() returns (self: Queue<T>)
      requires items != []
      modifies this
      ensures self == this && items == old(items)[1..]
      ensures old(items) == [old(items)[0]] + items
    {
      items := items[1..];
      self := this;
    }

    /** `size()`: the number of queued elements. */
    method Size() returns (n: nat)
      ensures n == |items|
    {
      n := |items|;
    }
  }
}
