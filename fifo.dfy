// First-in-first-out behaviour shared by every queue of the framework that
// wraps std::queue: a run of pushes and pops against a queue's contents.
module Fifo {
  datatype Op<T> = Push(item: T) | Pop

  /** Applies `ops` to a queue holding `q`; returns the final contents and the
      items the pops took, in the order they were taken.  A pop that finds the
      queue empty takes nothing (the receive that reports failure). */
  function Run<T>(q: seq<T>, ops: seq<Op<T>>): (seq<T>, seq<T>)
    decreases |ops|
  {
    if ops == [] then (q, [])
    else match ops[0]
      case Push(x) => Run(q + [x], ops[1..])
      case Pop =>
        if q == [] then Run(q, ops[1..])
        else
          var (rest, taken) := Run(q[1..], ops[1..]);
          (rest, [q[0]] + taken)
  }

  /** The items pushed by `ops`, in order. */
  function Pushed<T>(ops: seq<Op<T>>): seq<T>
    decreases |ops|
  {
    if ops == [] then []
    else match ops[0]
      case Push(x) => [x] + Pushed(ops[1..])
      case Pop => Pushed(ops[1..])
  }

  /** Items leave in exactly the order they arrived: what was taken, followed
      by what is still queued, is the old contents followed by everything pushed. */
  lemma {:induction false} RunIsFifo<T>(q: seq<T>, ops: seq<Op<T>>)
    ensures Run(q, ops).1 + Run(q, ops).0 == q + Pushed(ops)
    decreases |ops|
  {
    if ops != [] {
      match ops[0]
      case Push(x) =>
        RunIsFifo(q + [x], ops[1..]);
        assert Pushed(ops) == [x] + Pushed(ops[1..]);
        assert (q + [x]) + Pushed(ops[1..]) == q + ([x] + Pushed(ops[1..]));
      case Pop =>
        RunIsFifo(if q == [] then q else q[1..], ops[1..]);
        if q != [] {
          var (rest, taken) := Run(q[1..], ops[1..]);
          assert [q[0]] + taken + rest == [q[0]] + (taken + rest);
          assert [q[0]] + q[1..] == q;
        }
    }
  }

  /** The depth after a run is the old depth plus the sends minus the successful receives. */
  lemma {:induction false} RunDepth<T>(q: seq<T>, ops: seq<Op<T>>)
    ensures |Run(q, ops).0| == |q| + |Pushed(ops)| - |Run(q, ops).1|
  {
    RunIsFifo(q, ops);
  }
}
