// PQMessageListener: the drain loop for persistent queues.  Each pass calls
// `recv()` and hands the returned transaction to `onMessage`; any exception
// from either ends the loop without being rethrown.  Each pass is fed one
// observed `Step`, as for MessageListener.
module PQMessageListener {
  datatype Step<Txn> =
    | Handled(txn: Txn)        // recv() returned and onMessage returned
    | HandlerThrew(txn: Txn)   // recv() returned, onMessage threw
    | RecvThrew                // recv() threw
    | Expired                  // the weak queue pointer had expired
    | ShutdownCalled           // another thread cleared mayRun before the pass

  /** Reference behaviour of a running listener: the transactions passed to
      `onMessage`, in order, and the number of steps consumed. */
  function Listen<Txn>(steps: seq<Step<Txn>>): (seq<Txn>, nat)
    decreases |steps|
  {
    if steps == [] then ([], 0)
    else match steps[0]
      case Handled(t) =>
        var (calls, n) := Listen(steps[1..]);
        ([t] + calls, n + 1)
      case HandlerThrew(t) => ([t], 1)
      case RecvThrew => ([], 1)
      case Expired => ([], 1)
      case ShutdownCalled => ([], 1)
  }

  /** The transactions `recv()` returned among `steps`. */
  function Returned<Txn>(steps: seq<Step<Txn>>): seq<Txn>
    decreases |steps|
  {
    if steps == [] then []
    else (if steps[0].Handled? || steps[0].HandlerThrew? then [steps[0].txn] else []) + Returned(steps[1..])
  }

  /** Each transaction `recv()` returned is passed to exactly one `onMessage`
      call, in order; the listener consumes steps until the first that is not
      a normally handled one. */
  lemma {:induction false} EachTxnHandedOver<Txn>(steps: seq<Step<Txn>>)
    ensures Listen(steps).1 <= |steps|
    ensures Listen(steps).0 == Returned(steps[..Listen(steps).1])
    ensures forall i :: 0 <= i < Listen(steps).1 - 1 ==> steps[i].Handled?
    ensures Listen(steps).1 < |steps| ==> Listen(steps).1 > 0 && !steps[Listen(steps).1 - 1].Handled?
    decreases |steps|
  {
    if steps != [] {
      var (calls, n) := Listen(steps);
      match steps[0]
      case Handled(t) =>
        EachTxnHandedOver(steps[1..]);
        var n' := Listen(steps[1..]).1;
        assert steps[..n][1..] == steps[1..][..n'];
        forall i | 0 <= i < n' ensures steps[i + 1] == steps[1..][i] {}
      case HandlerThrew(t) =>
        assert Returned(steps[..1]) == [t] + Returned(steps[..1][1..]);
      case RecvThrew =>
        assert Returned(steps[..1]) == [] + Returned(steps[..1][1..]);
      case Expired =>
        assert Returned(steps[..1]) == [] + Returned(steps[..1][1..]);
      case ShutdownCalled =>
        assert Returned(steps[..1]) == [] + Returned(steps[..1][1..]);
    }
  }

  /** An expired queue ends the loop and adds no callback: after any run of
      handled transactions, an expiry stops the listener with exactly those
      delivered.  No `onQueueDestroy` is ever made, whatever the log says. */
  lemma {:induction false} ExpiryEndsSilently<Txn>(before: seq<Txn>, after: seq<Step<Txn>>)
    ensures Listen(seq(|before|, i requires 0 <= i < |before| => Handled(before[i])) + [Expired] + after)
      == (before, |before| + 1)
    decreases |before|
  {
    var pre := seq(|before|, i requires 0 <= i < |before| => Handled(before[i]));
    if before != [] {
      var pre' := seq(|before| - 1, i requires 0 <= i < |before| - 1 => Handled(before[1..][i]));
      ExpiryEndsSilently(before[1..], after);
      assert (pre + [Expired] + after)[1..] == pre' + [Expired] + after;
      assert [before[0]] + before[1..] == before;
    }
  }

  datatype Construction<L> = Built(listener: L) | NullPointer

  class Listener<Txn> {
    var mayRun: bool

    constructor Started()
      ensures mayRun
    {
      mayRun := true;
    }

    /** The constructor: throws NullPointerException on an empty queue pointer,
        otherwise the listener may run. */
    static method Create(queuePresent: bool) returns (r: Construction<Listener<Txn>>)
      ensures r.NullPointer? <==> !queuePresent
      ensures r.Built? ==> fresh(r.listener) && r.listener.mayRun
    {
      if !queuePresent {
        return NullPointer;
      }
      var l := new Listener<Txn>.Started();
      r := Built(l);
    }

    /** `shutdown`, which the destructor also calls: clears `mayRun`. */
    method Shutdown()
      modifies this
      ensures !mayRun
    {
      mayRun := false;
    }

    /** `execute`: the `while (mayRun)` loop over the observed steps; returns
        the transactions handed to `onMessage` and the steps consumed. */
    method Execute(steps: seq<Step<Txn>>) returns (calls: seq<Txn>, used: nat)
      modifies this
      ensures old(mayRun) ==> calls == Listen(steps).0 && used == Listen(steps).1
      ensures !old(mayRun) ==> calls == [] && used == 0
      ensures mayRun ==> used == |steps|
    {
      calls, used := [], 0;
      while mayRun && used < |steps|
        invariant used <= |steps|
        invariant !old(mayRun) ==> !mayRun && calls == [] && used == 0
        invariant old(mayRun) && mayRun ==>
          calls + Listen(steps[used..]).0 == Listen(steps).0 && used + Listen(steps[used..]).1 == Listen(steps).1
        invariant old(mayRun) && !mayRun ==> calls == Listen(steps).0 && used == Listen(steps).1
        decreases |steps| - used
      {
        var rest := steps[used..];
        assert rest[1..] == steps[used + 1..];
        match steps[used] {
          case Handled(t) =>
            assert calls + Listen(rest).0 == (calls + [t]) + Listen(rest[1..]).0;
            calls := calls + [t];
          case HandlerThrew(t) =>
            calls := calls + [t];
            mayRun := false;
          case RecvThrew =>
            mayRun := false;
          case Expired =>
            mayRun := false;
          case ShutdownCalled =>
            mayRun := false;
        }
        used := used + 1;
      }
    }
  }
}
