// IMessageListener: a runnable that drains a queue it holds through a weak
// pointer, turning each received message into one `onMessage` call.  The
// queue and the listener's subclass are foreign: each pass of the loop is
// fed one observed `Step` -- what `recv` returned, that the queue had
// expired, or that another thread called `shutdown` before the pass.
module MessageListener {
  datatype Step<T> = Received(msg: T) | RecvFailed | Expired | ShutdownCalled

  datatype Callback<T> = OnMessage(msg: T) | OnQueueDestroy

  /** Reference behaviour of a running listener over the observed steps: the
      callbacks it makes, and how many steps it consumes before it stops. */
  function Listen<T>(steps: seq<Step<T>>): (seq<Callback<T>>, nat)
    decreases |steps|
  {
    if steps == [] then ([], 0)
    else match steps[0]
      case Received(m) =>
        var (log, n) := Listen(steps[1..]);
        ([OnMessage(m)] + log, n + 1)
      case RecvFailed => ([OnQueueDestroy], 1)
      case Expired => ([OnQueueDestroy], 1)
      case ShutdownCalled => ([], 1)
  }

  /** The payloads of the `onMessage` calls in a callback log. */
  function Delivered<T>(log: seq<Callback<T>>): seq<T>
    decreases |log|
  {
    if log == [] then []
    else (if log[0].OnMessage? then [log[0].msg] else []) + Delivered(log[1..])
  }

  /** The messages of the successful receives among `steps`. */
  function ReceivedMsgs<T>(steps: seq<Step<T>>): seq<T>
    decreases |steps|
  {
    if steps == [] then []
    else (if steps[0].Received? then [steps[0].msg] else []) + ReceivedMsgs(steps[1..])
  }

  /** Every successful receive the listener consumes is followed by exactly one
      `onMessage` with the received value, in receive order. */
  lemma {:induction false} EachMessageDeliveredOnce<T>(steps: seq<Step<T>>)
    ensures Listen(steps).1 <= |steps|
    ensures Delivered(Listen(steps).0) == ReceivedMsgs(steps[..Listen(steps).1])
    decreases |steps|
  {
    if steps != [] {
      var (log, n) := Listen(steps);
      match steps[0]
      case Received(m) =>
        EachMessageDeliveredOnce(steps[1..]);
        var (log', n') := Listen(steps[1..]);
        assert log == [OnMessage(m)] + log';
        assert log[1..] == log';
        assert steps[..n][1..] == steps[1..][..n'];
      case RecvFailed =>
        assert Delivered(log) == [] + Delivered(log[1..]);
        assert ReceivedMsgs(steps[..1]) == [] + ReceivedMsgs(steps[..1][1..]);
      case Expired =>
        assert Delivered(log) == [] + Delivered(log[1..]);
        assert ReceivedMsgs(steps[..1]) == [] + ReceivedMsgs(steps[..1][1..]);
      case ShutdownCalled =>
        assert ReceivedMsgs(steps[..1]) == [] + ReceivedMsgs(steps[..1][1..]);
    }
  }

  /** `onQueueDestroy` is called at most once and is always the last callback. */
  lemma {:induction false} QueueDestroyAtMostOnceAndLast<T>(steps: seq<Step<T>>)
    ensures forall i :: 0 <= i < |Listen(steps).0| && Listen(steps).0[i] == OnQueueDestroy ==>
      i == |Listen(steps).0| - 1
    decreases |steps|
  {
    if steps != [] && steps[0].Received? {
      QueueDestroyAtMostOnceAndLast(steps[1..]);
      var log' := Listen(steps[1..]).0;
      assert Listen(steps).0 == [OnMessage(steps[0].msg)] + log';
    }
  }

  /** The listener stops only at a failed receive, an expired queue or a
      shutdown; every step it consumed before that was a successful receive. */
  lemma {:induction false} StopsOnlyOnFailureOrShutdown<T>(steps: seq<Step<T>>)
    ensures Listen(steps).1 <= |steps|
    ensures forall i :: 0 <= i < Listen(steps).1 - 1 ==> steps[i].Received?
    ensures Listen(steps).1 < |steps| ==> Listen(steps).1 > 0 && !steps[Listen(steps).1 - 1].Received?
    ensures Listen(steps).1 == |steps| && steps != [] && steps[|steps| - 1].Received? ==>
      forall i :: 0 <= i < |steps| ==> steps[i].Received?
    decreases |steps|
  {
    EachMessageDeliveredOnce(steps);
    if steps != [] && steps[0].Received? {
      StopsOnlyOnFailureOrShutdown(steps[1..]);
      var n' := Listen(steps[1..]).1;
      assert Listen(steps).1 == n' + 1;
      forall i | 0 <= i < n' ensures steps[i + 1] == steps[1..][i] {}
    }
  }

  datatype Construction<L> = Built(listener: L) | NullPointer

  class Listener<T> {
    var doWork: bool

    constructor Started()
      ensures doWork
    {
      doWork := true;
    }

    /** The constructor: throws NullPointerException when the queue pointer is
        empty; otherwise the listener is ready to run. */
    static method Create(queuePresent: bool) returns (r: Construction<Listener<T>>)
      ensures r.NullPointer? <==> !queuePresent
      ensures r.Built? ==> fresh(r.listener) && r.listener.doWork
    {
      if !queuePresent {
        return NullPointer;
      }
      var l := new Listener<T>.Started();
      r := Built(l);
    }

    /** `shutdown`: clears the run flag, so `execute` receives nothing more. */
    method Shutdown()
      modifies this
      ensures !doWork
    {
      doWork := false;
    }

    /** `execute`: the `while (doWork)` drain loop over the observed steps.  It
        returns the callbacks made and the number of steps consumed; if the
        steps run out while it still works, the loop would go on waiting. */
    method Execute(steps: seq<Step<T>>) returns (log: seq<Callback<T>>, used: nat)
      modifies this
      ensures old(doWork) ==> log == Listen(steps).0 && used == Listen(steps).1
      ensures !old(doWork) ==> log == [] && used == 0
      ensures doWork ==> used == |steps|
    {
      log, used := [], 0;
      while doWork && used < |steps|
        invariant used <= |steps|
        invariant !old(doWork) ==> !doWork && log == [] && used == 0
        invariant old(doWork) && doWork ==>
          log + Listen(steps[used..]).0 == Listen(steps).0 && used + Listen(steps[used..]).1 == Listen(steps).1
        invariant old(doWork) && !doWork ==> log == Listen(steps).0 && used == Listen(steps).1
        decreases |steps| - used
      {
        var rest := steps[used..];
        assert rest[1..] == steps[used + 1..];
        match steps[used] {
          case Received(m) =>
            assert log + Listen(rest).0 == (log + [OnMessage(m)]) + Listen(rest[1..]).0;
            log := log + [OnMessage(m)];
          case RecvFailed =>
            doWork := false;
            log := log + [OnQueueDestroy];
          case Expired =>
            doWork := false;
            log := log + [OnQueueDestroy];
          case ShutdownCalled =>
            doWork := false;
        }
        used := used + 1;
      }
    }
  }
}
