// tsbqueue and al_tsbqueue: the same blocking queue, once behind std::mutex
// and once behind the framework's AtomicMutex.  Their operations are
// identical apart from the lock type, so one class models both; `lock`
// records which header an object stands for.  Locks are erased; a failed
// `try_lock` is an input.
module BlockingQueues {
  import opened Wrappers
  import opened Semaphores

  datatype LockKind = StdMutex | AtomicMutex

  /** What a call ends with: a normal return, std::system_error from the
      semaphore, or std::logic_error "already consumed". */
  datatype Outcome<T> = Done(value: T) | SystemError | AlreadyConsumed

  class BlockingQueue<T> {
    const lock: LockKind
    var queue: seq<T>
    var event: Sem

    /** Until `destroy`, the event semaphore counts exactly the queued elements. */
    ghost predicate Valid()
      reads this
    {
      event.destroyed || event.count == |queue|
    }

    /** tsbqueue's constructor. */
    constructor Std()
      ensures lock == StdMutex && queue == [] && event == Fresh && Valid()
    {
      lock := StdMutex;
      queue := [];
      event := Fresh;
    }

    /** al_tsbqueue's constructor. */
    constructor Atomic()
      ensures lock == AtomicMutex && queue == [] && event == Fresh && Valid()
    {
      lock := AtomicMutex;
      queue := [];
      event := Fresh;
    }

    /** `destroy` (also run by the destructor): destroys the semaphore, then
        pops until the queue is empty. */
    method Destroy()
      modifies this
      ensures queue == [] && event == Semaphores.Destroy(old(event))
      ensures Valid()
    {
      event := Semaphores.Destroy(event);
      while queue != []
        invariant event == Semaphores.Destroy(old(event))
        decreases |queue|
      {
        queue := queue[1..];
      }
    }

    /** The loop shared by batch `send` and a successful `try_send`: each element
        is pushed, then the semaphore posted; a failed post raises
        std::system_error with that element already queued. */
    method PushAll(batch: seq<T>) returns (ok: bool)
      modifies this
      ensures !old(event.destroyed) ==>
        ok && queue == old(queue) + batch && event == old(event).(count := old(event.count) + |batch|)
      ensures old(event.destroyed) ==>
        event == old(event) && ok == (batch == []) &&
        queue == old(queue) + (if batch == [] then [] else [batch[0]])
      ensures old(Valid()) ==> Valid()
    {
      var i := 0;
      ok := true;
      while i < |batch|
        invariant 0 <= i <= |batch|
        invariant event.destroyed == old(event.destroyed)
        invariant !event.destroyed ==>
          ok && queue == old(queue) + batch[..i] && event.count == old(event.count) + i
        invariant event.destroyed ==> event == old(event) && ok && i == 0 && queue == old(queue)
      {
        queue := queue + [batch[i]];
        var posted;
        event, posted := Post(event).0, Post(event).1;
        if !posted {
          ok := false;
          return;
        }
        i := i + 1;
      }
      assert batch[..|batch|] == batch;
    }

    /** Batch `send`: every element appended in index order with one post each. */
    method SendBatch(batch: seq<T>) returns (r: Outcome<()>)
      modifies this
      ensures !old(event.destroyed) ==>
        r == Done(()) && queue == old(queue) + batch && event.count == old(event.count) + |batch|
      ensures old(event.destroyed) ==>
        event == old(event) && (r == Done(()) <==> batch == []) && r != AlreadyConsumed &&
        queue == old(queue) + (if batch == [] then [] else [batch[0]])
      ensures old(Valid()) ==> Valid()
    {
      var ok := PushAll(batch);
      r := if ok then Done(()) else SystemError;
    }

    /** `try_send`: all or nothing with respect to the lock; when `lockFree`
        says `try_lock` failed, false and no change; otherwise as batch `send`. */
    method TrySend(batch: seq<T>, lockFree: bool) returns (r: Outcome<bool>)
      modifies this
      ensures !lockFree ==> r == Done(false) && queue == old(queue) && event == old(event)
      ensures lockFree && !old(event.destroyed) ==>
        r == Done(true) && queue == old(queue) + batch && event.count == old(event.count) + |batch|
      ensures lockFree && old(event.destroyed) ==>
        event == old(event) && (r == Done(true) <==> batch == []) && r != AlreadyConsumed &&
        queue == old(queue) + (if batch == [] then [] else [batch[0]])
      ensures old(Valid()) ==> Valid()
    {
      if !lockFree {
        return Done(false);
      }
      var ok := PushAll(batch);
      r := if ok then Done(true) else SystemError;
    }

    /** Single `send`: push, then post; a failed post raises std::system_error
        after the element was queued. */
    method Send(x: T) returns (r: Outcome<()>)
      modifies this
      ensures queue == old(queue) + [x]
      ensures event == Post(old(event)).0
      ensures r == (if old(event.destroyed) then SystemError else Done(()))
      ensures old(Valid()) ==> Valid()
    {
      queue := queue + [x];
      var posted;
      event, posted := Post(event).0, Post(event).1;
      r := if posted then Done(()) else SystemError;
    }

    /** `tryRecv`: when the timed wait fails, false and the queue untouched;
        otherwise the front element is taken (`None` is the false result,
        with the caller's variable untouched).  A successful timed wait on an
        empty queue is undefined in the source and excluded here. */
    method TryRecv() returns (r: Option<T>)
      requires TimedWait(event).1 ==> queue != []
      modifies this
      ensures event == TimedWait(old(event)).0 && r.Some? == TimedWait(old(event)).1
      ensures r.None? ==> queue == old(queue)
      ensures r.Some? ==> r.value == old(queue)[0] && queue == old(queue)[1..]
      ensures old(Valid()) ==> Valid()
    {
      var woke := TimedWait(event).1;
      event := TimedWait(event).0;
      if woke {
        r := Some(queue[0]);
        queue := queue[1..];
      } else {
        r := None;
      }
    }

    /** `recv()` and `recv(T&)`: a failed wait raises std::system_error; an empty
        queue after the wait raises "already consumed"; otherwise the front
        element is removed and returned. */
    method Recv() returns (r: Outcome<T>)
      requires Ready(event)
      modifies this
      ensures event == Wait(old(event)).0
      ensures old(event.destroyed) ==> r == SystemError && queue == old(queue)
      ensures !old(event.destroyed) && old(queue) == [] ==> r == AlreadyConsumed && queue == []
      ensures !old(event.destroyed) && old(queue) != [] ==>
        r == Done(old(queue)[0]) && queue == old(queue)[1..]
      ensures old(Valid()) ==> Valid() && (!old(event.destroyed) ==> r.Done?)
    {
      var woke;
      event, woke := Wait(event).0, Wait(event).1;
      if !woke {
        return SystemError;
      }
      if queue == [] {
        return AlreadyConsumed;
      }
      r := Done(queue[0]);
      queue := queue[1..];
    }

    /** `size`: the semaphore's value, which tracks sends minus receives; reading
        it from a destroyed semaphore raises std::system_error. */
    method Size() returns (r: Outcome<nat>)
      ensures r == (if event.destroyed then SystemError else Done(event.count))
      ensures Valid() && r.Done? ==> r.value == |queue|
    {
      r := if event.destroyed then SystemError else Done(event.count);
    }
  }
}
