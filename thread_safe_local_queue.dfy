// ThreadSafeLocalQueue: a std::queue guarded by a mutex, with a semaphore
// ("trigger") posted once per message.  The mutex is erased.
module ThreadSafeLocalQueue {
  import opened Wrappers
  import opened Semaphores
  import Fifo

  class LocalQueue<T> {
    var queue: seq<T>
    var trigger: Sem

    /** Until `destroy`, the trigger counts exactly the queued messages. */
    ghost predicate Valid()
      reads this
    {
      trigger.destroyed || trigger.count == |queue|
    }

    constructor ()
      ensures queue == [] && trigger == Fresh && Valid()
    {
      queue := [];
      trigger := Fresh;
    }

    /** `send`: appends at the back, posts the trigger once and reports success
        whatever the post did. */
    method Send(msg: T) returns (ok: bool)
      modifies this
      ensures ok
      ensures queue == old(queue) + [msg] == Fifo.Run(old(queue), [Fifo.Push(msg)]).0
      ensures trigger == Post(old(trigger)).0
      ensures old(Valid()) ==> Valid()
    {
      queue := queue + [msg];
      trigger := Post(trigger).0;
      ok := true;
    }

    /** `recv`: after the wait returns, takes the front message if there is one;
        an empty queue yields failure and stays as it was.  The wait's own
        result is ignored, so a destroyed queue still hands out what it holds. */
    method Recv() returns (r: Option<T>)
      requires Ready(trigger)
      modifies this
      ensures trigger == Wait(old(trigger)).0
      ensures old(queue) == [] ==> r == None && queue == []
      ensures old(queue) != [] ==> r == Some(old(queue)[0]) && queue == old(queue)[1..]
      ensures queue == Fifo.Run(old(queue), [Fifo.Pop]).0
      ensures old(Valid()) ==> Valid()
    {
      trigger := Wait(trigger).0;
      if queue != [] {
        r := Some(queue[0]);
        queue := queue[1..];
      } else {
        r := None;
      }
    }

    /** `depth`: the number of queued messages. */
    method Depth() returns (n: nat)
      ensures n == |queue|
    {
      n := |queue|;
    }

    /** `destroy` (also run by the destructor): only the trigger is destroyed;
        queued messages stay. */
    method Destroy()
      modifies this
      ensures trigger == Semaphores.Destroy(old(trigger)) && queue == old(queue)
      ensures Valid()
    {
      trigger := Semaphores.Destroy(trigger);
    }
  }
}
