// ThreadPool<TBlockPolicy, TDiscardPolicy>: dispatches runnables to pool
// threads.  Threads are named by ids handed out in creation order (the
// pthread ids are foreign); a thread's own behaviour is PoolThreads.  The
// failures the source catches are inputs: `registration` says whether
// appending to the active list threw, or the insert into the id map threw
// after the thread had been appended, and `assignFails` that the thread's
// `setNextRunnable` threw.
module ThreadPool {
  /** size_t arithmetic: the counter is unsigned and `--` at 0 wraps. */
  const SizeMax: nat := 0xFFFF_FFFF_FFFF_FFFF

  function Dec(x: nat): nat
  {
    if x == 0 then SizeMax else x - 1
  }

  /** What blocks the caller when the pool is saturated (EnqueueBlockPolicy). */
  datatype BlockPolicy = Async | Sync | Discard
  /** How failures are reported (EnqueueDiscardPolicy). */
  datatype ErrorPolicy = ReturnFalse | Throw

  /** Where a runnable goes: to the oldest passive thread, to a new thread, or
      -- with no passive thread and the maximum reached -- wherever the
      blocking policy sends it. */
  datatype Route = TakePassive | Spawn | QueueTask | WaitForThread | DiscardTask

  /** The dispatch order shared by every `enqueue` overload. */
  function Dispatch(hasPassive: bool, started: nat, max: nat, block: BlockPolicy): (r: Route)
    ensures r == TakePassive <==> hasPassive
    ensures r == Spawn <==> !hasPassive && started < max
    ensures r == QueueTask <==> !hasPassive && started >= max && block == Async
    ensures r == WaitForThread <==> !hasPassive && started >= max && block == Sync
    ensures r == DiscardTask <==> !hasPassive && started >= max && block == Discard
  {
    if hasPassive then TakePassive
    else if started < max then Spawn
    else match block
      case Async => QueueTask
      case Sync => WaitForThread
      case Discard => DiscardTask
  }

  /** How registering the chosen thread went: `push_back` onto the active
      list threw, or it succeeded and the id-map insert after it threw. */
  datatype Registration = Registered | PushFails | InsertFails

  datatype Raise = CannotAssign | Busy
  /** `true`, `false`, an ITCException, or (SYNC only) blocking on the
      passive-thread semaphore, where the source's retry does not compile. */
  datatype Outcome = Accepted | Rejected | Raised(reason: Raise) | Blocked

  /** How a caught failure is reported under each error policy. */
  function Failure(onError: ErrorPolicy): (r: Outcome)
    ensures r == Rejected || r == Raised(CannotAssign)
  {
    if onError == ReturnFalse then Rejected else Raised(CannotAssign)
  }

  /** Passive threads and the counter after the constructor loop as written:
      the counter goes up in the `for` header and again in the body, so each
      pass adds one thread and two to the counter. */
  function PrestartAsWritten(started: nat, min: nat): (r: (nat, nat))
    ensures r.1 == started + 2 * r.0 && r.1 >= min
    decreases min - started
  {
    if started < min then
      var (threads, counter) := PrestartAsWritten(started + 2, min);
      (threads + 1, counter)
    else (0, started)
  }

  /** The intended loop: one thread and one count per pass. */
  function Prestart(started: nat, min: nat): (r: (nat, nat))
    ensures r.1 == started + r.0 && r.1 >= min
    decreases min - started
  {
    if started < min then
      var (threads, counter) := Prestart(started + 1, min);
      (threads + 1, counter)
    else (0, started)
  }

  /** As written, the constructor starts ceil(min/2) threads and leaves the
      counter at 2*ceil(min/2): with min = max = 3 the pool holds 2 threads
      but counts 4, above its maximum. */
  lemma {:induction false} PrestartAsWrittenCounts(started: nat, min: nat)
    requires started <= min && (min - started) % 2 == 0
    ensures PrestartAsWritten(started, min) == ((min - started) / 2, min)
    decreases min - started
  {
    if started < min {
      PrestartAsWrittenCounts(started + 2, min);
    }
  }

  lemma {:induction false} PrestartAsWrittenOdd(started: nat, min: nat)
    requires started <= min && (min - started) % 2 == 1
    ensures PrestartAsWritten(started, min) == ((min - started + 1) / 2, min + 1)
    decreases min - started
  {
    if started + 1 < min {
      PrestartAsWrittenOdd(started + 2, min);
    } else {
      assert PrestartAsWritten(started + 2, min) == (0, started + 2);
    }
  }

  lemma ConstructorOvershoot()
    ensures PrestartAsWritten(0, 3) == (2, 4)
  {
    PrestartAsWrittenOdd(0, 3);
  }

  /** The intended loop starts exactly `min` threads and counts them, so the
      counter never exceeds the maximum when min <= max. */
  lemma {:induction false} PrestartCounts(started: nat, min: nat)
    requires started <= min
    ensures Prestart(started, min) == (min - started, min)
    decreases min - started
  {
    if started < min {
      PrestartCounts(started + 1, min);
    }
  }

  class Pool<Task> {
    const block: BlockPolicy
    const onError: ErrorPolicy
    const minThreads: nat
    const maxThreads: nat
    var passive: seq<nat>
    var active: seq<nat>
    var threadIndex: map<nat, nat>
    var tasks: seq<Task>
    var started: nat
    /** The runnable each thread was handed by `setNextRunnable`. */
    var runnables: map<nat, Task>
    /** Posts of `mHavePassiveThreads`. */
    var passivePosts: nat
    /** The id the next created thread will get. */
    var nextId: nat

    /** The constructor as written: ceil(min/2) passive threads, each posting
        `mHavePassiveThreads`, and the counter two ahead per thread. */
    constructor AsWritten(block: BlockPolicy, onError: ErrorPolicy, min: nat, max: nat)
      ensures this.block == block && this.onError == onError
      ensures minThreads == min && maxThreads == max
      ensures (|passive|, started) == PrestartAsWritten(0, min)
      ensures passive == seq(|passive|, i => i) && passivePosts == |passive| && nextId == |passive|
      ensures active == [] && threadIndex == map[] && tasks == [] && runnables == map[]
    {
      this.block, this.onError := block, onError;
      minThreads, maxThreads := min, max;
      active, threadIndex, tasks, runnables := [], map[], [], map[];
      passive, passivePosts, nextId := [], 0, 0;
      started := 0;
      new;
      while started < min
        invariant PrestartAsWritten(started, min).0 + |passive| == PrestartAsWritten(0, min).0
        invariant PrestartAsWritten(started, min).1 == PrestartAsWritten(0, min).1
        invariant passive == seq(|passive|, i => i) && passivePosts == |passive| && nextId == |passive|
        invariant active == [] && threadIndex == map[] && tasks == [] && runnables == map[]
        decreases min - started
      {
        passive := passive + [nextId];
        nextId := nextId + 1;
        passivePosts := passivePosts + 1;
        started := started + 1;
        started := started + 1;
      }
    }

    /** The intended constructor: `min` passive threads, counted once each. */
    constructor (block: BlockPolicy, onError: ErrorPolicy, min: nat, max: nat)
      ensures this.block == block && this.onError == onError
      ensures minThreads == min && maxThreads == max
      ensures |passive| == min && started == min
      ensures (min <= max ==> started <= maxThreads)
      ensures passive == seq(min, i => i) && passivePosts == min && nextId == min
      ensures active == [] && threadIndex == map[] && tasks == [] && runnables == map[]
    {
      this.block, this.onError := block, onError;
      minThreads, maxThreads := min, max;
      active, threadIndex, tasks, runnables := [], map[], [], map[];
      passive, passivePosts, nextId := [], 0, 0;
      started := 0;
      new;
      while started < min
        invariant started <= min && |passive| == started
        invariant passive == seq(|passive|, i => i) && passivePosts == |passive| && nextId == |passive|
        invariant active == [] && threadIndex == map[] && tasks == [] && runnables == map[]
        decreases min - started
      {
        passive := passive + [nextId];
        nextId := nextId + 1;
        passivePosts := passivePosts + 1;
        started := started + 1;
      }
    }

    /** `enqueue` under the pool's two policies.  A passive thread is taken from
        the front of the passive queue, appended to the active list and mapped
        to its index there; otherwise, under the maximum, a new thread is
        created, registered and counted; otherwise the block policy decides.
        The chosen thread is then handed the runnable. */
    method Enqueue(task: Task, registration: Registration, assignFails: bool) returns (r: Outcome)
      modifies this
      ensures var route := Dispatch(old(passive) != [], old(started), maxThreads, block);
        && (route == TakePassive ==>
              passive == old(passive)[1..] && nextId == old(nextId) && tasks == old(tasks) &&
              (registration != Registered ==>
                 r == Failure(onError) && started == Dec(old(started)) &&
                 active == old(active) + (if registration == InsertFails then [old(passive)[0]] else []) &&
                 threadIndex == old(threadIndex) && runnables == old(runnables)) &&
              (registration == Registered ==>
                 started == old(started) &&
                 active == old(active) + [old(passive)[0]] &&
                 threadIndex == old(threadIndex)[old(passive)[0] := |old(active)|] &&
                 (assignFails ==> r == Failure(onError) && runnables == old(runnables)) &&
                 (!assignFails ==> r == Accepted && runnables == old(runnables)[old(passive)[0] := task])))
        && (route == Spawn ==>
              passive == old(passive) && nextId == old(nextId) + 1 && tasks == old(tasks) &&
              (registration != Registered ==>
                 r == Failure(onError) &&
                 active == old(active) + (if registration == InsertFails then [old(nextId)] else []) &&
                 threadIndex == old(threadIndex) && runnables == old(runnables) &&
                 started == (if block == Async && onError == ReturnFalse
                             then old(started) else Dec(old(started)))) &&
              (registration == Registered ==>
                 started == old(started) + 1 &&
                 active == old(active) + [old(nextId)] &&
                 threadIndex == old(threadIndex)[old(nextId) := |old(active)|] &&
                 (assignFails ==> r == Failure(onError) && runnables == old(runnables)) &&
                 (!assignFails ==> r == Accepted && runnables == old(runnables)[old(nextId) := task])))
        && (route == QueueTask ==>
              r == Accepted && tasks == old(tasks) + [task] &&
              passive == old(passive) && active == old(active) && started == old(started) &&
              threadIndex == old(threadIndex) && runnables == old(runnables) && nextId == old(nextId))
        && (route == WaitForThread || route == DiscardTask ==>
              r == (if route == WaitForThread then Blocked
                    else if onError == ReturnFalse then Rejected else Raised(Busy)) &&
              tasks == old(tasks) && passive == old(passive) && active == old(active) &&
              started == old(started) && threadIndex == old(threadIndex) &&
              runnables == old(runnables) && nextId == old(nextId))
      ensures passivePosts == old(passivePosts)
      ensures started != old(started) ==> started == old(started) + 1 <= maxThreads || started == Dec(old(started))
    {
      var route := Dispatch(passive != [], started, maxThreads, block);
      var id: nat;
      match route {
        case TakePassive =>
          id := passive[0];
          passive := passive[1..];
          if registration != Registered {
            if registration == InsertFails {
              active := active + [id];
            }
            started := Dec(started);
            return Failure(onError);
          }
          threadIndex := threadIndex[id := |active|];
          active := active + [id];
        case Spawn =>
          id := nextId;
          nextId := nextId + 1;
          if registration != Registered {
            if registration == InsertFails {
              active := active + [id];
            }
            if !(block == Async && onError == ReturnFalse) {
              started := Dec(started);
            }
            return Failure(onError);
          }
          threadIndex := threadIndex[id := |active|];
          active := active + [id];
          started := started + 1;
        case QueueTask =>
          tasks := tasks + [task];
          return Accepted;
        case WaitForThread =>
          return Blocked;
        case DiscardTask =>
          return if onError == ReturnFalse then Rejected else Raised(Busy);
      }
      if assignFails {
        return Failure(onError);
      }
      runnables := runnables[id := task];
      r := Accepted;
    }
  }
}
