// PoolThread: a worker thread of the pool as a state machine.  The OS thread,
// its cancellation and the mutex are erased; the semaphore `iteration` is a
// counter; the poller's `update` calls and the runnable's `execute` /
// `onCancel` calls are recorded in logs.
module PoolThreads {
  import opened Wrappers
  import opened Semaphores

  /** The source's enum spells the last state CANCELED; `cleanup` uses
      CANCELLED, which is not declared. */
  datatype ThreadState = Init | Wait | Run | Done | Canceled

  datatype RunnableCall<R> = Execute(runnable: R) | OnCancel(runnable: R) | Shutdown(runnable: R)

  /** The states one pass of the `run` loop announces: WAIT while waiting for a
      runnable, then RUN and DONE around its execution if one was found. */
  function PassStates<R>(found: Option<R>): seq<ThreadState>
  {
    [Wait] + (if found.Some? then [Run, Done] else [])
  }

  /** Reference behaviour of `run` over the runnables found after each wake:
      the announced states and the runnables executed, in order. */
  function RunPasses<R>(found: seq<Option<R>>): (seq<ThreadState>, seq<R>)
    decreases |found|
  {
    if found == [] then ([], [])
    else
      var (states, ran) := RunPasses(found[1..]);
      (PassStates(found[0]) + states,
       (if found[0].Some? then [found[0].value] else []) + ran)
  }

  /** Every pass starts in WAIT, and every executed runnable is framed by RUN
      and DONE: the announced states are the passes' states concatenated, and
      the number of RUN announcements is the number of executions. */
  lemma {:induction false} RunAnnouncesEachExecution<R>(found: seq<Option<R>>)
    ensures |RunPasses(found).0| == |found| + 2 * |RunPasses(found).1|
    ensures found != [] ==> RunPasses(found).0[0] == Wait
    ensures forall i :: 0 <= i < |RunPasses(found).0| && RunPasses(found).0[i] == Run ==>
      i + 1 < |RunPasses(found).0| && RunPasses(found).0[i + 1] == Done && i > 0
    decreases |found|
  {
    if found != [] {
      RunAnnouncesEachExecution(found[1..]);
      var (states, ran) := RunPasses(found[1..]);
      var head := PassStates(found[0]);
      assert RunPasses(found).0 == head + states;
      forall i | 0 <= i < |head + states| && (head + states)[i] == Run
        ensures i + 1 < |head + states| && (head + states)[i + 1] == Done && i > 0
      {
        if i >= |head| {
          assert states[i - |head|] == Run;
        }
      }
    }
  }

  lemma Regroup<T>(a: seq<T>, b: seq<T>, c: seq<T>)
    ensures a + b + c == a + (b + c)
  {
  }

  /** The `execute` calls for the runnables run, in order. */
  function Executions<R>(ran: seq<R>): seq<RunnableCall<R>>
  {
    seq(|ran|, i requires 0 <= i < |ran| => Execute(ran[i]))
  }

  class PoolThread<R> {
    const id: nat
    const hasPoller: bool
    var state: ThreadState
    var ok: bool
    var runnable: Option<R>
    var iteration: Sem
    /** The `(thread id, state)` pairs passed to the poller's `update`. */
    var updates: seq<(nat, ThreadState)>
    /** Calls made on runnables. */
    var calls: seq<RunnableCall<R>>

    /** The constructor: no runnable, OK, then `init` announces INIT (and starts
        the OS thread); with no runnable there is nothing to post. */
    constructor (id: nat, hasPoller: bool)
      ensures this.id == id && this.hasPoller == hasPoller
      ensures ok && state == Init && runnable == None && iteration == Fresh && calls == []
      ensures updates == if hasPoller then [(id, Init)] else []
    {
      this.id, this.hasPoller := id, hasPoller;
      ok, runnable, iteration, calls := true, None, Fresh, [];
      updates := [];
      new;
      SetState(Init);
    }

    /** `notify`: forwards to the poller's `update` only when one is attached. */
    method Notify(report: (nat, ThreadState))
      modifies this
      ensures updates == old(updates) + (if hasPoller then [report] else [])
      ensures state == old(state) && ok == old(ok) && runnable == old(runnable)
      ensures iteration == old(iteration) && calls == old(calls)
    {
      if hasPoller {
        updates := updates + [report];
      }
    }

    /** `setState`: stores the state, then notifies `(thread id, state)`. */
    method SetState(s: ThreadState)
      modifies this
      ensures state == s
      ensures updates == old(updates) + (if hasPoller then [(id, s)] else [])
      ensures ok == old(ok) && runnable == old(runnable) && iteration == old(iteration) && calls == old(calls)
    {
      state := s;
      Notify((id, state));
    }

    /** `setNextRunnable`: accepted only while OK and in WAIT -- the runnable is
        stored and the iteration semaphore posted; otherwise ITCException EBUSY
        (false here) and nothing changes.  (The source calls `isOk`, which is
        not declared; `isOK` is meant.) */
    method SetNextRunnable(r: Option<R>) returns (accepted: bool)
      modifies this
      ensures accepted <==> old(ok) && old(state) == Wait
      ensures accepted ==> runnable == r && iteration == Post(old(iteration)).0
      ensures !accepted ==> runnable == old(runnable) && iteration == old(iteration)
      ensures state == old(state) && ok == old(ok) && updates == old(updates) && calls == old(calls)
    {
      if ok && state == Wait {
        runnable := r;
        iteration := Post(iteration).0;
        accepted := true;
      } else {
        accepted := false;
      }
    }

    /** The `update` calls that announcing `states` makes. */
    function Reports(states: seq<ThreadState>): seq<(nat, ThreadState)>
    {
      if hasPoller then seq(|states|, i requires 0 <= i < |states| => (id, states[i])) else []
    }

    lemma ReportsAppend(a: seq<ThreadState>, b: seq<ThreadState>)
      ensures Reports(a + b) == Reports(a) + Reports(b)
    {
    }

    /** The reports and executions of the first k + 1 passes: those of the
        first k, then those of pass k. */
    lemma PassReports(found: seq<Option<R>>, k: nat)
      requires k < |found|
      ensures Reports(RunPasses(found[..k + 1]).0) ==
        Reports(RunPasses(found[..k]).0) + Reports(PassStates(found[k]))
      ensures Executions(RunPasses(found[..k + 1]).1) ==
        Executions(RunPasses(found[..k]).1) + Executions(if found[k].Some? then [found[k].value] else [])
    {
      SplitPasses(found, k);
      ReportsAppend(RunPasses(found[..k]).0, PassStates(found[k]));
    }

    /** The `run` loop while OK, fed the runnable present after each wake: each
        pass announces WAIT and waits on the iteration semaphore
        (`getNextRunnable`), then, if a runnable is there, announces RUN,
        executes it and announces DONE.  The posts the passes consume are
        already pending, or the semaphore is destroyed. */
    method RunLoop(found: seq<Option<R>>)
      requires ok && (iteration.destroyed || iteration.count >= |found|)
      modifies this
      ensures updates == old(updates) + Reports(RunPasses(found).0)
      ensures calls == old(calls) + Executions(RunPasses(found).1)
      ensures ok && (found != [] ==> state == (if found[|found| - 1].Some? then Done else Wait))
      ensures iteration == if old(iteration).destroyed then old(iteration)
                           else old(iteration).(count := old(iteration).count - |found|)
      ensures runnable == if found == [] then old(runnable) else found[|found| - 1]
      ensures found == [] ==> state == old(state)
    {
      ghost var start := iteration;
      var k := 0;
      while k < |found|
        invariant 0 <= k <= |found| && ok
        invariant updates == old(updates) + Reports(RunPasses(found[..k]).0)
        invariant calls == old(calls) + Executions(RunPasses(found[..k]).1)
        invariant k > 0 ==> state == (if found[k - 1].Some? then Done else Wait)
        invariant k == 0 ==> state == old(state)
        invariant iteration == if start.destroyed then start else start.(count := start.count - k)
        invariant runnable == if k == 0 then old(runnable) else found[k - 1]
      {
        PassReports(found, k);
        RunOnePass(found[k]);
        Regroup(old(updates), Reports(RunPasses(found[..k]).0), Reports(PassStates(found[k])));
        Regroup(old(calls), Executions(RunPasses(found[..k]).1),
                Executions(if found[k].Some? then [found[k].value] else []));
        k := k + 1;
      }
      assert found[..|found|] == found;
    }

    /** One pass of the loop body: WAIT announced, one event of the
        iteration semaphore consumed, and the runnable found there run. */
    method RunOnePass(found: Option<R>)
      requires Ready(iteration)
      modifies this
      ensures updates == old(updates) + Reports(PassStates(found))
      ensures calls == old(calls) + Executions(if found.Some? then [found.value] else [])
      ensures state == (if found.Some? then Done else Wait) && ok == old(ok)
      ensures iteration == Semaphores.Wait(old(iteration)).0 && runnable == found
    {
      SetState(Wait);
      iteration := Semaphores.Wait(iteration).0;
      runnable := found;
      if found.Some? {
        SetState(Run);
        calls := calls + [Execute(found.value)];
        SetState(Done);
      }
    }

    /** `cleanup` (the cancellation handler): clears OK, announces the cancelled
        state, calls `onCancel` on the current runnable if there is one, and
        finally calls `setNextRunnable(NULL)` -- which, OK being false, always
        ends in ITCException EBUSY (`raisedBusy`). */
    method Cleanup() returns (raisedBusy: bool)
      modifies this
      ensures !ok && state == Canceled && raisedBusy
      ensures updates == old(updates) + (if hasPoller then [(id, Canceled)] else [])
      ensures calls == old(calls) + (if old(runnable).Some? then [OnCancel(old(runnable).value)] else [])
      ensures runnable == old(runnable) && iteration == old(iteration)
    {
      ok := false;
      SetState(Canceled);
      if runnable.Some? {
        calls := calls + [OnCancel(runnable.value)];
      }
      var accepted := SetNextRunnable(None);
      raisedBusy := !accepted;
    }

    /** The destructor: clears OK and calls `shutdown` on the current runnable
        if there is one (then cancels and joins the OS thread). */
    method Finalize()
      modifies this
      ensures !ok
      ensures calls == old(calls) + (if old(runnable).Some? then [Shutdown(old(runnable).value)] else [])
      ensures state == old(state) && runnable == old(runnable) && updates == old(updates)
      ensures iteration == old(iteration)
    {
      ok := false;
      if runnable.Some? {
        calls := calls + [Shutdown(runnable.value)];
      }
    }
  }

  /** Splitting the passes after the k-th one. */
  lemma {:induction false} SplitPasses<R>(found: seq<Option<R>>, k: nat)
    requires k < |found|
    ensures RunPasses(found[..k + 1]).0 == RunPasses(found[..k]).0 + PassStates(found[k])
    ensures RunPasses(found[..k + 1]).1 == RunPasses(found[..k]).1 + (if found[k].Some? then [found[k].value] else [])
    decreases k
  {
    if k > 0 {
      SplitPasses(found[1..], k - 1);
      assert found[1..][..k] == found[..k + 1][1..];
      assert found[1..][..k - 1] == found[..k][1..];
    }
  }
}
