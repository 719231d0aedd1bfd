// ThreadPoolManager: a runnable that, while `doRun` holds, takes a snapshot
// of its pool's statistics and decides whether to expand or reduce it.  The
// managed pool is foreign (its statistics are inputs, its `expand`/`reduce`
// calls are recorded).  The float comparison `tqdp > tc * 1.25` is stated
// over integers, and `size_t(log2(maxthreads))` as the integer floor of the
// binary logarithm.
module ThreadPoolManager {
  const SizeModulus: nat := 0x1_0000_0000_0000_0000

  /** `tpstats`: the snapshot one pass of the loop reads (the float
      overcommit ratio it also stores is not used by the decision). */
  datatype Stats = Stats(queueDepth: nat, threads: nat, passive: nat, active: nat, maxThreads: nat)

  function Pow2(k: nat): nat
  {
    if k == 0 then 1 else 2 * Pow2(k - 1)
  }

  /** `size_t(log2(n))` for n >= 1: the largest k with 2^k <= n. */
  function FloorLog2(n: nat): (k: nat)
    requires n >= 1
    ensures Pow2(k) <= n < Pow2(k + 1)
  {
    if n < 2 then 0 else 1 + FloorLog2(n / 2)
  }

  datatype Expansion = NoExpansion | ExpandBy(count: nat) | LogOfZero

  /** The expand rule: fewer passive threads than the ready minimum, fewer
      threads than the manager's maximum plus overcommit (a size_t sum), and a
      task queue more than 1.25 times the thread count.  The amount is
      floor(log2(pool maximum)); log2(0) is undefined (`LogOfZero`). */
  function ExpandRule(s: Stats, maxThreads: nat, minReady: nat, overcommit: nat): (e: Expansion)
    ensures e != NoExpansion <==>
      s.passive < minReady && s.threads < (maxThreads + overcommit) % SizeModulus &&
      4 * s.queueDepth > 5 * s.threads
    ensures e.ExpandBy? ==> s.maxThreads >= 1 && Pow2(e.count) <= s.maxThreads < Pow2(e.count + 1)
    ensures e == LogOfZero ==> s.maxThreads == 0
  {
    if s.passive < minReady && s.threads < (maxThreads + overcommit) % SizeModulus &&
       4 * s.queueDepth > 5 * s.threads
    then (if s.maxThreads == 0 then LogOfZero else ExpandBy(FloorLog2(s.maxThreads)))
    else NoExpansion
  }

  /** The reduce rule (by exactly one thread): more passive threads than the
      ready minimum, at least as many passive as active, and twice the queue
      depth (a size_t product) below the pool maximum. */
  predicate ReduceRule(s: Stats, minReady: nat)
    ensures ReduceRule(s, minReady) ==> s.passive > 0 && s.maxThreads > 0
  {
    s.passive > minReady && s.passive >= s.active && (2 * s.queueDepth) % SizeModulus < s.maxThreads
  }

  /** Expansion needs passive < minReady and reduction passive > minReady, so
      one snapshot never triggers both, and passive == minReady triggers neither. */
  lemma ExpandAndReduceExclusive(s: Stats, maxThreads: nat, minReady: nat, overcommit: nat)
    ensures !(ExpandRule(s, maxThreads, minReady, overcommit) != NoExpansion && ReduceRule(s, minReady))
    ensures s.passive == minReady ==>
      ExpandRule(s, maxThreads, minReady, overcommit) == NoExpansion && !ReduceRule(s, minReady)
  {
  }

  datatype Action = Expand(count: nat) | ExpandUndefined | Reduce(count: nat)

  /** The pool calls one pass makes for a snapshot: expand first, then reduce. */
  function PassActions(s: Stats, maxThreads: nat, minReady: nat, overcommit: nat): seq<Action>
  {
    (match ExpandRule(s, maxThreads, minReady, overcommit)
      case NoExpansion => []
      case ExpandBy(n) => [Expand(n)]
      case LogOfZero => [ExpandUndefined])
    + (if ReduceRule(s, minReady) then [Reduce(1)] else [])
  }

  /** One pass makes at most one call on the pool. */
  lemma AtMostOneActionPerPass(s: Stats, maxThreads: nat, minReady: nat, overcommit: nat)
    ensures |PassActions(s, maxThreads, minReady, overcommit)| <= 1
  {
    ExpandAndReduceExclusive(s, maxThreads, minReady, overcommit);
  }

  /** Each pass of the loop sees either a fresh snapshot, or that another
      thread called `shutdown`/`onCancel` before it. */
  datatype Pass = Snapshot(stats: Stats) | Stopped

  class Manager {
    const maxThreads: nat
    const minReady: nat
    /** `mOvercommitThreads`: the float argument truncated into a size_t. */
    const overcommit: nat
    var doRun: bool
    var stats: Stats
    /** The `expand`/`reduce` calls made on the pool. */
    var actions: seq<Action>

    constructor (maxThreads: nat, overcommit: nat, minReady: nat)
      ensures this.maxThreads == maxThreads && this.overcommit == overcommit && this.minReady == minReady
      ensures doRun && actions == []
    {
      this.maxThreads, this.overcommit, this.minReady := maxThreads, overcommit, minReady;
      doRun := true;
      stats := Stats(0, 0, 0, 0, 0);
      actions := [];
    }

    /** `shutdown` and `onCancel` both clear `doRun`, ending the loop. */
    method Shutdown()
      modifies this
      ensures !doRun && actions == old(actions) && stats == old(stats)
    {
      doRun := false;
    }

    /** `execute`: while `doRun`, store the pass's snapshot in `mTPStats` and
        act on that stored snapshot.  Returns the number of passes consumed. */
    method Execute(passes: seq<Pass>) returns (used: nat)
      modifies this
      ensures used <= |passes| && (doRun ==> used == |passes|)
      ensures !old(doRun) ==> used == 0 && actions == old(actions)
      ensures forall i :: 0 <= i < used - 1 ==> passes[i].Snapshot?
      ensures actions == old(actions) + Acted(passes[..used])
    {
      used := 0;
      while doRun && used < |passes|
        invariant used <= |passes|
        invariant !old(doRun) ==> used == 0 && !doRun
        invariant forall i :: 0 <= i < used ==> passes[i].Snapshot? || (i == used - 1 && !doRun)
        invariant actions == old(actions) + Acted(passes[..used])
        decreases |passes| - used
      {
        ActedSplit(passes, used);
        ghost var before := actions;
        PassStep(passes[used]);
        assert actions == before + Effect(passes[used]);
        used := used + 1;
      }
    }

    /** One pass of the loop body. */
    method PassStep(p: Pass)
      modifies this
      ensures actions == old(actions) + Effect(p)
      ensures doRun == (old(doRun) && p.Snapshot?)
    {
      match p {
        case Stopped =>
          doRun := false;
        case Snapshot(s) =>
          stats := s;
          var expansion := ExpandRule(stats, maxThreads, minReady, overcommit);
          match expansion {
            case NoExpansion =>
            case ExpandBy(n) => actions := actions + [Expand(n)];
            case LogOfZero => actions := actions + [ExpandUndefined];
          }
          if ReduceRule(stats, minReady) {
            actions := actions + [Reduce(1)];
          }
      }
    }

    /** The calls one pass makes. */
    function Effect(p: Pass): seq<Action>
    {
      match p
      case Stopped => []
      case Snapshot(s) => PassActions(s, maxThreads, minReady, overcommit)
    }

    /** The calls the passes make. */
    function Acted(passes: seq<Pass>): seq<Action>
      decreases |passes|
    {
      if passes == [] then []
      else Acted(passes[..|passes| - 1]) + Effect(passes[|passes| - 1])
    }

    lemma ActedSplit(passes: seq<Pass>, k: nat)
      requires k < |passes|
      ensures Acted(passes[..k + 1]) == Acted(passes[..k]) + Effect(passes[k])
    {
      assert passes[..k + 1][..k] == passes[..k];
    }
  }
}
