// ClientSocketsFactory: a queue of prebuilt client sockets.  Socket
// construction is foreign; sockets are named by the order they were built in.
module ClientSocketsFactory {
  /** Pool size after one `getBlindSocket` as written: the source declares
      `size_t depth = size() > minQL`, so `depth` is the comparison (0 or 1);
      when the pool is not above `minQL` the refill loop starts at 0 and adds
      `maxPrebuild` sockets whatever the pool already holds. */
  function SizeAfterAsWritten(size: nat, maxPrebuild: nat, minQL: nat): nat
    requires size > minQL || size + maxPrebuild > 0
  {
    if size > minQL then size - 1 else size + maxPrebuild - 1
  }

  /** Pool size after one intended `getBlindSocket`: `depth` is the pool size
      and the loop tops the pool up to `maxPrebuild` before handing one out. */
  function SizeAfter(size: nat, maxPrebuild: nat, minQL: nat): nat
    requires size > minQL || size > 0 || maxPrebuild > 0
  {
    if size > minQL then size - 1
    else if size < maxPrebuild then maxPrebuild - 1
    else size - 1
  }

  /** Sockets the refill loop `for (i = depth; i < maxPrebuild; ...)` builds. */
  function Shortfall(depth: nat, maxPrebuild: nat): nat
  {
    if depth < maxPrebuild then maxPrebuild - depth else 0
  }

  /** As written the pool outgrows `maxPrebuild`: with maxPrebuild = 2 and
      minQL = 5 the constructor builds 2 sockets, and two calls leave 4. */
  lemma PoolOutgrowsMaximum()
    ensures SizeAfterAsWritten(SizeAfterAsWritten(2, 2, 5), 2, 5) == 4 > 2
  {
  }

  /** As written, every call that finds the pool at or below `minQL` grows it
      by maxPrebuild - 1. */
  lemma AsWrittenGrowth(size: nat, maxPrebuild: nat, minQL: nat)
    requires size <= minQL && maxPrebuild > 0
    ensures SizeAfterAsWritten(size, maxPrebuild, minQL) == size + maxPrebuild - 1
  {
  }

  /** The intended refill keeps the pool within `maxPrebuild` sockets once it
      is, and leaves at least maxPrebuild - 1 behind after a refill. */
  lemma PoolStaysWithinMaximum(size: nat, maxPrebuild: nat, minQL: nat)
    requires size <= maxPrebuild && maxPrebuild > 0
    ensures SizeAfter(size, maxPrebuild, minQL) < maxPrebuild
    ensures size <= minQL ==> SizeAfter(size, maxPrebuild, minQL) == maxPrebuild - 1
  {
  }

  class Factory {
    const maxPrebuild: nat
    const minQL: nat
    var pool: seq<nat>
    var built: nat

    /** The pool never holds more than `maxPrebuild` sockets, all built already. */
    ghost predicate Valid()
      reads this
    {
      |pool| <= maxPrebuild && forall i :: 0 <= i < |pool| ==> pool[i] < built
    }

    /** The constructor prebuilds exactly `maxPrebuild` sockets. */
    constructor (maxPrebuild: nat, minQL: nat)
      ensures this.maxPrebuild == maxPrebuild && this.minQL == minQL
      ensures pool == seq(maxPrebuild, i => i) && built == maxPrebuild && Valid()
    {
      this.maxPrebuild, this.minQL := maxPrebuild, minQL;
      pool, built := [], 0;
      new;
      while built < maxPrebuild
        invariant built <= maxPrebuild && pool == seq(built, i => i)
      {
        pool := pool + [built];
        built := built + 1;
      }
    }

    /** Pushes `count` newly built sockets. */
    method Build(count: nat)
      modifies this
      ensures built == old(built) + count
      ensures pool == old(pool) + seq(count, i => old(built) + i)
    {
      var i := 0;
      while i < count
        invariant i <= count && built == old(built) + i
        invariant pool == old(pool) + seq(i, k => old(built) + k)
      {
        pool := pool + [built];
        built := built + 1;
        i := i + 1;
      }
    }

    /** `getBlindSocket` as written: above `minQL` the oldest socket is handed
        out; otherwise `maxPrebuild` sockets are built first. */
    method GetBlindSocketAsWritten() returns (socket: nat)
      requires |pool| > minQL || |pool| + maxPrebuild > 0
      modifies this
      ensures |pool| == SizeAfterAsWritten(|old(pool)|, maxPrebuild, minQL)
      ensures |old(pool)| > minQL ==> socket == old(pool)[0] && pool == old(pool)[1..]
      ensures |old(pool)| <= minQL ==>
        [socket] + pool == old(pool) + seq(maxPrebuild, i => old(built) + i)
    {
      var depth := if |pool| > minQL then 1 else 0;
      if depth != 0 {
        socket := pool[0];
        pool := pool[1..];
      } else {
        Build(maxPrebuild - depth);
        socket := pool[0];
        pool := pool[1..];
      }
    }

    /** `getBlindSocket` as intended: at or below `minQL` the pool is topped up
        to `maxPrebuild`, then the oldest socket is handed out. */
    method GetBlindSocket() returns (socket: nat)
      requires |pool| > minQL || |pool| > 0 || maxPrebuild > 0
      modifies this
      ensures |pool| == SizeAfter(|old(pool)|, maxPrebuild, minQL)
      ensures |old(pool)| > minQL ==> socket == old(pool)[0] && pool == old(pool)[1..]
      ensures |old(pool)| <= minQL ==>
        [socket] + pool == old(pool) + seq(Shortfall(|old(pool)|, maxPrebuild), i => old(built) + i)
      ensures old(Valid()) ==> Valid() && socket < built
    {
      var depth := |pool|;
      if depth > minQL {
        socket := pool[0];
        pool := pool[1..];
      } else {
        Build(Shortfall(depth, maxPrebuild));
        socket := pool[0];
        pool := pool[1..];
      }
      if old(Valid()) {
        assert forall i :: 0 <= i < |old(pool)| ==> old(pool)[i] < built;
        assert socket < built;
      }
    }
  }
}
