// cfifo: a fixed ring of `limit` slots.  Each slot holds a busy flag, an item
// and its own semaphore; producers and consumers claim slots through two
// cursors that wrap to 0 at `limit`.  The compare-and-swap retry loops and
// the per-slot mutex are erased: sequentially each CAS succeeds at once.
module CFifo {
  import opened Wrappers

  /** One `sitem`: busy flag, stored item, pending posts of its semaphore. */
  datatype Slot<T> = Slot(busy: bool, item: T, pending: nat)

  /** `sitem::set`: a free slot stores the item, becomes busy, posts and
      reports true; a busy slot is left alone and reports false. */
  function SetItem<T>(s: Slot<T>, x: T): (r: (Slot<T>, bool))
    ensures r.1 <==> !s.busy
    ensures r.1 ==> r.0.busy && r.0.item == x && r.0.pending == s.pending + 1
    ensures !r.1 ==> r.0 == s
  {
    if s.busy then (s, false) else (Slot(true, x, s.pending + 1), true)
  }

  /** `sitem::fetch_and_clear` once its blocking wait has returned: a busy slot
      yields its item and becomes free; a free one yields nothing. */
  function FetchAndClear<T>(s: Slot<T>): (r: (Slot<T>, Option<T>))
    requires s.pending > 0
    ensures r.0.pending == s.pending - 1 && !r.0.busy && r.0.item == s.item
    ensures r.1 == (if s.busy then Some(s.item) else None)
  {
    (s.(busy := false, pending := s.pending - 1), if s.busy then Some(s.item) else None)
  }

  /** A slot's semaphore has exactly one pending post while it is busy. */
  predicate Balanced<T>(s: Slot<T>)
  {
    s.pending == if s.busy then 1 else 0
  }

  /** Storing into a free balanced slot and fetching it back returns the item
      and restores a free balanced slot. */
  lemma SetThenFetch<T>(s: Slot<T>, x: T)
    requires Balanced(s) && !s.busy
    ensures SetItem(s, x).1 && Balanced(SetItem(s, x).0)
    ensures FetchAndClear(SetItem(s, x).0).1 == Some(x)
    ensures Balanced(FetchAndClear(SetItem(s, x).0).0)
  {
  }

  /** The cursor step `(pos+1) < limit ? pos+1 : 0`. */
  function Advance(pos: nat, limit: nat): nat
  {
    if pos + 1 < limit then pos + 1 else 0
  }

  /** Advancing a cursor that sits at `k mod limit` puts it at `(k+1) mod limit`,
      so after k steps from 0 a cursor is at `k mod limit`, always below `limit`. */
  lemma AdvanceIsModular(k: nat, limit: nat)
    requires limit > 0
    ensures Advance(k % limit, limit) == (k + 1) % limit < limit
  {
    var q := k / limit;
    var p := k % limit;
    if p + 1 < limit {
      ModUnique(k + 1, limit, q, p + 1);
    } else {
      assert (q + 1) * limit == q * limit + limit;
      ModUnique(k + 1, limit, q + 1, 0);
    }
  }

  /** Euclidean division has one quotient and one remainder. */
  lemma ModUnique(a: int, b: int, q: int, r: int)
    requires b > 0 && 0 <= r < b && a == q * b + r
    ensures a % b == r
  {
    var q0, r0 := a / b, a % b;
    assert (q - q0) * b == r0 - r;
    if q > q0 {
      MulAtLeast(q - q0, b);
    } else if q < q0 {
      MulAtLeast(q0 - q, b);
    }
  }

  lemma MulAtLeast(x: int, b: int)
    requires x >= 1 && b > 0
    ensures x * b >= b
  {
    assert x * b == (x - 1) * b + b;
  }

  /** Steps from `from` forward to `to` around a ring of `limit` slots. */
  function Distance(from: nat, to: nat, limit: nat): nat
    requires from < limit
  {
    if from <= to then to - from else to + limit - from
  }

  /** One cursor step lengthens the distance from `from` by one, as long as
      it does not come round to `from` again. */
  lemma DistanceAdvance(from: nat, pos: nat, limit: nat)
    requires from < limit && pos < limit && Distance(from, pos, limit) + 1 < limit
    ensures Distance(from, Advance(pos, limit), limit) == Distance(from, pos, limit) + 1
  {
  }

  /** Positions of the ring lie at distinct distances from `from`. */
  lemma DistanceInjective(from: nat, a: nat, b: nat, limit: nat)
    requires from < limit && a < limit && b < limit
    requires Distance(from, a, limit) == Distance(from, b, limit)
    ensures a == b
  {
  }

  /** A free slot lies beyond every busy slot the scan has passed, so the
      scan has not yet come round the whole ring. */
  lemma FreeBeyond<T>(s: seq<Slot<T>>, from: nat, pos: nat)
    requires 0 < |s| && from < |s| && pos < |s| && s[pos].busy
    requires forall j :: 0 <= j < |s| && Distance(from, j, |s|) < Distance(from, pos, |s|) ==> s[j].busy
    requires exists j :: 0 <= j < |s| && !s[j].busy
    ensures Distance(from, pos, |s|) + 1 < |s|
  {
    var j :| 0 <= j < |s| && !s[j].busy;
    if Distance(from, j, |s|) == Distance(from, pos, |s|) {
      DistanceInjective(from, j, pos, |s|);
    }
  }

  /** The scan of `send`'s retries, having passed only busy slots up to
      `pos`: the first free slot from `pos` on, in ring order. */
  function FreeScan<T>(s: seq<Slot<T>>, from: nat, pos: nat): (i: nat)
    requires 0 < |s| && from < |s| && pos < |s|
    requires forall j :: 0 <= j < |s| && Distance(from, j, |s|) < Distance(from, pos, |s|) ==> s[j].busy
    requires exists j :: 0 <= j < |s| && !s[j].busy
    ensures i < |s| && !s[i].busy && Distance(from, pos, |s|) <= Distance(from, i, |s|)
    ensures forall j :: 0 <= j < |s| && Distance(from, j, |s|) < Distance(from, i, |s|) ==> s[j].busy
    decreases |s| - Distance(from, pos, |s|)
  {
    if !s[pos].busy then pos
    else
      FreeBeyond(s, from, pos);
      DistanceAdvance(from, pos, |s|);
      FreeScan(s, from, Advance(pos, |s|))
  }

  /** The slot `send` stores into: the first free slot at or after the push
      cursor `from`, going round the ring.  Every slot before it in that
      order is busy, which makes it the only such slot. */
  function FirstFree<T>(s: seq<Slot<T>>, from: nat): (i: nat)
    requires from < |s| && exists j :: 0 <= j < |s| && !s[j].busy
    ensures i < |s| && !s[i].busy
    ensures forall j :: 0 <= j < |s| && Distance(from, j, |s|) < Distance(from, i, |s|) ==> s[j].busy
  {
    FreeScan(s, from, from)
  }

  datatype Failure = OwnerDead

  /** What a call ends with: a value, or std::system_error EOWNERDEAD. */
  datatype Outcome<R> = Ok(value: R) | Err(error: Failure)

  class Fifo<T(0)> {
    var nextPush: nat
    var nextRead: nat
    var valid: bool
    const limit: nat
    const slots: array<Slot<T>>
    /** Number of `try_send` / `try_recv` calls that claimed a slot. */
    ghost var sends: nat
    ghost var receives: nat

    ghost predicate Valid()
      reads this, slots
    {
      slots.Length == limit && limit > 0 &&
      nextPush == sends % limit && nextRead == receives % limit &&
      forall i :: 0 <= i < limit ==> Balanced(slots[i])
    }

    /** `cfifo(qsz)`: `qsz` free slots, both cursors at 0, valid. */
    constructor (qsz: nat)
      requires qsz > 0
      ensures Valid() && fresh(slots) && limit == qsz && valid
      ensures nextPush == 0 && nextRead == 0 && sends == 0 && receives == 0
      ensures forall i :: 0 <= i < qsz ==> !slots[i].busy
    {
      var blank: T := *;
      limit := qsz;
      slots := new Slot<T>[qsz](_ => Slot(false, blank, 0));
      nextPush, nextRead, valid := 0, 0, true;
      sends, receives := 0, 0;
    }

    /** `try_send`: throws once invalid; otherwise claims the slot at the push
        cursor (the `sends`-th claim, slot `sends mod limit`), advances the
        cursor, and stores the item there if the slot is free.  A busy slot
        gives false although the cursor has moved. */
    method TrySend(x: T) returns (r: Outcome<bool>)
      requires Valid()
      modifies this, slots
      ensures Valid() && valid == old(valid) && nextRead == old(nextRead)
      ensures !old(valid) ==> (r == Err(OwnerDead) && nextPush == old(nextPush) &&
                               sends == old(sends) && slots[..] == old(slots[..]))
      ensures old(valid) ==>
        sends == old(sends) + 1 && nextPush == Advance(old(nextPush), limit) &&
        old(nextPush) == old(sends) % limit &&
        r == Ok(!old(slots[nextPush].busy)) &&
        slots[..] == old(slots[..])[old(nextPush) := SetItem(old(slots[nextPush]), x).0]
      ensures receives == old(receives)
    {
      if !valid {
        return Err(OwnerDead);
      }
      var pos := nextPush;
      AdvanceIsModular(sends, limit);
      nextPush := Advance(pos, limit);
      sends := sends + 1;
      var slot, stored := SetItem(slots[pos], x).0, SetItem(slots[pos], x).1;
      slots[pos] := slot;
      r := Ok(stored);
    }

    /** `send`: retries `try_send` until a slot takes the item.  Each failed try
        moves the cursor one slot on, so the item lands in the first free slot
        from the push cursor, and the cursor ends just past it.  Some free
        slot must exist (otherwise the call waits for a consumer, which the
        sequential model excludes). */
    method Send(x: T) returns (r: Outcome<()>)
      requires Valid()
      requires valid ==> exists i :: 0 <= i < limit && !slots[i].busy
      modifies this, slots
      ensures Valid() && valid == old(valid) && receives == old(receives) && nextRead == old(nextRead)
      ensures !old(valid) <==> r == Err(OwnerDead)
      ensures !old(valid) ==> (nextPush == old(nextPush) && sends == old(sends) &&
                               slots[..] == old(slots[..]))
      ensures old(valid) ==>
        var i := FirstFree(old(slots[..]), old(nextPush));
        && slots[..] == old(slots[..])[i := SetItem(old(slots[i]), x).0]
        && sends == old(sends) + Distance(old(nextPush), i, limit) + 1
        && nextPush == Advance(i, limit)
    {
      if !valid {
        return Err(OwnerDead);
      }
      ghost var start := nextPush;
      ghost var free := FirstFree(slots[..], nextPush);
      var stored := false;
      while !stored
        invariant Valid() && valid && receives == old(receives) && nextRead == old(nextRead)
        invariant !stored ==>
          && slots[..] == old(slots[..]) && nextPush < limit
          && Distance(start, nextPush, limit) <= Distance(start, free, limit)
          && sends == old(sends) + Distance(start, nextPush, limit)
        invariant stored ==>
          && slots[..] == old(slots[..])[free := SetItem(old(slots[free]), x).0]
          && sends == old(sends) + Distance(start, free, limit) + 1
          && nextPush == Advance(free, limit)
        decreases !stored, Distance(start, free, limit) - Distance(start, nextPush, limit)
      {
        ghost var pos := nextPush;
        var t := TrySend(x);
        stored := t.value;
        if !stored {
          assert pos != free;
          if Distance(start, pos, limit) == Distance(start, free, limit) {
            DistanceInjective(start, pos, free, limit);
          }
          DistanceAdvance(start, pos, limit);
        } else {
          DistanceInjective(start, pos, free, limit);
        }
      }
      r := Ok(());
    }

    /** `try_recv`: throws once invalid; otherwise claims the slot at the read
        cursor (the `receives`-th claim, slot `receives mod limit`), advances the
        cursor, waits on that slot and fetches its item. */
    method TryRecv() returns (r: Outcome<Option<T>>)
      requires Valid()
      requires valid ==> slots[nextRead].pending > 0
      modifies this, slots
      ensures Valid() && valid == old(valid) && nextPush == old(nextPush) && sends == old(sends)
      ensures !old(valid) ==> (r == Err(OwnerDead) && nextRead == old(nextRead) &&
                               receives == old(receives) && slots[..] == old(slots[..]))
      ensures old(valid) ==>
        receives == old(receives) + 1 && nextRead == Advance(old(nextRead), limit) &&
        old(nextRead) == old(receives) % limit &&
        r == Ok(Some(old(slots[nextRead].item))) &&
        slots[..] == old(slots[..])[old(nextRead) := FetchAndClear(old(slots[nextRead])).0]
    {
      if !valid {
        return Err(OwnerDead);
      }
      var pos := nextRead;
      AdvanceIsModular(receives, limit);
      nextRead := Advance(pos, limit);
      receives := receives + 1;
      var slot, got := FetchAndClear(slots[pos]).0, FetchAndClear(slots[pos]).1;
      slots[pos] := slot;
      r := Ok(got);
    }

    /** `recv`: retries `try_recv` until it yields an item.  The wait inside
        `fetch_and_clear` blocks until the slot at the read cursor is filled,
        and a filled slot is busy, so the first try succeeds. */
    method Recv() returns (r: Outcome<T>)
      requires Valid()
      requires valid ==> slots[nextRead].busy
      modifies this, slots
      ensures Valid() && valid == old(valid) && nextPush == old(nextPush) && sends == old(sends)
      ensures !old(valid) <==> r == Err(OwnerDead)
      ensures !old(valid) ==> (nextRead == old(nextRead) && receives == old(receives) &&
                               slots[..] == old(slots[..]))
      ensures r.Ok? ==>
        && r.value == old(slots[nextRead].item) && receives == old(receives) + 1
        && nextRead == Advance(old(nextRead), limit)
        && slots[..] == old(slots[..])[old(nextRead) := FetchAndClear(old(slots[nextRead])).0]
    {
      var t := TryRecv();
      if t.Err? {
        return Err(OwnerDead);
      }
      r := Ok(t.value.value);
    }

    /** The destructor: clears `valid`, so later calls throw. */
    method Invalidate()
      modifies this
      ensures !valid && nextPush == old(nextPush) && nextRead == old(nextRead)
      ensures sends == old(sends) && receives == old(receives)
      ensures old(Valid()) ==> Valid()
    {
      valid := false;
    }
  }

  /** Scenario: on a fresh ring of two slots, two blocking sends fill slots 0
      and 1 in turn, and two blocking receives return the items in the order
      they were sent. */
  method SendThenRecvInOrder() returns (first: Outcome<int>, second: Outcome<int>)
    ensures first == Ok(7) && second == Ok(8)
  {
    var f := new Fifo<int>(2);
    assert !f.slots[0].busy;
    var s1 := f.Send(7);
    assert f.slots[0].busy && f.slots[0].item == 7;
    assert !f.slots[1].busy;
    var s2 := f.Send(8);
    assert f.slots[1].busy && f.slots[1].item == 8;
    first := f.Recv();
    second := f.Recv();
  }
}
