// PersistentQueue: a message queue backed by an LMDB database.  Every sent
// message gets the next key from a counter, is written to the database
// through the writer adapter and is queued in memory together with its key;
// a receive hands out the front message and key as a transaction.  On
// construction the records still stored in the database are loaded; the
// database cursor is an input sequence of (key, data) records in cursor
// order.
module PersistentQueues {
  import opened Semaphores
  import opened QueueTxns

  const KeyModulus: nat := 0x1_0000_0000_0000_0000

  /** What a receive yields: a transaction, or the exception it throws
      (`ImplementationForbidden` only from `recv(DataType&)`). */
  datatype Received<T> = Txn(txn: QueueTxn<T>) | QueueOutOfSync | CannotLockMutex | ImplementationForbidden

  /** The records `load` takes: the first one unconditionally (the loop is a
      do-while), then following records until one whose key is 0, which the
      loop reads as the end. */
  function Loaded<T>(records: seq<(U64, T)>): (r: seq<(U64, T)>)
    ensures |r| <= |records| && (records != [] <==> r != [])
  {
    if records == [] then [] else [records[0]] + Continued(records[1..])
  }

  function Continued<T>(records: seq<(U64, T)>): (r: seq<(U64, T)>)
    ensures |r| <= |records|
    ensures forall i :: 0 <= i < |r| ==> r[i].0 != 0
  {
    if records == [] || records[0].0 == 0 then [] else [records[0]] + Continued(records[1..])
  }

  /** `load` takes a prefix of the records: all of them, or up to the first
      record after the first whose key is 0; a non-empty database always
      yields at least one record. */
  lemma LoadedIsPrefix<T>(records: seq<(U64, T)>)
    ensures var r := Loaded(records);
      && r <= records
      && (records != [] ==> r != [])
      && (forall i :: 0 < i < |r| ==> r[i].0 != 0)
      && (|r| < |records| ==> |r| > 0 && records[|r|].0 == 0)
  {
    if records != [] {
      ContinuedIsPrefix(records[1..]);
    }
  }

  lemma {:induction false} ContinuedIsPrefix<T>(records: seq<(U64, T)>)
    ensures var r := Continued(records);
      && r <= records
      && (forall i :: 0 <= i < |r| ==> r[i].0 != 0)
      && (|r| < |records| ==> records[|r|].0 == 0)
  {
    if records != [] && records[0].0 != 0 {
      ContinuedIsPrefix(records[1..]);
    }
  }

  /** One more record taken by the loop. */
  lemma ContinuedStep<T>(rest: seq<(U64, T)>, j: nat)
    requires j < |rest| && rest[j].0 != 0
    requires Continued(rest) == rest[..j] + Continued(rest[j..])
    ensures Continued(rest) == rest[..j + 1] + Continued(rest[j + 1..])
    ensures rest[..j + 1] == rest[..j] + [rest[j]]
  {
    ContinuedCons(rest[j..]);
    assert rest[j..][0] == rest[j] && rest[j..][1..] == rest[j + 1..];
    assert rest[..j + 1] == rest[..j] + [rest[j]];
    Regrouped(Continued(rest), rest[..j], rest[j], Continued(rest[j..]), Continued(rest[j + 1..]));
  }

  lemma Regrouped<E>(whole: seq<E>, a: seq<E>, x: E, t: seq<E>, c: seq<E>)
    requires whole == a + t && t == [x] + c
    ensures whole == a + [x] + c
  {
  }

  lemma ContinuedCons<T>(records: seq<(U64, T)>)
    requires records != [] && records[0].0 != 0
    ensures Continued(records) == [records[0]] + Continued(records[1..])
  {
  }

  /** Loading keeps the keys of the database distinct. */
  lemma LoadedDistinct<T>(records: seq<(U64, T)>)
    requires Distinct(KeysOf(records))
    ensures Distinct(KeysOf(Loaded(records)))
  {
    LoadedIsPrefix(records);
    var r := Loaded(records);
    assert forall i :: 0 <= i < |r| ==> KeysOf(r)[i] == KeysOf(records)[i];
  }

  function KeysOf<T>(records: seq<(U64, T)>): seq<U64>
  {
    seq(|records|, i requires 0 <= i < |records| => records[i].0)
  }

  function DataOf<T>(records: seq<(U64, T)>): seq<T>
  {
    seq(|records|, i requires 0 <= i < |records| => records[i].1)
  }

  lemma RecordsAppend<T>(rs: seq<(U64, T)>, r: (U64, T))
    ensures KeysOf(rs + [r]) == KeysOf(rs) + [r.0]
    ensures DataOf(rs + [r]) == DataOf(rs) + [r.1]
  {
  }

  lemma RecordsPrepend<T>(r: (U64, T), rs: seq<(U64, T)>)
    ensures KeysOf([r] + rs) == [r.0] + KeysOf(rs)
    ensures DataOf([r] + rs) == [r.1] + DataOf(rs)
  {
  }

  /** The largest key among the records (0 when there are none). */
  function MaxKey(keys: seq<U64>): (m: U64)
    ensures forall i :: 0 <= i < |keys| ==> keys[i] <= m
    ensures keys != [] ==> m in keys
  {
    if keys == [] then 0
    else
      var rest := MaxKey(keys[1..]);
      if keys[0] >= rest then keys[0] else rest
  }

  /** No key is queued twice. */
  ghost predicate Distinct(keys: seq<U64>)
  {
    forall i, j :: 0 <= i < j < |keys| ==> keys[i] != keys[j]
  }

  class PersistentQueue<T> {
    const adapter: Adapter<T>
    var data: seq<T>
    var keys: seq<U64>
    var trigger: Sem
    var newKey: U64
    var mayRun: bool

    /** The two queues move in lockstep; until `destroy`, which also stops
        the queue, the trigger counts the queued messages. */
    ghost predicate Valid()
      reads this
    {
      && |data| == |keys|
      && (mayRun <==> !trigger.destroyed)
      && (trigger.destroyed || trigger.count == |data|)
    }

    /** Every queued key is distinct and no larger than the counter, so the
        next send's key is new. */
    ghost predicate KeysFresh()
      reads this
    {
      Distinct(keys) && forall i :: 0 <= i < |keys| ==> keys[i] <= newKey
    }

    /** The constructor as written: loads the stored records but leaves the
        key counter at 0. */
    constructor AsWritten(adapter: Adapter<T>, records: seq<(U64, T)>)
      ensures this.adapter == adapter && mayRun && newKey == 0
      ensures keys == KeysOf(Loaded(records)) && data == DataOf(Loaded(records))
      ensures Valid() && !trigger.destroyed
    {
      this.adapter := adapter;
      data, keys := [], [];
      trigger := Fresh;
      newKey := 0;
      mayRun := true;
      new;
      Load(records);
    }

    /** The constructor with the counter moved past the loaded keys, so that
        sends after a reload get new keys.  The database holds each key once. */
    constructor (adapter: Adapter<T>, records: seq<(U64, T)>)
      requires Distinct(KeysOf(records))
      ensures this.adapter == adapter && mayRun
      ensures keys == KeysOf(Loaded(records)) && data == DataOf(Loaded(records))
      ensures newKey == MaxKey(keys)
      ensures Valid() && KeysFresh() && !trigger.destroyed
    {
      this.adapter := adapter;
      data, keys := [], [];
      trigger := Fresh;
      newKey := 0;
      mayRun := true;
      new;
      Load(records);
      LoadedDistinct(records);
      newKey := MaxKey(keys);
    }

    /** `load`: queues the loaded records in cursor order, posting once each. */
    method Load(records: seq<(U64, T)>)
      requires !trigger.destroyed
      modifies this
      ensures keys == old(keys) + KeysOf(Loaded(records))
      ensures data == old(data) + DataOf(Loaded(records))
      ensures trigger == Sem(old(trigger).count + |Loaded(records)|, false)
      ensures newKey == old(newKey) && mayRun == old(mayRun)
    {
      if records != [] {
        keys := keys + [records[0].0];
        data := data + [records[0].1];
        trigger := Post(trigger).0;
        LoadContinued(records[1..]);
        RecordsPrepend(records[0], Continued(records[1..]));
      }
    }

    /** The body of the do-while after its first pass. */
    method LoadContinued(rest: seq<(U64, T)>)
      requires !trigger.destroyed
      modifies this
      ensures keys == old(keys) + KeysOf(Continued(rest))
      ensures data == old(data) + DataOf(Continued(rest))
      ensures trigger == Sem(old(trigger).count + |Continued(rest)|, false)
      ensures newKey == old(newKey) && mayRun == old(mayRun)
    {
      var j := 0;
      while j < |rest| && rest[j].0 != 0
        invariant 0 <= j <= |rest|
        invariant Continued(rest) == rest[..j] + Continued(rest[j..])
        invariant keys == old(keys) + KeysOf(rest[..j]) && data == old(data) + DataOf(rest[..j])
        invariant trigger == Sem(old(trigger).count + j, false)
        invariant newKey == old(newKey) && mayRun == old(mayRun)
      {
        ContinuedStep(rest, j);
        RecordsAppend(rest[..j], rest[j]);
        keys, data, trigger := keys + [rest[j].0], data + [rest[j].1], Post(trigger).0;
        j := j + 1;
      }
      assert Continued(rest[j..]) == [];
      assert Continued(rest) == rest[..j];
    }

    /** `send`: while running, takes the next key, writes an ADD for it and
        queues data and key together; after `destroy` it refuses. */
    method Send(msg: T) returns (ok: bool)
      modifies this, adapter
      ensures ok == old(mayRun)
      ensures !ok ==> data == old(data) && keys == old(keys) && newKey == old(newKey)
                      && trigger == old(trigger) && adapter.requests == old(adapter.requests)
      ensures ok ==> newKey == (old(newKey) + 1) % KeyModulus
      ensures ok ==> keys == old(keys) + [newKey] && data == old(data) + [msg]
      ensures ok ==> adapter.requests == old(adapter.requests) + [AddRecord(newKey, msg)]
      ensures ok ==> trigger == Post(old(trigger)).0
      ensures mayRun == old(mayRun)
      ensures old(Valid()) ==> Valid()
      ensures old(KeysFresh()) && old(newKey) + 1 < KeyModulus ==> KeysFresh()
    {
      if !mayRun {
        return false;
      }
      newKey := (newKey + 1) % KeyModulus;
      adapter.Write(AddRecord(newKey, msg));
      data := data + [msg];
      keys := keys + [newKey];
      trigger := Post(trigger).0;
      ok := true;
    }

    /** `recv()`: after the wait, a running queue hands out its front message
        and key as a fresh transaction; an empty one throws `QueueOutOfSync`
        and a destroyed one `Can_not_lock_mutex`. */
    method Recv() returns (r: Received<T>)
      requires Ready(trigger)
      modifies this
      ensures trigger == Wait(old(trigger)).0
      ensures !old(mayRun) ==> r == CannotLockMutex
      ensures old(mayRun) && old(data) == [] ==> r == QueueOutOfSync
      ensures old(mayRun) && old(data) != [] && old(Valid()) ==>
        && r.Txn? && fresh(r.txn)
        && r.txn.data == old(data)[0] && r.txn.key == old(keys)[0]
        && r.txn.adapter == adapter && !r.txn.aborted
        && data == old(data)[1..] && keys == old(keys)[1..]
      ensures !r.Txn? ==> data == old(data) && keys == old(keys)
      ensures r != ImplementationForbidden
      ensures newKey == old(newKey) && mayRun == old(mayRun)
      ensures old(Valid()) ==> Valid()
      ensures old(KeysFresh()) ==> KeysFresh()
    {
      trigger := Wait(trigger).0;
      if !mayRun {
        return CannotLockMutex;
      }
      if data == [] || keys == [] {
        return QueueOutOfSync;
      }
      var txn := new QueueTxn(adapter, data[0], keys[0]);
      data := data[1..];
      keys := keys[1..];
      r := Txn(txn);
    }

    /** `recv(DataType&)` is forbidden. */
    method RecvInto() returns (r: Received<T>)
      ensures r == ImplementationForbidden
    {
      r := ImplementationForbidden;
    }

    method Depth() returns (n: nat)
      ensures n == |data|
    {
      n := |data|;
    }

    /** `destroy` (also the destructor): stops sends and receives; queued
        messages stay. */
    method Destroy()
      modifies this
      ensures !mayRun && trigger == Semaphores.Destroy(old(trigger))
      ensures data == old(data) && keys == old(keys) && newKey == old(newKey)
      ensures old(Valid()) ==> Valid()
    {
      mayRun := false;
      trigger := Semaphores.Destroy(trigger);
    }
  }

  /** As written, a message left in the database is reloaded under key 1 and
      the next send is also given key 1. */
  method ReloadReusesKey<T>(stored: T, msg: T) returns (keys: seq<U64>)
    ensures keys == [1, 1]
  {
    var adapter := new Adapter<T>();
    var q := new PersistentQueue<T>.AsWritten(adapter, [(1, stored)]);
    assert Loaded([(1 as U64, stored)]) == [(1, stored)];
    var ok := q.Send(msg);
    keys := q.keys;
  }

  /** With the counter moved past the loaded keys the same sequence of calls
      yields key 2. */
  method ReloadKeepsKeysDistinct<T>(stored: T, msg: T) returns (keys: seq<U64>)
    ensures keys == [1, 2]
  {
    var adapter := new Adapter<T>();
    var records: seq<(U64, T)> := [(1, stored)];
    assert Loaded(records) == records;
    var q := new PersistentQueue<T>(adapter, records);
    var ok := q.Send(msg);
    keys := q.keys;
  }
}
