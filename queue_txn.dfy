// QueueTxn: a received persistent-queue message together with its database
// key.  Destroying it deletes the record unless it was aborted first.  The
// writer adapter it writes through is shared with the queue; here the
// adapter is the log of the write requests handed to it.
module QueueTxns {
  import MessageKeys

  type U64 = MessageKeys.U64

  /** A write object as the adapter receives it: ADD with the data, or DEL. */
  datatype Request<T> = AddRecord(key: U64, data: T) | DelRecord(key: U64)

  /** The writer adapter shared by a queue and its transactions. */
  class Adapter<T> {
    var requests: seq<Request<T>>

    constructor ()
      ensures requests == []
    {
      requests := [];
    }

    /** `write`: hands one request to the database writer. */
    method Write(r: Request<T>)
      modifies this
      ensures requests == old(requests) + [r]
    {
      requests := requests + [r];
    }
  }

  class QueueTxn<T> {
    const adapter: Adapter<T>
    const data: T
    const key: U64
    var aborted: bool

    constructor (adapter: Adapter<T>, data: T, key: U64)
      ensures this.adapter == adapter && this.data == data && this.key == key && !aborted
    {
      this.adapter := adapter;
      this.data := data;
      this.key := key;
      aborted := false;
    }

    function GetData(): (r: T)
      ensures r == data
    {
      data
    }

    /** `abort`: a repeated abort changes nothing further. */
    method Abort()
      modifies this
      ensures aborted
    {
      aborted := true;
    }

    /** The destructor: one DEL for the key, unless aborted. */
    method Destroy()
      modifies adapter
      ensures adapter.requests == old(adapter.requests) + (if aborted then [] else [DelRecord(key)])
    {
      if !aborted {
        adapter.Write(DelRecord(key));
      }
    }
  }

  /** Committing a received message: destroying its transaction writes
      exactly one DEL for its key; aborting first writes nothing, however
      often it is aborted. */
  method CommitOrAbort<T>(adapter: Adapter<T>, data: T, key: U64, aborts: nat) returns (written: seq<Request<T>>)
    modifies adapter
    ensures adapter.requests == old(adapter.requests) + written
    ensures aborts == 0 ==> written == [DelRecord(key)]
    ensures aborts > 0 ==> written == []
  {
    var before := adapter.requests;
    var txn := new QueueTxn(adapter, data, key);
    var i := 0;
    while i < aborts
      invariant 0 <= i <= aborts && (i > 0 ==> txn.aborted) && (i == 0 ==> !txn.aborted)
      invariant adapter.requests == before
    {
      txn.Abort();
      i := i + 1;
    }
    txn.Destroy();
    written := adapter.requests[|before|..];
    assert adapter.requests == before + written;
  }
}
