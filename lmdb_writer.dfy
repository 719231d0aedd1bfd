// DBWriter: the single LMDB writer.  Producers queue write objects (a key,
// its data and ADD or DEL) and subscribe a view under the key; the writer
// applies the front object and tells the subscriber how it went.  The
// database and its transactions are foreign: each attempt's outcome is an
// input.
module LMDBWriters {
  import opened Semaphores
  import MessageKeys

  type U64 = MessageKeys.U64

  datatype Op = Add | Del

  /** `WObject`: the key, the payload handed to `put`, and the operation. */
  datatype WObject<D> = WObject(key: U64, data: D, op: Op)

  /** What the database did with one `put`/`del`: it returned true or false,
      or threw `MDBKeyNotFound` or any other exception.  `BeginFailed` is the
      transaction refusing to begin (`Can_not_begin_txn`), before the front
      object's key has been copied into `key`: the catch then looks up
      whatever the uninitialised `key` holds, given here as `stale`. */
  datatype DbOutcome = Written | NotWritten | KeyNotFound | Failed | BeginFailed(stale: U64)

  /** `notify(Model(ok, key), view)`. */
  datatype Note<V> = Note(ok: bool, key: U64, view: V)

  datatype WriterState<D, V> = WriterState(queue: seq<WObject<D>>, subscribers: map<U64, V>, notes: seq<Note<V>>)

  /** The notification for `key`'s subscriber, if it has one. */
  function NoteFor<D, V>(st: WriterState<D, V>, ok: bool, key: U64): seq<Note<V>>
  {
    if key in st.subscribers then [Note(ok, key, st.subscribers[key])] else []
  }

  /** `dbWrite` with the database's outcome; the flag says the exception
      was rethrown. */
  function DbWrite<D, V>(st: WriterState<D, V>, outcome: DbOutcome): (r: (WriterState<D, V>, bool))
    ensures r.1 ==> r.0.queue == st.queue && |r.0.notes| <= |st.notes| + 1
    ensures |r.0.queue| <= |st.queue| && st.notes <= r.0.notes
  {
    if st.queue == [] then (st, false)
    else
      var key := st.queue[0].key;
      match outcome
      case Written =>
        (WriterState(st.queue[1..], st.subscribers - {key}, st.notes + NoteFor(st, true, key)), false)
      case NotWritten => (st.(queue := st.queue[1..]), false)
      case KeyNotFound => (st.(notes := st.notes + NoteFor(st, true, key)), false)
      case Failed => (st.(notes := st.notes + NoteFor(st, false, key)), true)
      case BeginFailed(stale) => (st.(notes := st.notes + NoteFor(st, false, stale)), true)
  }

  /** The rules of one `dbWrite`: an empty queue is left alone; a write the
      database performed notifies (true, key), drops the subscription and
      pops; one it declined pops silently; key-not-found notifies (true, key)
      and keeps both; any other failure notifies (false, key), keeps both and
      is rethrown; a transaction that fails to begin notifies (false, stale)
      instead, the subscriber of whatever key the uninitialised variable
      holds, keeps both and is rethrown. */
  lemma DbWriteRules<D, V>(st: WriterState<D, V>, outcome: DbOutcome)
    ensures var (s, thrown) := DbWrite(st, outcome);
      && (st.queue == [] ==> s == st && !thrown)
      && (thrown <==> st.queue != [] && (outcome == Failed || outcome.BeginFailed?))
      && (st.queue != [] ==>
            var key := st.queue[0].key;
            && (outcome in {Written, NotWritten} ==> s.queue == st.queue[1..])
            && (outcome !in {Written, NotWritten} ==> s.queue == st.queue)
            && (outcome == Written ==> key !in s.subscribers)
            && (outcome != Written ==> s.subscribers == st.subscribers)
            && (forall k :: k != key ==> (k in s.subscribers <==> k in st.subscribers))
            && (outcome == NotWritten ==> s.notes == st.notes)
            && (outcome.BeginFailed? ==>
                  s.notes == st.notes + (if outcome.stale in st.subscribers
                                         then [Note(false, outcome.stale, st.subscribers[outcome.stale])]
                                         else []))
            && (outcome in {Written, KeyNotFound, Failed} ==>
                  s.notes == st.notes + (if key in st.subscribers
                                         then [Note(outcome != Failed, key, st.subscribers[key])]
                                         else [])))
  {
  }

  /** A transaction that fails to begin tells the front key's subscriber
      nothing unless the uninitialised key happens to equal the front key:
      the waiting view keeps its subscription and no note reaches it. */
  lemma BeginFailureMissesSubscriber<D, V>(st: WriterState<D, V>, stale: U64)
    requires st.queue != [] && stale != st.queue[0].key
    ensures var (s, thrown) := DbWrite(st, BeginFailed(stale));
      && thrown && s.queue == st.queue && s.subscribers == st.subscribers
      && forall i :: |st.notes| <= i < |s.notes| ==> s.notes[i].key != st.queue[0].key
  {
  }

  /** The tail of `execute`: `dbWrite` until the queue is empty, an
      exception escapes, or the given outcomes run out. */
  function Drain<D, V>(st: WriterState<D, V>, outcomes: seq<DbOutcome>): (r: WriterState<D, V>)
    ensures |r.queue| <= |st.queue| && st.notes <= r.notes
    ensures |outcomes| == 0 ==> r == st
    decreases |outcomes|
  {
    if st.queue == [] || outcomes == [] then st
    else
      var (s, thrown) := DbWrite(st, outcomes[0]);
      if thrown then s else Drain(s, outcomes[1..])
  }

  /** The drain only takes objects off the front, only adds notifications
      and only drops subscriptions. */
  lemma {:induction false} DrainOnlyConsumes<D, V>(st: WriterState<D, V>, outcomes: seq<DbOutcome>)
    ensures var r := Drain(st, outcomes);
      && |r.queue| <= |st.queue| && r.queue == st.queue[|st.queue| - |r.queue|..]
      && st.notes <= r.notes
      && forall k :: k in r.subscribers ==> k in st.subscribers
    decreases |outcomes|
  {
    if st.queue != [] && outcomes != [] {
      var (s, thrown) := DbWrite(st, outcomes[0]);
      DbWriteOnlyConsumes(st, outcomes[0]);
      if !thrown {
        DrainOnlyConsumes(s, outcomes[1..]);
        var r := Drain(s, outcomes[1..]);
        assert Drain(st, outcomes) == r;
        assert r.queue == s.queue[|s.queue| - |r.queue|..];
        assert s.queue == st.queue[|st.queue| - |s.queue|..];
      }
    }
  }

  /** One `dbWrite` pops at most the front, adds notifications and drops
      at most one subscription. */
  lemma DbWriteOnlyConsumes<D, V>(st: WriterState<D, V>, outcome: DbOutcome)
    ensures var s := DbWrite(st, outcome).0;
      && s.queue == st.queue[|st.queue| - |s.queue|..]
      && forall k :: k in s.subscribers ==> k in st.subscribers
  {
  }

  lemma DrainStep<D, V>(st: WriterState<D, V>, outcomes: seq<DbOutcome>)
    requires st.queue != [] && outcomes != []
    ensures var (s, thrown) := DbWrite(st, outcomes[0]);
      Drain(st, outcomes) == if thrown then s else Drain(s, outcomes[1..])
  {
  }

  /** When the database performs every write, the drain empties the queue
      and every subscriber of a queued key is notified of success and
      unsubscribed. */
  lemma {:induction false} DrainWritesEverything<D, V>(st: WriterState<D, V>, outcomes: seq<DbOutcome>)
    requires |outcomes| >= |st.queue|
    requires forall i :: 0 <= i < |outcomes| ==> outcomes[i] == Written
    ensures Drain(st, outcomes).queue == []
    ensures forall i :: 0 <= i < |st.queue| ==> st.queue[i].key !in Drain(st, outcomes).subscribers
    ensures forall i :: 0 <= i < |st.queue| && st.queue[i].key in st.subscribers ==>
      Note(true, st.queue[i].key, st.subscribers[st.queue[i].key]) in Drain(st, outcomes).notes
    decreases |outcomes|
  {
    if st.queue != [] {
      var s := DbWrite(st, Written).0;
      DrainWritesEverything(s, outcomes[1..]);
      DrainOnlyConsumes(s, outcomes[1..]);
      var r := Drain(st, outcomes);
      assert r == Drain(s, outcomes[1..]);
      forall i | 0 <= i < |st.queue| && st.queue[i].key in st.subscribers
        ensures Note(true, st.queue[i].key, st.subscribers[st.queue[i].key]) in r.notes
      {
        var key := st.queue[i].key;
        if key == st.queue[0].key {
          assert Note(true, key, st.subscribers[key]) in s.notes;
        } else {
          assert st.queue[i] == s.queue[i - 1];
        }
      }
      forall i | 0 <= i < |st.queue|
        ensures st.queue[i].key !in r.subscribers
      {
        if i > 0 {
          assert st.queue[i] == s.queue[i - 1];
        }
      }
    }
  }

  class DBWriter<D, V> {
    var queue: seq<WObject<D>>
    var subscribers: map<U64, V>
    var notes: seq<Note<V>>
    var event: Sem
    var mayRun: bool
    var mayDestroy: bool

    function State(): WriterState<D, V>
      reads this
    {
      WriterState(queue, subscribers, notes)
    }

    constructor ()
      ensures State() == WriterState([], map[], []) && event == Fresh && mayRun && !mayDestroy
    {
      queue, subscribers, notes := [], map[], [];
      event := Fresh;
      mayRun, mayDestroy := true, false;
    }

    /** `write`: refused with `MDBWriteFailed` once stopped; otherwise keeps
        an existing subscription for the key (or adds this one), queues the
        object and posts the event. */
    method Write(obj: WObject<D>, view: V) returns (ok: bool)
      modifies this
      ensures ok == old(mayRun)
      ensures !ok ==> State() == old(State()) && event == old(event)
      ensures ok ==> queue == old(queue) + [obj] && notes == old(notes)
      ensures ok ==> subscribers == if obj.key in old(subscribers) then old(subscribers)
                                    else old(subscribers)[obj.key := view]
      ensures ok ==> event == Post(old(event)).0
      ensures mayRun == old(mayRun) && mayDestroy == old(mayDestroy)
    {
      if !mayRun {
        return false;
      }
      if obj.key !in subscribers {
        subscribers := subscribers[obj.key := view];
      }
      queue := queue + [obj];
      event := Post(event).0;
      ok := true;
    }

    method Size() returns (n: nat)
      ensures n == |queue|
    {
      n := |queue|;
    }

    /** `dbWrite`, given what the database does; `thrown` is the rethrown
        exception. */
    method DbWriteOnce(outcome: DbOutcome) returns (thrown: bool)
      modifies this
      ensures (State(), thrown) == DbWrite(old(State()), outcome)
      ensures event == old(event) && mayRun == old(mayRun) && mayDestroy == old(mayDestroy)
    {
      thrown := false;
      if queue == [] {
        return;
      }
      var key := queue[0].key;
      match outcome
      case Written =>
        notes := notes + NoteFor(State(), true, key);
        subscribers := subscribers - {key};
        queue := queue[1..];
      case NotWritten =>
        queue := queue[1..];
      case KeyNotFound =>
        notes := notes + NoteFor(State(), true, key);
      case Failed =>
        notes := notes + NoteFor(State(), false, key);
        thrown := true;
      case BeginFailed(stale) =>
        notes := notes + NoteFor(State(), false, stale);
        thrown := true;
    }

    /** `shutdown`/`onCancel`/destructor: stop the run loop (the wait for
        the drain to finish is left out). */
    method Shutdown()
      modifies this
      ensures !mayRun && State() == old(State()) && event == old(event) && mayDestroy == old(mayDestroy)
    {
      mayRun := false;
    }

    /** The tail of `execute`: writes what is left, swallowing the first
        escaping exception, then allows destruction. */
    method DrainRemaining(outcomes: seq<DbOutcome>)
      requires !mayRun
      modifies this
      ensures State() == Drain(old(State()), outcomes)
      ensures mayDestroy && !mayRun && event == old(event)
    {
      var i := 0;
      while queue != [] && i < |outcomes|
        invariant 0 <= i <= |outcomes| && !mayRun && event == old(event)
        invariant Drain(old(State()), outcomes) == Drain(State(), outcomes[i..])
        decreases |outcomes| - i
      {
        ghost var pre := State();
        assert outcomes[i..][0] == outcomes[i] && outcomes[i..][1..] == outcomes[i + 1..];
        var thrown := DbWriteOnce(outcomes[i]);
        DrainStep(pre, outcomes[i..]);
        if thrown {
          mayDestroy := true;
          return;
        }
        i := i + 1;
      }
      mayDestroy := true;
    }
  }
}
