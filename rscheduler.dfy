// RScheduler: tasks kept in a deadline-ordered map of task lists; the run
// loop hands due tasks to a thread pool.  The clock is a parameter ("now"),
// the thread pool is a log of enqueued tasks, and the mutex is erased.
module RScheduler {
  import opened Wrappers
  import SortedMaps

  const Million: int := 1000000
  const U32: int := 0x1_0000_0000
  /** std::numeric_limits<time_t>::max() for a 64-bit time_t. */
  const TimeMax: int := 0x7FFF_FFFF_FFFF_FFFF

  /** A point in time as a (seconds, microseconds) pair. */
  datatype Date = Date(sec: int, usec: int)

  /** The sentinel "never" wake time. */
  const Future: Date := Date(TimeMax, TimeMax)

  /** Dates compare lexicographically on (seconds, microseconds). */
  function Earlier(a: Date, b: Date): bool
  {
    a.sec < b.sec || (a.sec == b.sec && a.usec < b.usec)
  }

  lemma EarlierIsStrictTotal()
    ensures SortedMaps.StrictTotal(Earlier)
  {
  }

  /** The instant a date denotes, in microseconds. */
  function Micros(d: Date): int
  {
    d.sec * Million + d.usec
  }

  /** The deadline `add` computes as written: the product `msoffset*1000` is
      taken in 32-bit unsigned arithmetic, the carry goes into the seconds,
      and then the carry is subtracted from the *original* microseconds. */
  function DeadlineAsWritten(now: Date, msoffset: nat): (d: Date)
    requires 0 <= now.usec < Million && msoffset < U32
    ensures now.sec <= d.sec && d.usec <= now.usec
    ensures d.sec == now.sec <==> d.usec == now.usec
  {
    var usec := now.usec + (msoffset * 1000) % U32;
    var carry := usec / Million;
    Date(now.sec + carry, now.usec - carry * Million)
  }

  /** The deadline `add` evidently intends: `now` plus `msoffset` milliseconds,
      normalised so that the microseconds stay below one second. */
  function Deadline(now: Date, msoffset: nat): (d: Date)
    requires 0 <= now.usec < Million
    ensures Micros(d) == Micros(now) + msoffset * 1000
    ensures 0 <= d.usec < Million
    ensures msoffset > 0 ==> Earlier(now, d)
  {
    var usec := now.usec + msoffset * 1000;
    Date(now.sec + usec / Million, usec % Million)
  }

  /** As written the offset vanishes from the instant denoted: the deadline
      denotes `now` itself whatever the offset. */
  lemma {:induction false} AsWrittenDeadlineDenotesNow(now: Date, msoffset: nat)
    requires 0 <= now.usec < Million && msoffset < U32
    ensures Micros(DeadlineAsWritten(now, msoffset)) == Micros(now)
  {
    var usec := now.usec + (msoffset * 1000) % U32;
    var carry := usec / Million;
    calc {
      Micros(DeadlineAsWritten(now, msoffset));
      (now.sec + carry) * Million + (now.usec - carry * Million);
      { assert (now.sec + carry) * Million == now.sec * Million + carry * Million; }
      Micros(now);
    }
  }

  /** Two inputs that show it: a 500 ms offset yields `now` itself, and a
      600 ms offset at half past yields the next second with negative
      microseconds instead of 100 ms past it. */
  lemma AsWrittenDeadlineExamples()
    ensures DeadlineAsWritten(Date(10, 0), 500) == Date(10, 0) != Deadline(Date(10, 0), 500)
    ensures DeadlineAsWritten(Date(10, 500000), 600) == Date(11, -500000)
    ensures Deadline(Date(10, 500000), 600) == Date(11, 100000)
  {
  }

  /** Every task list in the schedule is non-empty (`add` only ever creates
      one-task lists and appends). */
  ghost predicate NonEmptyLists<T>(s: seq<(Date, seq<T>)>)
  {
    forall i :: 0 <= i < |s| ==> s[i].1 != []
  }

  /** The first task of every entry, in deadline order: what the drain loop
      hands to the thread pool. */
  function Firsts<T>(s: seq<(Date, seq<T>)>): (r: seq<T>)
    requires NonEmptyLists(s)
    ensures |r| == |s| && forall i :: 0 <= i < |s| ==> r[i] == s[i].1[0]
  {
    if s == [] then [] else [s[0].1[0]] + Firsts(s[1..])
  }

  /** All scheduled tasks, in deadline order. */
  function AllTasks<T>(s: seq<(Date, seq<T>)>): seq<T>
  {
    if s == [] then [] else s[0].1 + AllTasks(s[1..])
  }

  /** The drain hands out every scheduled task only when every list holds a
      single task; otherwise the later tasks of a list are dropped. */
  lemma {:induction false} DrainDropsLaterTasks<T>(s: seq<(Date, seq<T>)>)
    requires NonEmptyLists(s)
    ensures |Firsts(s)| <= |AllTasks(s)|
    ensures Firsts(s) == AllTasks(s) <==> forall i :: 0 <= i < |s| ==> |s[i].1| == 1
  {
    if s != [] {
      DrainDropsLaterTasks(s[1..]);
      if |s[0].1| != 1 {
        assert |Firsts(s)| < |AllTasks(s)|;
      }
      if Firsts(s) == AllTasks(s) {
        assert |s[0].1| == 1;
        assert Firsts(s[1..]) == AllTasks(s[1..]);
      }
    }
  }

  /** The task list `add` leaves under a deadline: appended to, or new. */
  function Extended<T>(old_: Option<seq<T>>, task: T): seq<T>
  {
    match old_
    case Some(tasks) => tasks + [task]
    case None => [task]
  }

  class Scheduler<T> {
    var doRun: bool
    var mayAdd: bool
    var nextWake: Date
    var schedule: seq<(Date, seq<T>)>
    /** The tasks handed to the thread pool, in order. */
    var enqueued: seq<T>

    ghost predicate Valid()
      reads this
    {
      SortedMaps.Sorted(schedule, Earlier) && NonEmptyLists(schedule)
    }

    /** Time's default value is not part of this model, so the initial wake
        time is a parameter. */
    constructor (initialWake: Date)
      ensures doRun && mayAdd && schedule == [] && enqueued == []
      ensures nextWake == initialWake && Valid()
    {
      doRun, mayAdd := true, true;
      nextWake := initialWake;
      schedule, enqueued := [], [];
    }

    /** `add`: while running and accepting, appends the task to the list at
        its deadline (or starts one) and sets the wake time to the earliest
        deadline; otherwise nothing changes. */
    method Add(msoffset: nat, task: T, now: Date)
      requires Valid() && 0 <= now.usec < Million && msoffset < U32
      modifies this
      ensures Valid()
      ensures doRun == old(doRun) && mayAdd == old(mayAdd) && enqueued == old(enqueued)
      ensures !old(doRun && mayAdd) ==> schedule == old(schedule) && nextWake == old(nextWake)
      ensures old(doRun && mayAdd) ==>
        var d := Deadline(now, msoffset);
        && SortedMaps.Lookup(schedule, d) == Some(Extended(SortedMaps.Lookup(old(schedule), d), task))
        && (forall x :: x != d ==> SortedMaps.Lookup(schedule, x) == SortedMaps.Lookup(old(schedule), x))
        && schedule != [] && nextWake == schedule[0].0
        && (forall i :: 0 < i < |schedule| ==> Earlier(nextWake, schedule[i].0))
    {
      if doRun && mayAdd {
        EarlierIsStrictTotal();
        var d := Deadline(now, msoffset);
        var tasks := Extended(SortedMaps.Lookup(schedule, d), task);
        ghost var before := schedule;
        schedule := SortedMaps.Put(schedule, d, tasks, Earlier);
        forall x
          ensures SortedMaps.Lookup(schedule, x) == if x == d then Some(tasks) else SortedMaps.Lookup(before, x)
        {
          SortedMaps.PutLookup(before, d, tasks, Earlier, x);
        }
        PutKeepsListsNonEmpty(before, d, tasks);
        forall i | 0 < i < |schedule|
          ensures Earlier(schedule[0].0, schedule[i].0)
        {
        }
        nextWake := schedule[0].0;
      }
    }

    /** One pass of the run loop.  The wake time is first pulled forward to
        the earliest deadline; once `now` reaches it, the whole schedule is
        drained without rechecking later deadlines, enqueueing only the first
        task of each entry, and the wake time becomes the "never" sentinel. */
    method Tick(now: Date)
      requires Valid()
      modifies this
      ensures Valid()
      ensures doRun == old(doRun) && mayAdd == old(mayAdd)
      ensures old(schedule) == [] ==> unchanged(this)
      ensures old(schedule) != [] ==>
        var wake := if Earlier(old(schedule)[0].0, old(nextWake)) then old(schedule)[0].0 else old(nextWake);
        if Earlier(now, wake) then
          schedule == old(schedule) && enqueued == old(enqueued) && nextWake == wake
        else
          schedule == [] && enqueued == old(enqueued) + Firsts(old(schedule)) && nextWake == Future
    {
      if schedule != [] {
        if Earlier(schedule[0].0, nextWake) {
          nextWake := schedule[0].0;
        }
        if !Earlier(now, nextWake) {
          Drain();
          // The drain always empties the schedule, so the source's other
          // branch (wake at the new earliest deadline) is never taken.
          nextWake := Future;
        }
      }
    }

    /** The drain loop: hand over the front entry's first task and erase the
        entry until the schedule is empty. */
    method Drain()
      requires Valid() && schedule != []
      modifies this
      ensures schedule == [] && enqueued == old(enqueued) + Firsts(old(schedule))
      ensures doRun == old(doRun) && mayAdd == old(mayAdd) && nextWake == old(nextWake)
    {
      ghost var k := 0;
      while schedule != []
        invariant 0 <= k <= |old(schedule)| && schedule == old(schedule)[k..]
        invariant enqueued == old(enqueued) + Firsts(old(schedule)[..k])
        invariant doRun == old(doRun) && mayAdd == old(mayAdd) && nextWake == old(nextWake)
        decreases |schedule|
      {
        assert old(schedule)[..k + 1] == old(schedule)[..k] + [schedule[0]];
        FirstsAppend(old(schedule)[..k], schedule[0]);
        enqueued := enqueued + [schedule[0].1[0]];
        schedule := schedule[1..];
        k := k + 1;
      }
      assert old(schedule)[..k] == old(schedule);
    }

    /** `isScheduleEmpty`. */
    method IsScheduleEmpty() returns (empty: bool)
      ensures empty <==> schedule == []
    {
      empty := schedule == [];
    }

    /** `shutdown`: stops accepting tasks, then clears the schedule until it is
        empty; the run flag is untouched. */
    method Shutdown()
      modifies this
      ensures !mayAdd && schedule == []
      ensures doRun == old(doRun) && nextWake == old(nextWake) && enqueued == old(enqueued)
      ensures Valid()
    {
      mayAdd := false;
      var empty := IsScheduleEmpty();
      while !empty
        invariant !mayAdd && doRun == old(doRun) && nextWake == old(nextWake) && enqueued == old(enqueued)
        invariant empty <==> schedule == []
        decreases |schedule|
      {
        schedule := [];
        empty := IsScheduleEmpty();
      }
    }

    /** `onCancel`: stops the run loop, then shuts down. */
    method OnCancel()
      modifies this
      ensures !doRun && !mayAdd && schedule == []
      ensures nextWake == old(nextWake) && enqueued == old(enqueued)
    {
      doRun := false;
      Shutdown();
    }
  }

  /** Storing a non-empty list keeps every list in the schedule non-empty. */
  lemma {:induction false} PutKeepsListsNonEmpty<T>(m: seq<(Date, seq<T>)>, d: Date, tasks: seq<T>)
    requires SortedMaps.StrictTotal(Earlier)
    requires SortedMaps.Sorted(m, Earlier) && NonEmptyLists(m) && tasks != []
    ensures NonEmptyLists(SortedMaps.Put(m, d, tasks, Earlier))
  {
    if m != [] && m[0].0 != d && !Earlier(d, m[0].0) {
      PutKeepsListsNonEmpty(m[1..], d, tasks);
    }
  }

  lemma FirstsAppend<T>(s: seq<(Date, seq<T>)>, e: (Date, seq<T>))
    requires NonEmptyLists(s) && e.1 != []
    ensures NonEmptyLists(s + [e]) && Firsts(s + [e]) == Firsts(s) + [e.1[0]]
  {
  }
}
