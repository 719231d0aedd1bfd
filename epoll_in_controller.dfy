// ePollInController: one-shot read-readiness subscriptions on top of an
// epoll poller.  The poller base (`add(fd)`, `poll(-1)`) is not part of this
// model: the fds handed to `add` are logged and each `poll` result is an
// input.  A subscriber is `Option<S>` (a null shared_ptr is None); `notify`
// reaches only non-null ones, and those calls are logged.
module EPollInController {
  import opened Wrappers
  import EPoll

  /** The one-shot dispatch of one poll result: an event for a subscribed fd
      notifies the subscriber and removes the subscription; events for other
      fds are ignored.  `notes` accumulates the notifications. */
  function OneShot<S>(subs: map<int, Option<S>>, notes: seq<(S, EPoll.Event)>, events: seq<EPoll.Event>)
    : (map<int, Option<S>>, seq<(S, EPoll.Event)>)
    decreases |events|
  {
    if events == [] then (subs, notes)
    else
      var e := events[0];
      if e.fd in subs then
        OneShot(subs - {e.fd}, notes + (if subs[e.fd].Some? then [(subs[e.fd].value, e)] else []), events[1..])
      else OneShot(subs, notes, events[1..])
  }

  /** The fds the events concern. */
  function Fds(events: seq<EPoll.Event>): set<int>
  {
    set i | 0 <= i < |events| :: events[i].fd
  }

  /** After a dispatch, exactly the subscriptions whose fd had an event are
      gone; each notification went to the subscriber of its event's fd; and
      no fd is notified twice. */
  lemma {:induction false} OneShotNotifiesOnce<S>(subs: map<int, Option<S>>, notes: seq<(S, EPoll.Event)>, events: seq<EPoll.Event>)
    requires forall i :: 0 <= i < |notes| ==> notes[i].1.fd !in subs
    requires forall i, j :: 0 <= i < j < |notes| ==> notes[i].1.fd != notes[j].1.fd
    ensures var (subs', notes') := OneShot(subs, notes, events);
      && subs' == (map fd | fd in subs && fd !in Fds(events) :: subs[fd])
      && notes <= notes'
      && (forall i :: |notes| <= i < |notes'| ==>
            notes'[i].1 in events && notes'[i].1.fd in subs && subs[notes'[i].1.fd] == Some(notes'[i].0))
      && (forall i, j :: 0 <= i < j < |notes'| ==> notes'[i].1.fd != notes'[j].1.fd)
    decreases |events|
  {
    if events != [] {
      var e := events[0];
      assert Fds(events) == {e.fd} + Fds(events[1..]);
      if e.fd in subs {
        var notes1 := notes + (if subs[e.fd].Some? then [(subs[e.fd].value, e)] else []);
        OneShotNotifiesOnce(subs - {e.fd}, notes1, events[1..]);
      } else {
        OneShotNotifiesOnce(subs, notes, events[1..]);
      }
    }
  }

  /** Each pass of `execute` sees a poll result, or that another thread
      called `onCancel`/`shutdown` before it. */
  datatype Pass = Polled(events: seq<EPoll.Event>) | Cancelled

  datatype State<S> = State(running: bool, subscribers: map<int, Option<S>>, updates: seq<(S, EPoll.Event)>)

  /** One pass: an empty result only naps; a non-empty one is dispatched. */
  function PassEffect<S>(st: State<S>, p: Pass): State<S>
  {
    match p
    case Cancelled => st.(running := false, subscribers := map[])
    case Polled(es) =>
      if es == [] then st
      else
        var (subs, notes) := OneShot(st.subscribers, st.updates, es);
        st.(subscribers := subs, updates := notes)
  }

  /** The `execute` loop: passes run while the flag is set. */
  function RunAll<S>(st: State<S>, passes: seq<Pass>): State<S>
    decreases |passes|
  {
    if !st.running || passes == [] then st
    else RunAll(PassEffect(st, passes[0]), passes[1..])
  }

  /** While `execute` runs, subscriptions only disappear, and a cancellation
      ends the loop with none left. */
  lemma {:induction false} RunOnlyRemovesSubscriptions<S>(st: State<S>, passes: seq<Pass>)
    requires forall i :: 0 <= i < |st.updates| ==> st.updates[i].1.fd !in st.subscribers
    requires forall i, j :: 0 <= i < j < |st.updates| ==> st.updates[i].1.fd != st.updates[j].1.fd
    ensures forall fd :: fd in RunAll(st, passes).subscribers ==>
      fd in st.subscribers && RunAll(st, passes).subscribers[fd] == st.subscribers[fd]
    ensures st.updates <= RunAll(st, passes).updates
    ensures st.running && Cancelled in passes ==>
      !RunAll(st, passes).running && RunAll(st, passes).subscribers == map[]
    decreases |passes|
  {
    if st.running && passes != [] {
      var next := PassEffect(st, passes[0]);
      if passes[0].Polled? && passes[0].events != [] {
        OneShotNotifiesOnce(st.subscribers, st.updates, passes[0].events);
      }
      RunOnlyRemovesSubscriptions(next, passes[1..]);
      if Cancelled in passes && passes[0] != Cancelled {
        assert Cancelled in passes[1..];
      }
    }
  }

  class Controller<S> {
    var mayRun: bool
    var subscribers: map<int, Option<S>>
    /** The fds handed to the poller's `add`. */
    var added: seq<int>
    /** The `update(event)` calls reaching non-null subscribers. */
    var updates: seq<(S, EPoll.Event)>

    function Snapshot(): State<S>
      reads this
    {
      State(mayRun, subscribers, updates)
    }

    constructor ()
      ensures mayRun && subscribers == map[] && added == [] && updates == []
    {
      mayRun := true;
      subscribers, added, updates := map[], [], [];
    }

    /** `subscribe`: a map insert, so an fd already subscribed keeps its
        subscriber; the fd is handed to the poller either way. */
    method Subscribe(fd: int, s: Option<S>)
      modifies this
      ensures subscribers == if fd in old(subscribers) then old(subscribers) else old(subscribers)[fd := s]
      ensures added == old(added) + [fd]
      ensures mayRun == old(mayRun) && updates == old(updates)
    {
      if fd !in subscribers {
        subscribers := subscribers[fd := s];
      }
      added := added + [fd];
    }

    /** `execute`. */
    method Execute(passes: seq<Pass>)
      modifies this
      ensures Snapshot() == RunAll(old(Snapshot()), passes)
      ensures added == old(added)
    {
      var i := 0;
      while mayRun && i < |passes|
        invariant 0 <= i <= |passes| && added == old(added)
        invariant RunAll(old(Snapshot()), passes) == RunAll(Snapshot(), passes[i..])
      {
        assert passes[i..] == [passes[i]] + passes[i + 1..];
        match passes[i] {
          case Cancelled =>
            Shutdown();
          case Polled(es) =>
            if es != [] {
              Dispatch(es);
            }
        }
        i := i + 1;
      }
      if mayRun {
        assert passes[i..] == [];
      }
    }

    /** The `for_each` over one non-empty poll result. */
    method Dispatch(es: seq<EPoll.Event>)
      modifies this
      ensures (subscribers, updates) == OneShot(old(subscribers), old(updates), es)
      ensures mayRun == old(mayRun) && added == old(added)
    {
      var i := 0;
      while i < |es|
        invariant 0 <= i <= |es| && mayRun == old(mayRun) && added == old(added)
        invariant OneShot(old(subscribers), old(updates), es) == OneShot(subscribers, updates, es[i..])
      {
        var e := es[i];
        assert es[i..][0] == e && es[i..][1..] == es[i + 1..];
        ghost var subs0, notes0 := subscribers, updates;
        if e.fd in subscribers {
          var s := subscribers[e.fd];
          if s.Some? {
            updates := updates + [(s.value, e)];
          }
          subscribers := subscribers - {e.fd};
          assert updates == notes0 + (if subs0[e.fd].Some? then [(subs0[e.fd].value, e)] else []);
        }
        assert OneShot(subs0, notes0, es[i..]) == OneShot(subscribers, updates, es[i + 1..]);
        i := i + 1;
      }
    }

    /** `onCancel` and `shutdown`: stop the loop and drop every subscription. */
    method Shutdown()
      modifies this
      ensures !mayRun && subscribers == map[]
      ensures added == old(added) && updates == old(updates)
    {
      mayRun := false;
      subscribers := map[];
    }
  }
}
