// PollController: persistent poll(2) subscriptions.  The poll-set base
// (`poll_ctl_add`/`enable`/`disable`/`delete`, `clear`, `fill`, `poll`) is not
// part of this model: its calls are logged, and each pass's watch list and
// poll count are inputs.  A subscriber is `Option<V>`; `notify` reaches only
// non-null ones, and those calls are logged.
module PollController {
  import opened Wrappers

  /** A call on the poll-set base. */
  datatype PollCtl = CtlAdd(fd: int) | CtlEnable(fd: int) | CtlDisable(fd: int) | CtlDelete(fd: int) | CtlClear

  /** A `pollfd` of the watch list after `poll`. */
  datatype Polled = Polled(fd: int, revents: int)

  /** The notifications one dispatch makes: for every watched fd with
      non-zero revents and a non-null subscriber, in watch-list order. */
  function Notified<V>(subs: map<int, Option<V>>, watchlist: seq<Polled>): seq<(V, Polled)>
  {
    if watchlist == [] then []
    else
      var w := watchlist[|watchlist| - 1];
      Notified(subs, watchlist[..|watchlist| - 1]) +
      (if w.revents != 0 && w.fd in subs && subs[w.fd].Some? then [(subs[w.fd].value, w)] else [])
  }

  /** Exactly the polled entries with non-zero revents and a non-null
      subscriber are notified, each to its subscriber. */
  lemma {:induction false} NotifiedExactly<V>(subs: map<int, Option<V>>, watchlist: seq<Polled>)
    ensures var r := Notified(subs, watchlist);
      && |r| <= |watchlist|
      && (forall i :: 0 <= i < |r| ==>
            r[i].1 in watchlist && r[i].1.revents != 0 && r[i].1.fd in subs && subs[r[i].1.fd] == Some(r[i].0))
      && (forall w :: w in watchlist && w.revents != 0 && w.fd in subs && subs[w.fd].Some? ==>
            (subs[w.fd].value, w) in r)
    decreases |watchlist|
  {
    if watchlist != [] {
      var w := watchlist[|watchlist| - 1];
      var front := watchlist[..|watchlist| - 1];
      NotifiedExactly(subs, front);
      assert watchlist == front + [w];
      assert forall x :: x in watchlist ==> x in front || x == w;
    }
  }

  /** Each pass of `execute` sees a watch list and the count `poll` returned,
      or that another thread called `onCancel`/`shutdown` before it. */
  datatype Pass = Watched(watchlist: seq<Polled>, count: int) | Cancelled

  datatype State<V> = State(running: bool, ctl: seq<PollCtl>, updates: seq<(V, Polled)>)

  /** One pass: dispatch only for a non-empty watch list with a positive
      poll count; a cancellation clears the flag and the poll set. */
  function PassEffect<V>(subs: map<int, Option<V>>, st: State<V>, p: Pass): State<V>
  {
    match p
    case Cancelled => st.(running := false, ctl := st.ctl + [CtlClear])
    case Watched(wl, n) =>
      if wl != [] && n > 0 then st.(updates := st.updates + Notified(subs, wl)) else st
  }

  function RunAll<V>(subs: map<int, Option<V>>, st: State<V>, passes: seq<Pass>): State<V>
    decreases |passes|
  {
    if !st.running || passes == [] then st
    else RunAll(subs, PassEffect(subs, st, passes[0]), passes[1..])
  }

  /** Notifications only ever go to subscribers of fds that had events, and a
      cancellation ends the loop. */
  lemma {:induction false} RunNotifiesOnlySubscribers<V>(subs: map<int, Option<V>>, st: State<V>, passes: seq<Pass>)
    ensures st.updates <= RunAll(subs, st, passes).updates
    ensures forall i :: |st.updates| <= i < |RunAll(subs, st, passes).updates| ==>
      var (v, w) := RunAll(subs, st, passes).updates[i];
      w.revents != 0 && w.fd in subs && subs[w.fd] == Some(v)
    ensures st.running && Cancelled in passes ==> !RunAll(subs, st, passes).running
    decreases |passes|
  {
    if st.running && passes != [] {
      RunNotifiesOnlySubscribers(subs, PassEffect(subs, st, passes[0]), passes[1..]);
      if passes[0].Watched? {
        NotifiedExactly(subs, passes[0].watchlist);
      }
      if Cancelled in passes && passes[0] != Cancelled {
        assert Cancelled in passes[1..];
      }
    }
  }

  class Controller<V> {
    var mayRun: bool
    var subscribers: map<int, Option<V>>
    var ctl: seq<PollCtl>
    var updates: seq<(V, Polled)>

    function Snapshot(): State<V>
      reads this
    {
      State(mayRun, ctl, updates)
    }

    constructor ()
      ensures mayRun && subscribers == map[] && ctl == [] && updates == []
    {
      mayRun := true;
      subscribers, ctl, updates := map[], [], [];
    }

    /** `subscribe`: a map insert that keeps an existing subscriber; the fd
        joins the poll set only while running. */
    method Subscribe(fd: int, view: Option<V>)
      modifies this
      ensures subscribers == if fd in old(subscribers) then old(subscribers) else old(subscribers)[fd := view]
      ensures ctl == old(ctl) + (if mayRun then [CtlAdd(fd)] else [])
      ensures mayRun == old(mayRun) && updates == old(updates)
    {
      if fd !in subscribers {
        subscribers := subscribers[fd := view];
      }
      if mayRun {
        ctl := ctl + [CtlAdd(fd)];
      }
    }

    /** `watch`, `unwatch` and `remove` act on the poll set only while
        running; none of them touches the subscribers. */
    method Watch(fd: int)
      modifies this
      ensures ctl == old(ctl) + (if mayRun then [CtlEnable(fd)] else [])
      ensures mayRun == old(mayRun) && subscribers == old(subscribers) && updates == old(updates)
    {
      if mayRun {
        ctl := ctl + [CtlEnable(fd)];
      }
    }

    method Unwatch(fd: int)
      modifies this
      ensures ctl == old(ctl) + (if mayRun then [CtlDisable(fd)] else [])
      ensures mayRun == old(mayRun) && subscribers == old(subscribers) && updates == old(updates)
    {
      if mayRun {
        ctl := ctl + [CtlDisable(fd)];
      }
    }

    method Remove(fd: int)
      modifies this
      ensures ctl == old(ctl) + (if mayRun then [CtlDelete(fd)] else [])
      ensures mayRun == old(mayRun) && subscribers == old(subscribers) && updates == old(updates)
    {
      if mayRun {
        ctl := ctl + [CtlDelete(fd)];
      }
    }

    /** `execute`: subscriptions persist across notifications. */
    method Execute(passes: seq<Pass>)
      modifies this
      ensures Snapshot() == RunAll(old(subscribers), old(Snapshot()), passes)
      ensures subscribers == old(subscribers)
    {
      var i := 0;
      while mayRun && i < |passes|
        invariant 0 <= i <= |passes| && subscribers == old(subscribers)
        invariant RunAll(subscribers, old(Snapshot()), passes) == RunAll(subscribers, Snapshot(), passes[i..])
      {
        assert passes[i..] == [passes[i]] + passes[i + 1..];
        match passes[i] {
          case Cancelled =>
            Shutdown();
          case Watched(wl, n) =>
            if wl != [] && n > 0 {
              Dispatch(wl);
            }
        }
        i := i + 1;
      }
      if mayRun {
        assert passes[i..] == [];
      }
    }

    /** The loop over the polled watch list. */
    method Dispatch(wl: seq<Polled>)
      modifies this
      ensures updates == old(updates) + Notified(subscribers, wl)
      ensures mayRun == old(mayRun) && subscribers == old(subscribers) && ctl == old(ctl)
    {
      var i := 0;
      while i < |wl|
        invariant 0 <= i <= |wl| && mayRun == old(mayRun) && subscribers == old(subscribers) && ctl == old(ctl)
        invariant updates == old(updates) + Notified(subscribers, wl[..i])
      {
        var w := wl[i];
        assert wl[..i + 1][..i] == wl[..i];
        if w.revents != 0 {
          if w.fd in subscribers {
            var view := subscribers[w.fd];
            if view.Some? {
              updates := updates + [(view.value, w)];
            }
          }
        }
        i := i + 1;
      }
      assert wl[..i] == wl;
    }

    /** `onCancel` and `shutdown`: clear the flag and the poll set; the
        subscriber map is kept. */
    method Shutdown()
      modifies this
      ensures !mayRun && ctl == old(ctl) + [CtlClear]
      ensures subscribers == old(subscribers) && updates == old(updates)
    {
      mayRun := false;
      ctl := ctl + [CtlClear];
    }
  }
}
