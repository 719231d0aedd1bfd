// sys::ePoll: a reactor that queues (fd, view) registration requests, moves
// them into its observer table at the start of `poll`, and dispatches the
// kernel's events to the views.  The epoll system calls are inputs: the
// events `epoll_wait` reports, and the fds whose EPOLL_CTL_ADD or
// EPOLL_CTL_DEL fails.  Views are `Option<V>` (a null shared_ptr is None);
// `notify` reaches only non-null views, and those calls are logged.
module EPoll {
  import opened Wrappers

  const IN: bv32 := 0x001
  const PRI: bv32 := 0x002
  const OUT: bv32 := 0x004
  const ERR: bv32 := 0x008
  const HUP: bv32 := 0x010
  const RDHUP: bv32 := 0x2000
  /** The events that end an fd's registration. */
  const Hangup: bv32 := RDHUP | ERR | HUP

  datatype PollType = PollIn | PollOut

  /** The interest mask each registration asks for. */
  function Interest(kind: PollType): (m: bv32)
    ensures m & Hangup == Hangup && m & PRI == PRI
    ensures (m & IN != 0) <==> kind == PollIn
    ensures (m & OUT != 0) <==> kind == PollOut
  {
    match kind
    case PollIn => IN | RDHUP | PRI | ERR | HUP
    case PollOut => OUT | RDHUP | PRI | ERR | HUP
  }

  /** An `epoll_ctl` call issued by the reactor. */
  datatype Ctl = CtlAdd(fd: int, mask: bv32) | CtlDel(fd: int)

  datatype Event = Event(fd: int, mask: bv32)

  /** What `epoll_wait` did: reported events (none on a timeout), or failed. */
  datatype Wait = Events(events: seq<Event>) | WaitError

  /** `poll`'s outcome; all but the thrown EPollCTLError are return codes. */
  datatype PollResult = Dispatched | NothingToPoll | WaitFailed | Destroyed | CtlFailed(fd: int)

  function ReturnCode(r: PollResult): (code: int)
    requires !r.CtlFailed?
    ensures code == 1 <==> r == Dispatched
    ensures code == 0 <==> r == NothingToPoll
    ensures code < 0 <==> r == WaitFailed || r == Destroyed
  {
    match r
    case Dispatched => 1
    case NothingToPoll => 0
    case WaitFailed => -1
    case Destroyed => -1
  }

  /** The reactor's state as `poll` sees it; `failed` is the fd whose
      `epoll_ctl` threw. */
  datatype Reactor<V> = Reactor(
    requests: seq<(int, Option<V>)>,
    observers: map<int, Option<V>>,
    ctl: seq<Ctl>,
    updates: seq<(V, bv32)>,
    failed: Option<int>)

  /** One request moved into the table: EPOLL_CTL_ADD, then `observers[fd] =
      view` and pop; a failing EPOLL_CTL_ADD throws before either. */
  function RegisterStep<V>(kind: PollType, r: Reactor<V>, addRefused: set<int>): (s: Reactor<V>)
    requires r.requests != []
    ensures s.ctl == r.ctl + [CtlAdd(r.requests[0].0, Interest(kind))] && s.updates == r.updates
    ensures r.requests[0].0 in addRefused ==>
      s.failed == Some(r.requests[0].0) && s.requests == r.requests && s.observers == r.observers
    ensures r.requests[0].0 !in addRefused ==>
      && s.failed == r.failed && s.requests == r.requests[1..]
      && r.requests[0].0 in s.observers && s.observers[r.requests[0].0] == r.requests[0].1
  {
    var (fd, view) := r.requests[0];
    var ctl := r.ctl + [CtlAdd(fd, Interest(kind))];
    if fd in addRefused then r.(ctl := ctl, failed := Some(fd))
    else r.(requests := r.requests[1..], observers := r.observers[fd := view], ctl := ctl)
  }

  /** The request drain at the start of `poll`. */
  function RegisterAll<V>(kind: PollType, r: Reactor<V>, addRefused: set<int>): Reactor<V>
    decreases |r.requests|, r.failed.None?
  {
    if r.failed.Some? || r.requests == [] then r
    else RegisterAll(kind, RegisterStep(kind, r, addRefused), addRefused)
  }

  /** The view the last request for `fd` carries, if there is one. */
  function LastRequest<V>(reqs: seq<(int, Option<V>)>, fd: int): Option<Option<V>>
  {
    if reqs == [] then None
    else if reqs[|reqs| - 1].0 == fd then Some(reqs[|reqs| - 1].1)
    else LastRequest(reqs[..|reqs| - 1], fd)
  }

  lemma {:induction false} LastRequestCons<V>(req: (int, Option<V>), reqs: seq<(int, Option<V>)>, fd: int)
    ensures LastRequest([req] + reqs, fd) ==
      if LastRequest(reqs, fd).Some? then LastRequest(reqs, fd)
      else if req.0 == fd then Some(req.1) else None
    decreases |reqs|
  {
    if reqs != [] {
      assert ([req] + reqs)[..|reqs|] == [req] + reqs[..|reqs| - 1];
      LastRequestCons(req, reqs[..|reqs| - 1], fd);
    }
  }

  /** With no refused registration, the drain empties the request queue, a
      later request for an fd replaces an earlier one, fds without a request
      keep their entry, and one EPOLL_CTL_ADD is issued per request in order. */
  lemma {:induction false} LaterRequestWins<V>(kind: PollType, r: Reactor<V>, addRefused: set<int>, fd: int)
    requires r.failed.None?
    requires forall i :: 0 <= i < |r.requests| ==> r.requests[i].0 !in addRefused
    ensures RegisterAll(kind, r, addRefused).failed.None?
    ensures RegisterAll(kind, r, addRefused).requests == []
    ensures |RegisterAll(kind, r, addRefused).ctl| == |r.ctl| + |r.requests|
    ensures RegisterAll(kind, r, addRefused).updates == r.updates
    ensures LastRequest(r.requests, fd).Some? ==>
      fd in RegisterAll(kind, r, addRefused).observers &&
      RegisterAll(kind, r, addRefused).observers[fd] == LastRequest(r.requests, fd).value
    ensures LastRequest(r.requests, fd).None? ==>
      (fd in RegisterAll(kind, r, addRefused).observers <==> fd in r.observers) &&
      (fd in r.observers ==> RegisterAll(kind, r, addRefused).observers[fd] == r.observers[fd])
    decreases |r.requests|
  {
    if r.requests != [] {
      var next := RegisterStep(kind, r, addRefused);
      LaterRequestWins(kind, next, addRefused, fd);
      assert r.requests == [r.requests[0]] + next.requests;
      LastRequestCons(r.requests[0], next.requests, fd);
    }
  }

  /** One reported event.  A hangup or error event for a known fd notifies its
      view (if non-null), erases the entry and issues EPOLL_CTL_DEL, which may
      throw; for an unknown fd it does nothing.  Any other event goes through
      `operator[]`, so an unknown fd gains a null entry and nothing is
      notified. */
  function DispatchStep<V>(r: Reactor<V>, e: Event, delRefused: set<int>): (s: Reactor<V>)
    ensures s.requests == r.requests && r.updates <= s.updates && |s.updates| <= |r.updates| + 1
    ensures e.fd !in r.observers ==> s.updates == r.updates
    ensures forall fd :: fd in s.observers ==>
      s.observers[fd].None? || (fd in r.observers && s.observers[fd] == r.observers[fd])
  {
    if e.mask & Hangup != 0 then
      if e.fd !in r.observers then r
      else
        var view := r.observers[e.fd];
        var r' := r.(observers := r.observers - {e.fd},
                     updates := r.updates + (if view.Some? then [(view.value, e.mask)] else []),
                     ctl := r.ctl + [CtlDel(e.fd)]);
        if e.fd in delRefused then r'.(failed := Some(e.fd)) else r'
    else
      var observers := if e.fd in r.observers then r.observers else r.observers[e.fd := None];
      var view := observers[e.fd];
      r.(observers := observers,
         updates := r.updates + (if view.Some? then [(view.value, e.mask)] else []))
  }

  /** The dispatch loop over the reported events; it stops at a thrown
      EPOLL_CTL_DEL failure. */
  function DispatchAll<V>(r: Reactor<V>, events: seq<Event>, delRefused: set<int>): Reactor<V>
    decreases |events|
  {
    if r.failed.Some? || events == [] then r
    else DispatchAll(DispatchStep(r, events[0], delRefused), events[1..], delRefused)
  }

  /** Each event notifies at most one view, the table only loses entries to
      hangups or gains null entries, and no view is ever invented. */
  lemma {:induction false} DispatchNotifiesAtMostOncePerEvent<V>(r: Reactor<V>, events: seq<Event>, delRefused: set<int>)
    ensures |DispatchAll(r, events, delRefused).updates| <= |r.updates| + |events|
    ensures DispatchAll(r, events, delRefused).requests == r.requests
    ensures forall fd :: fd in DispatchAll(r, events, delRefused).observers ==>
      DispatchAll(r, events, delRefused).observers[fd].None? ||
      (fd in r.observers && DispatchAll(r, events, delRefused).observers[fd] == r.observers[fd])
    decreases |events|
  {
    if r.failed.None? && events != [] {
      DispatchNotifiesAtMostOncePerEvent(DispatchStep(r, events[0], delRefused), events[1..], delRefused);
    }
  }

  /** A hangup or error for an fd with a non-null view notifies that view once
      with the event mask, and the fd leaves the table. */
  lemma HangupNotifiesAndForgets<V>(r: Reactor<V>, e: Event, delRefused: set<int>)
    requires r.failed.None? && e.mask & Hangup != 0
    requires e.fd in r.observers && r.observers[e.fd].Some?
    ensures DispatchAll(r, [e], delRefused).updates == r.updates + [(r.observers[e.fd].value, e.mask)]
    ensures e.fd !in DispatchAll(r, [e], delRefused).observers
    ensures DispatchAll(r, [e], delRefused).ctl == r.ctl + [CtlDel(e.fd)]
  {
    assert DispatchAll(r, [e], delRefused) == DispatchAll(DispatchStep(r, e, delRefused), [], delRefused);
  }

  class EPoll<V> {
    const kind: PollType
    const maxEvents: nat
    var destroyed: bool
    var requests: seq<(int, Option<V>)>
    var observers: map<int, Option<V>>
    /** The `epoll_ctl` calls issued, in order. */
    var ctl: seq<Ctl>
    /** The `update(events)` calls reaching non-null views, in order. */
    var updates: seq<(V, bv32)>

    function State(): Reactor<V>
      reads this
    {
      Reactor(requests, observers, ctl, updates, None)
    }

    constructor (kind: PollType, nevents: nat)
      ensures this.kind == kind && maxEvents == nevents && !destroyed
      ensures requests == [] && observers == map[] && ctl == [] && updates == []
    {
      this.kind, maxEvents := kind, nevents;
      destroyed := false;
      requests, observers, ctl, updates := [], map[], [], [];
    }

    /** `add`: only queues the request; the table is untouched until `poll`. */
    method Add(fd: int, view: Option<V>)
      modifies this
      ensures requests == old(requests) + [(fd, view)]
      ensures observers == old(observers) && ctl == old(ctl) && updates == old(updates)
      ensures destroyed == old(destroyed)
    {
      requests := requests + [(fd, view)];
    }

    /** `poll`: moves the queued requests into the table, waits, and
        dispatches the reported events. */
    method Poll(wait: Wait, addRefused: set<int>, delRefused: set<int>) returns (r: PollResult)
      requires wait.Events? ==> |wait.events| <= maxEvents
      modifies this
      ensures destroyed == old(destroyed)
      ensures old(destroyed) ==> r == Destroyed && unchanged(this)
      ensures !old(destroyed) ==>
        var registered := RegisterAll(kind, old(State()), addRefused);
        if registered.failed.Some? then
          r == CtlFailed(registered.failed.value) && State() == registered.(failed := None)
        else
          match wait
          case WaitError => r == WaitFailed && State() == registered
          case Events(es) =>
            if es == [] then r == NothingToPoll && State() == registered
            else
              var done := DispatchAll(registered, es, delRefused);
              State() == done.(failed := None) &&
              r == (if done.failed.Some? then CtlFailed(done.failed.value) else Dispatched)
    {
      if destroyed {
        return Destroyed;
      }
      var failed := DrainRequests(addRefused);
      if failed.Some? {
        return CtlFailed(failed.value);
      }
      match wait {
        case WaitError =>
          return WaitFailed;
        case Events(es) =>
          if es == [] {
            return NothingToPoll;
          }
          failed := DispatchEvents(es, delRefused);
          r := if failed.Some? then CtlFailed(failed.value) else Dispatched;
      }
    }

    /** The request drain loop at the start of `poll`. */
    method DrainRequests(addRefused: set<int>) returns (failed: Option<int>)
      modifies this
      ensures destroyed == old(destroyed)
      ensures RegisterAll(kind, old(State()), addRefused) == State().(failed := failed)
    {
      failed := None;
      while failed.None? && requests != []
        invariant destroyed == old(destroyed)
        invariant RegisterAll(kind, old(State()), addRefused) == RegisterAll(kind, State().(failed := failed), addRefused)
        decreases |requests|, failed.None?
      {
        var (fd, view) := requests[0];
        ctl := ctl + [CtlAdd(fd, Interest(kind))];
        if fd in addRefused {
          failed := Some(fd);
        } else {
          observers := observers[fd := view];
          requests := requests[1..];
        }
      }
    }

    /** The dispatch loop over the reported events. */
    method DispatchEvents(es: seq<Event>, delRefused: set<int>) returns (failed: Option<int>)
      modifies this
      ensures destroyed == old(destroyed)
      ensures DispatchAll(old(State()), es, delRefused) == State().(failed := failed)
    {
      failed := None;
      var i := 0;
      while failed.None? && i < |es|
        invariant 0 <= i <= |es| && destroyed == old(destroyed)
        invariant DispatchAll(old(State()), es, delRefused) == DispatchAll(State().(failed := failed), es[i..], delRefused)
      {
        var e := es[i];
        ghost var pre := State();
        if e.mask & Hangup != 0 {
          if e.fd in observers {
            var view := observers[e.fd];
            if view.Some? {
              updates := updates + [(view.value, e.mask)];
            }
            observers := observers - {e.fd};
            ctl := ctl + [CtlDel(e.fd)];
            if e.fd in delRefused {
              failed := Some(e.fd);
            }
          }
        } else {
          if e.fd !in observers {
            observers := observers[e.fd := None];
          }
          var view := observers[e.fd];
          if view.Some? {
            updates := updates + [(view.value, e.mask)];
          }
        }
        assert State().(failed := failed) == DispatchStep(pre, e, delRefused);
        assert es[i..] == [e] + es[i + 1..];
        i := i + 1;
      }
      if failed.None? {
        assert es[i..] == [];
      }
    }

    /** The destructor: marks the reactor destroyed, pops every pending
        request and clears the table. */
    method Destroy()
      modifies this
      ensures destroyed && requests == [] && observers == map[]
      ensures ctl == old(ctl) && updates == old(updates)
    {
      destroyed := true;
      while requests != []
        invariant destroyed && ctl == old(ctl) && updates == old(updates)
      {
        requests := requests[1..];
      }
      observers := map[];
    }
  }
}
