// ServiceManager: a registry of named services with a "start after"
// dependency map, and recursive start, stop and destroy.  Services are
// identified by name; each service's up/down flag is kept here and its
// `start`/`stop` calls are logged (the services' own hooks are foreign).
// std::map and std::set are ordered by string comparison.  The source's
// recursion has no bound, and a dependency cycle makes it recurse forever:
// `addServiceAfter` refuses only a cycle of exactly two services, so a
// service made its own dependent, or a longer cycle, can be registered.  The
// model threads a `fuel` bound through the recursion and reports whether the
// bound sufficed.
module ServiceManager {
  import opened Wrappers
  import SortedMaps
  import opened Strings

  datatype Call = Started(name: string) | Stopped(name: string)

  /** The registry's names, the dependency map (a service to the services
      started after it), every service's up flag, and the start/stop log. */
  datatype Registry = Registry(
    names: seq<string>,
    order: seq<(string, seq<string>)>,
    up: map<string, bool>,
    log: seq<Call>)

  ghost predicate WellFormed(r: Registry)
  {
    && SortedMaps.Increasing(r.names, StrLess)
    && SortedMaps.Sorted(r.order, StrLess)
    && forall i :: 0 <= i < |r.order| ==> SortedMaps.Increasing(r.order[i].1, StrLess)
  }

  /** A service that was never started is down. */
  predicate IsUp(r: Registry, n: string)
  {
    n in r.up && r.up[n]
  }

  /** The dependents registered after `n` (empty when `n` has no entry). */
  function Dependents(order: seq<(string, seq<string>)>, n: string): (ds: seq<string>)
    ensures n !in SortedMaps.Keys(order) ==> ds == []
  {
    match SortedMaps.Lookup(order, n)
    case Some(v) => v
    case None => []
  }

  /** `finddeps`: the services `n` must start after, in key order. */
  function Prerequisites(order: seq<(string, seq<string>)>, n: string): (ks: seq<string>)
    ensures |ks| <= |order|
    ensures forall k :: k in ks ==> k in SortedMaps.Keys(order)
  {
    if order == [] then []
    else
      var rest := Prerequisites(order[1..], n);
      if n in order[0].1 then [order[0].0] + rest else rest
  }

  /** `finddeps(n)` lists only keys of the map, and every key whose
      dependents include `n`. */
  lemma {:induction false} PrerequisitesListed(order: seq<(string, seq<string>)>, n: string)
    ensures forall k :: k in Prerequisites(order, n) ==> k in SortedMaps.Keys(order)
    ensures forall i :: 0 <= i < |order| && n in order[i].1 ==> order[i].0 in Prerequisites(order, n)
  {
    if order != [] {
      PrerequisitesListed(order[1..], n);
      forall i | 0 < i < |order| && n in order[i].1
        ensures order[i].0 in Prerequisites(order, n)
      {
        assert order[1..][i - 1] == order[i];
      }
    }
  }

  /** In a well-formed map, `finddeps(n)` is exactly the keys whose
      dependents include `n`. */
  lemma {:induction false} PrerequisitesExactly(order: seq<(string, seq<string>)>, n: string, k: string)
    requires SortedMaps.Sorted(order, StrLess)
    ensures k in Prerequisites(order, n) <==> k in SortedMaps.Keys(order) && n in Dependents(order, k)
  {
    StrLessIsStrictTotal();
    PrerequisitesListed(order, n);
    if order != [] {
      PrerequisitesExactly(order[1..], n, k);
      if k == order[0].0 {
        forall j | 0 <= j < |order[1..]|
          ensures SortedMaps.Keys(order[1..])[j] != k
        {
          assert StrLess(order[0].0, order[1 + j].0);
        }
      }
    }
  }

  /** `OMCrossDep`: either service already follows the other. */
  predicate CrossDep(order: seq<(string, seq<string>)>, a: string, b: string)
  {
    b in Dependents(order, a) || a in Dependents(order, b)
  }

  lemma CrossDepSymmetric(order: seq<(string, seq<string>)>, a: string, b: string)
    ensures CrossDep(order, a, b) == CrossDep(order, b, a)
  {
  }

  // ---------------------------------------------------------------- start

  /** `startServicePrivate`: starts a registered service that is down. */
  function StartPrivate(r: Registry, n: string): (s: Registry)
    ensures s.names == r.names && s.order == r.order
    ensures n in r.names ==> IsUp(s, n)
    ensures forall x :: x != n ==> (IsUp(s, x) <==> IsUp(r, x))
    ensures s.log == r.log || (s.log == r.log + [Started(n)] && n in r.names && !IsUp(r, n))
  {
    if n in r.names && !IsUp(r, n) then r.(up := r.up[n := true], log := r.log + [Started(n)])
    else r
  }

  /** `r` and `s` share names and dependencies and `s` has every service up
      that `r` has. */
  ghost predicate Below(r: Registry, s: Registry)
  {
    r.names == s.names && r.order == s.order && forall n :: IsUp(r, n) ==> IsUp(s, n)
  }

  /** Start only ever appends starts to the log, and a state that changed has
      a longer log. */
  ghost predicate Grows(r: Registry, s: Registry)
  {
    Below(r, s) && r.log <= s.log && (|s.log| == |r.log| ==> s == r)
  }

  /** `startService` as corrected: the services `n` must start after are
      started first, each with its own prerequisites, and then `n` itself.
      The flag says the bound sufficed. */
  function Start(r: Registry, n: string, fuel: nat): (res: (Registry, bool))
    ensures Grows(r, res.0)
    decreases fuel, 0
  {
    if fuel == 0 then (r, false)
    else
      var (r1, ok) := StartEach(r, Prerequisites(r.order, n), fuel - 1);
      if !ok then (r1, false) else (StartPrivate(r1, n), true)
  }

  /** The `for_each` over the services to start. */
  function StartEach(r: Registry, names: seq<string>, fuel: nat): (res: (Registry, bool))
    ensures Grows(r, res.0)
    decreases fuel, 1, |names|
  {
    if names == [] then (r, true)
    else
      var (r1, ok) := Start(r, names[0], fuel);
      if !ok then (r1, false) else StartEach(r1, names[1..], fuel)
  }

  /** `startService` as written: a service with an entry starts its
      prerequisites, then itself; a service without one starts, for every
      entry listing it, that entry's service and then itself, so it is up
      before the later entries' services are. */
  function StartAsWritten(r: Registry, n: string, fuel: nat): (res: (Registry, bool))
    ensures Grows(r, res.0)
    decreases fuel, 0
  {
    if fuel == 0 then (r, false)
    else if n in SortedMaps.Keys(r.order) then
      var (r1, ok) := StartEachAsWritten(r, Prerequisites(r.order, n), fuel - 1, None);
      if !ok then (r1, false) else (StartPrivate(r1, n), true)
    else StartEachAsWritten(r, Prerequisites(r.order, n), fuel - 1, Some(n))
  }

  /** The `for_each` loops as written, each start followed by a start of
      `after` when given. */
  function StartEachAsWritten(r: Registry, names: seq<string>, fuel: nat, after: Option<string>): (res: (Registry, bool))
    ensures Grows(r, res.0)
    decreases fuel, 1, |names|
  {
    if names == [] then (r, true)
    else
      var (r1, ok) := StartAsWritten(r, names[0], fuel);
      if !ok then (r1, false)
      else
        var r2 := if after.Some? then StartPrivate(r1, after.value) else r1;
        StartEachAsWritten(r2, names[1..], fuel, after)
  }

  /** Two services `a` and `b` that both start before `X`, which has no entry
      of its own: as written `X` is started between them, while the corrected
      start brings both up first. */
  lemma StartAsWrittenInterleaves()
    ensures var r := Registry(["X", "a", "b"], [("a", ["X"]), ("b", ["X"])], map[], []);
      && StartAsWritten(r, "X", 3).0.log == [Started("a"), Started("X"), Started("b")]
      && Start(r, "X", 3).0.log == [Started("a"), Started("b"), Started("X")]
  {
    var r := Registry(["X", "a", "b"], [("a", ["X"]), ("b", ["X"])], map[], []);
    InterleavedAsWritten(r);
    OrderedWhenCorrected(r);
  }

  lemma InterleavedAsWritten(r: Registry)
    requires r == Registry(["X", "a", "b"], [("a", ["X"]), ("b", ["X"])], map[], [])
    ensures StartAsWritten(r, "X", 3).0.log == [Started("a"), Started("X"), Started("b")]
  {
    assert Prerequisites(r.order, "X") == ["a", "b"];
    assert Prerequisites(r.order, "a") == [] && Prerequisites(r.order, "b") == [];
    assert SortedMaps.Keys(r.order) == ["a", "b"];
    var r1 := StartPrivate(r, "a");
    assert StartAsWritten(r, "a", 2) == (r1, true);
    var r2 := StartPrivate(r1, "X");
    var r3 := StartPrivate(r2, "b");
    assert StartAsWritten(r2, "b", 2) == (r3, true);
    assert StartPrivate(r3, "X") == r3;
    assert StartEachAsWritten(r2, ["b"], 2, Some("X")) == (r3, true);
    assert StartAsWritten(r, "X", 3) == (r3, true);
  }

  lemma OrderedWhenCorrected(r: Registry)
    requires r == Registry(["X", "a", "b"], [("a", ["X"]), ("b", ["X"])], map[], [])
    ensures Start(r, "X", 3).0.log == [Started("a"), Started("b"), Started("X")]
  {
    assert Prerequisites(r.order, "X") == ["a", "b"];
    assert Prerequisites(r.order, "a") == [] && Prerequisites(r.order, "b") == [];
  }

  /** Whether the bound suffices depends only on the dependency map. */
  lemma {:induction false} StartBoundIgnoresState(r: Registry, s: Registry, n: string, fuel: nat)
    requires r.order == s.order
    ensures Start(r, n, fuel).1 == Start(s, n, fuel).1
    decreases fuel, 0
  {
    if fuel > 0 {
      StartEachBoundIgnoresState(r, s, Prerequisites(r.order, n), fuel - 1);
    }
  }

  lemma {:induction false} StartEachBoundIgnoresState(r: Registry, s: Registry, names: seq<string>, fuel: nat)
    requires r.order == s.order
    ensures StartEach(r, names, fuel).1 == StartEach(s, names, fuel).1
    decreases fuel, 1, |names|
  {
    if names != [] {
      StartBoundIgnoresState(r, s, names[0], fuel);
      StartEachBoundIgnoresState(Start(r, names[0], fuel).0, Start(s, names[0], fuel).0, names[1..], fuel);
    }
  }

  /** A start that changes nothing in `r` changes nothing in any state with
      more services up. */
  lemma {:induction false} StartNoOpLifts(r: Registry, s: Registry, n: string, fuel: nat)
    requires Below(r, s) && Start(r, n, fuel).0 == r
    ensures Start(s, n, fuel).0 == s
    decreases fuel, 0
  {
    if fuel > 0 {
      var deps := Prerequisites(r.order, n);
      var (r1, ok) := StartEach(r, deps, fuel - 1);
      assert r1 == r by {
        if ok {
          assert Start(r, n, fuel).0 == StartPrivate(r1, n);
        }
      }
      StartEachNoOpLifts(r, s, deps, fuel - 1);
      StartEachBoundIgnoresState(r, s, deps, fuel - 1);
      if ok {
        assert StartPrivate(r, n) == r;
        assert StartPrivate(s, n) == s;
      }
    }
  }

  lemma {:induction false} StartEachNoOpLifts(r: Registry, s: Registry, names: seq<string>, fuel: nat)
    requires Below(r, s) && StartEach(r, names, fuel).0 == r
    ensures StartEach(s, names, fuel).0 == s
    decreases fuel, 1, |names|
  {
    if names != [] {
      var r1 := Start(r, names[0], fuel).0;
      assert r1 == r;
      StartNoOpLifts(r, s, names[0], fuel);
      StartBoundIgnoresState(r, s, names[0], fuel);
      if Start(r, names[0], fuel).1 {
        StartEachNoOpLifts(r, s, names[1..], fuel);
      }
    }
  }

  /** Starting a service twice is the same as starting it once: start acts
      only on services that are down. */
  lemma {:induction false} StartIdempotent(r: Registry, n: string, fuel: nat)
    ensures Start(Start(r, n, fuel).0, n, fuel) == Start(r, n, fuel)
    decreases fuel, 0
  {
    var r' := Start(r, n, fuel).0;
    StartBoundIgnoresState(r, r', n, fuel);
    if fuel > 0 {
      var deps := Prerequisites(r.order, n);
      var (r1, ok) := StartEach(r, deps, fuel - 1);
      StartEachIdempotent(r, deps, fuel - 1);
      if ok {
        StartEachNoOpLifts(r1, r', deps, fuel - 1);
      }
    }
  }

  lemma {:induction false} StartEachIdempotent(r: Registry, names: seq<string>, fuel: nat)
    ensures StartEach(StartEach(r, names, fuel).0, names, fuel) == StartEach(r, names, fuel)
    decreases fuel, 1, |names|
  {
    var final := StartEach(r, names, fuel).0;
    StartEachBoundIgnoresState(r, final, names, fuel);
    if names != [] {
      var (r1, ok) := Start(r, names[0], fuel);
      StartIdempotent(r, names[0], fuel);
      StartNoOpLifts(r1, final, names[0], fuel);
      StartBoundIgnoresState(r1, final, names[0], fuel);
      if ok {
        StartEachIdempotent(r1, names[1..], fuel);
      }
    }
  }

  /** A registered service is up after a start that had enough bound. */
  lemma StartBringsUp(r: Registry, n: string, fuel: nat)
    requires Start(r, n, fuel).1 && n in r.names
    ensures IsUp(Start(r, n, fuel).0, n)
  {
    var r1 := StartEach(r, Prerequisites(r.order, n), fuel - 1).0;
    assert r1.names == r.names;
  }

  /** Every registered service of the list is up after the loop over it. */
  lemma {:induction false} StartEachBringsUp(r: Registry, names: seq<string>, fuel: nat)
    requires StartEach(r, names, fuel).1
    ensures forall p :: p in names && p in r.names ==> IsUp(StartEach(r, names, fuel).0, p)
    decreases |names|
  {
    if names != [] {
      var r1 := Start(r, names[0], fuel).0;
      if names[0] in r.names {
        StartBringsUp(r, names[0], fuel);
      }
      StartEachBringsUp(r1, names[1..], fuel);
    }
  }

  /** The start order: a start that had enough bound brings up every
      registered service `n` must start after before it starts `n`, whose
      start, when it happens here, is the last entry of the log. */
  lemma StartAfterPrerequisites(r: Registry, n: string, fuel: nat)
    requires Start(r, n, fuel).1
    ensures var (r1, ok) := StartEach(r, Prerequisites(r.order, n), fuel - 1);
      && ok
      && (forall p :: p in Prerequisites(r.order, n) && p in r.names ==> IsUp(r1, p))
      && (n in r.names && !IsUp(r1, n) ==> Start(r, n, fuel).0.log == r1.log + [Started(n)])
      && (n !in r.names || IsUp(r1, n) ==> Start(r, n, fuel).0 == r1)
  {
    StartEachBringsUp(r, Prerequisites(r.order, n), fuel - 1);
  }

  // ----------------------------------------------------------------- stop

  /** `stopServicePrivate`: stops a registered service that is up. */
  function StopPrivate(r: Registry, n: string): (s: Registry)
    ensures s.names == r.names && s.order == r.order
    ensures !IsUp(s, n) <==> n in r.names || !IsUp(r, n)
    ensures forall x :: x != n ==> (IsUp(s, x) <==> IsUp(r, x))
    ensures s.log == r.log || (s.log == r.log + [Stopped(n)] && n in r.names && IsUp(r, n))
  {
    if n in r.names && IsUp(r, n) then r.(up := r.up[n := false], log := r.log + [Stopped(n)])
    else r
  }

  function StopEach(r: Registry, names: seq<string>): (res: Registry)
    ensures res.names == r.names && res.order == r.order && r.log <= res.log
    ensures forall x :: x in names && x in r.names ==> !IsUp(res, x)
    ensures forall x :: x !in names ==> (IsUp(res, x) <==> IsUp(r, x))
    ensures forall x :: IsUp(res, x) ==> IsUp(r, x)
    ensures forall i :: |r.log| <= i < |res.log| ==> res.log[i].Stopped? && res.log[i].name in names
    ensures (forall x :: x in names && x in r.names ==> !IsUp(r, x)) ==> res == r
    decreases |names|
  {
    if names == [] then r else StopEach(StopPrivate(r, names[0]), names[1..])
  }

  /** `stopService`: stops every direct dependent (one level only), then the
      service itself. */
  function Stop(r: Registry, n: string): (s: Registry)
    ensures n in r.names ==> !IsUp(s, n)
    ensures forall x :: IsUp(s, x) ==> IsUp(r, x)
    ensures forall x :: x != n && x !in Dependents(r.order, n) ==> (IsUp(s, x) <==> IsUp(r, x))
  {
    StopPrivate(StopEach(r, Dependents(r.order, n)), n)
  }

  /** After a stop the service and its direct dependents are down, only they
      were stopped, the service itself last; and stopping again changes
      nothing. */
  lemma StopDependentsFirst(r: Registry, n: string)
    ensures var s := Stop(r, n);
      && s.names == r.names && s.order == r.order && r.log <= s.log
      && (forall x :: (x == n || x in Dependents(r.order, n)) && x in r.names ==> !IsUp(s, x))
      && (forall x :: IsUp(s, x) ==> IsUp(r, x))
      && (forall i :: |r.log| <= i < |s.log| ==>
            s.log[i].Stopped? && (s.log[i].name == n || s.log[i].name in Dependents(r.order, n)))
      && (n in r.names && IsUp(r, n) && n !in Dependents(r.order, n) ==> s.log[|s.log| - 1] == Stopped(n))
      && Stop(s, n) == s
  {
    var s1 := StopEach(r, Dependents(r.order, n));
    var s := Stop(r, n);
    assert StopEach(s, Dependents(r.order, n)) == s;
  }

  // -------------------------------------------------------------- destroy

  /** `destroyService`: destroys the direct dependents first, then stops
      the service and erases it from the registry; the dependency map is
      never changed.  Destroying only ever stops services, and every name it
      erases is down. */
  function Destroy(r: Registry, n: string, fuel: nat): (res: (Registry, bool))
    requires SortedMaps.Increasing(r.names, StrLess)
    ensures SortedMaps.Increasing(res.0.names, StrLess) && res.0.order == r.order
    ensures forall x :: x in res.0.names ==> x in r.names
    ensures forall x :: IsUp(res.0, x) ==> IsUp(r, x)
    ensures forall x :: x in r.names && x !in res.0.names ==> !IsUp(res.0, x)
    ensures res.1 ==> n !in res.0.names
    ensures res.1 && n in r.names ==> !IsUp(res.0, n)
    decreases fuel, 0
  {
    if n !in r.names then (r, true)
    else if fuel == 0 then (r, false)
    else
      var (r1, ok) := DestroyEach(r, Dependents(r.order, n), fuel - 1);
      if !ok then (r1, false)
      else
        StopDependentsFirst(r1, n);
        var s := Stop(r1, n);
        (s.(names := SortedMaps.Erase(s.names, n, StrLess)), true)
  }

  function DestroyEach(r: Registry, names: seq<string>, fuel: nat): (res: (Registry, bool))
    requires SortedMaps.Increasing(r.names, StrLess)
    ensures SortedMaps.Increasing(res.0.names, StrLess) && res.0.order == r.order
    ensures forall x :: x in res.0.names ==> x in r.names
    ensures forall x :: IsUp(res.0, x) ==> IsUp(r, x)
    ensures forall x :: x in r.names && x !in res.0.names ==> !IsUp(res.0, x)
    ensures res.1 ==> forall x :: x in names ==> x !in res.0.names
    decreases fuel, 1, |names|
  {
    if names == [] then (r, true)
    else
      var (r1, ok) := Destroy(r, names[0], fuel);
      if !ok then (r1, false) else DestroyEach(r1, names[1..], fuel)
  }

  lemma DestroyUnfolds(r: Registry, n: string, fuel: nat)
    requires SortedMaps.Increasing(r.names, StrLess) && n in r.names && fuel > 0
    ensures var (r1, ok) := DestroyEach(r, Dependents(r.order, n), fuel - 1);
      Destroy(r, n, fuel) ==
        if !ok then (r1, false)
        else (Stop(r1, n).(names := SortedMaps.Erase(Stop(r1, n).names, n, StrLess)), true)
  {
  }

  /** Dependents first: a destroy that had enough bound has destroyed and
      brought down every direct dependent before it stops the service, and
      that stop logs at most the service's own stop. */
  lemma DestroyDependentsFirst(r: Registry, n: string, fuel: nat)
    requires SortedMaps.Increasing(r.names, StrLess)
    requires n in r.names && Destroy(r, n, fuel).1
    ensures var (r1, ok) := DestroyEach(r, Dependents(r.order, n), fuel - 1);
      && ok
      && (forall d :: d in Dependents(r.order, n) ==> d !in r1.names && (d in r.names ==> !IsUp(r1, d)))
      && (Destroy(r, n, fuel).0.log == r1.log || Destroy(r, n, fuel).0.log == r1.log + [Stopped(n)])
      && n !in Destroy(r, n, fuel).0.names && !IsUp(Destroy(r, n, fuel).0, n)
  {
    var r1 := DestroyEach(r, Dependents(r.order, n), fuel - 1).0;
    assert StopEach(r1, Dependents(r1.order, n)) == r1;
  }

  // ------------------------------------------------------- start/stop all

  /** Every registered service has an entry or is some entry's dependent:
      registration only ever creates one of the two, so the start as written
      reaches every registered service. */
  ghost predicate Covered(r: Registry)
  {
    forall n :: n in r.names ==>
      n in SortedMaps.Keys(r.order) || exists k :: n in Dependents(r.order, k)
  }

  /** `startAll` over the given names, in order. */
  function StartAllOf(r: Registry, ns: seq<string>, fuel: nat): (res: (Registry, bool))
    ensures Grows(r, res.0)
    decreases |ns|
  {
    if ns == [] then (r, true)
    else
      var (r1, ok) := Start(r, ns[0], fuel);
      if !ok then (r1, false) else StartAllOf(r1, ns[1..], fuel)
  }

  /** With a large enough bound, `startAll` leaves every registered service up. */
  lemma {:induction false} StartAllBringsAllUp(r: Registry, ns: seq<string>, fuel: nat)
    requires StartAllOf(r, ns, fuel).1
    ensures forall x :: x in ns && x in r.names ==> IsUp(StartAllOf(r, ns, fuel).0, x)
    decreases |ns|
  {
    if ns != [] {
      var r1 := Start(r, ns[0], fuel).0;
      StartAllBringsAllUp(r1, ns[1..], fuel);
      if ns[0] in r.names {
        StartBringsUp(r, ns[0], fuel);
      }
    }
  }

  /** `startAll` as written, over `startService` as written. */
  function StartAllOfAsWritten(r: Registry, ns: seq<string>, fuel: nat): (res: (Registry, bool))
    ensures Grows(r, res.0)
    decreases |ns|
  {
    if ns == [] then (r, true)
    else
      var (r1, ok) := StartAsWritten(r, ns[0], fuel);
      if !ok then (r1, false) else StartAllOfAsWritten(r1, ns[1..], fuel)
  }

  /** As written, a start that terminated brings up a registered service
      that has an entry or is some entry's dependent; one that is neither is
      left as it was. */
  lemma StartAsWrittenBringsUp(r: Registry, n: string, fuel: nat)
    requires SortedMaps.Sorted(r.order, StrLess)
    requires StartAsWritten(r, n, fuel).1 && n in r.names
    ensures IsUp(StartAsWritten(r, n, fuel).0, n) <==>
      n in SortedMaps.Keys(r.order) || (exists k :: n in Dependents(r.order, k)) || IsUp(r, n)
  {
    var ps := Prerequisites(r.order, n);
    if n !in SortedMaps.Keys(r.order) {
      if exists k :: n in Dependents(r.order, k) {
        var k :| n in Dependents(r.order, k);
        var i :| 0 <= i < |r.order| && r.order[i] == (k, Dependents(r.order, k));
        PrerequisitesListed(r.order, n);
        assert r.order[i].0 in ps;
        var (r1, ok) := StartAsWritten(r, ps[0], fuel - 1);
        var r2 := StartPrivate(r1, n);
        assert StartEachAsWritten(r, ps, fuel - 1, Some(n)) == StartEachAsWritten(r2, ps[1..], fuel - 1, Some(n));
      } else if ps != [] {
        PrerequisitesExactly(r.order, n, ps[0]);
        assert false;
      }
    }
  }

  /** As written, a `startAll` that terminates leaves every registered
      service up when the registry is `Covered`. */
  lemma {:induction false} StartAllAsWrittenBringsAllUp(r: Registry, ns: seq<string>, fuel: nat)
    requires SortedMaps.Sorted(r.order, StrLess)
    requires StartAllOfAsWritten(r, ns, fuel).1
    ensures Covered(r) ==> forall x :: x in ns && x in r.names ==> IsUp(StartAllOfAsWritten(r, ns, fuel).0, x)
    decreases |ns|
  {
    if ns != [] {
      var r1 := StartAsWritten(r, ns[0], fuel).0;
      StartAllAsWrittenBringsAllUp(r1, ns[1..], fuel);
      if ns[0] in r.names {
        StartAsWrittenBringsUp(r, ns[0], fuel);
      }
    }
  }


  /** `stopAll` over the given names, in order. */
  function StopAllOf(r: Registry, ns: seq<string>): (res: Registry)
    ensures res.names == r.names && res.order == r.order && r.log <= res.log
    ensures forall x :: x in ns && x in r.names ==> !IsUp(res, x)
    ensures forall x :: IsUp(res, x) ==> IsUp(r, x)
    decreases |ns|
  {
    if ns == [] then r
    else
      StopDependentsFirst(r, ns[0]);
      StopAllOf(Stop(r, ns[0]), ns[1..])
  }

  // --------------------------------------------------------- registration

  /** Every dependents entry of a well-formed map is a std::set. */
  lemma DependentsAreSet(order: seq<(string, seq<string>)>, n: string)
    requires forall i :: 0 <= i < |order| ==> SortedMaps.Increasing(order[i].1, StrLess)
    ensures SortedMaps.Increasing(Dependents(order, n), StrLess)
  {
    if SortedMaps.Lookup(order, n).Some? {
      var i :| 0 <= i < |order| && order[i] == (n, Dependents(order, n));
    }
  }

  /** `addService`: registers the service (an existing registration of the
      name is kept) and resets its dependents to none. */
  function Register(r: Registry, name: string): (res: Registry)
    requires WellFormed(r)
    ensures res.up == r.up && res.log == r.log
  {
    StrLessIsStrictTotal();
    r.(names := SortedMaps.Insert(r.names, name, StrLess),
       order := SortedMaps.Put(r.order, name, [], StrLess))
  }

  /** `addServiceAfter`: with `base` unregistered nothing changes.  Otherwise
      the service is registered; unless one of the two already follows the
      other, it is then added to `base`'s dependents. */
  function RegisterAfter(r: Registry, base: string, name: string): (res: Registry)
    requires WellFormed(r)
    ensures res.up == r.up && res.log == r.log
  {
    if base !in r.names then r
    else
      StrLessIsStrictTotal();
      var names := SortedMaps.Insert(r.names, name, StrLess);
      if CrossDep(r.order, base, name) then r.(names := names)
      else
        DependentsAreSet(r.order, base);
        var added := SortedMaps.Insert(Dependents(r.order, base), name, StrLess);
        r.(names := names, order := SortedMaps.Put(r.order, base, added, StrLess))
  }

  lemma PutFind(m: seq<(string, seq<string>)>, k: string, v: seq<string>)
    requires SortedMaps.StrictTotal(StrLess) && SortedMaps.Sorted(m, StrLess)
    ensures forall x :: (SortedMaps.Lookup(SortedMaps.Put(m, k, v, StrLess), x) ==
                         if x == k then Some(v) else SortedMaps.Lookup(m, x))
  {
    forall x ensures SortedMaps.Lookup(SortedMaps.Put(m, k, v, StrLess), x) ==
      (if x == k then Some(v) else SortedMaps.Lookup(m, x))
    {
      SortedMaps.PutLookup(m, k, v, StrLess, x);
    }
  }

  /** `addService` registers the name, empties its dependents, leaves every
      other entry alone and keeps the registry well formed. */
  lemma RegisterEffect(r: Registry, name: string)
    requires WellFormed(r)
    ensures var s := Register(r, name);
      && WellFormed(s)
      && (forall x :: x in s.names <==> x == name || x in r.names)
      && SortedMaps.Lookup(s.order, name) == Some([])
      && (forall x :: x != name ==> SortedMaps.Lookup(s.order, x) == SortedMaps.Lookup(r.order, x))
  {
    StrLessIsStrictTotal();
    PutFind(r.order, name, []);
    PutKeepsSets(r.order, name, []);
  }

  /** Registering a name that had no dependents keeps every registered
      service startable; re-registering one that had dependents drops them. */
  lemma RegisterKeepsCovered(r: Registry, name: string)
    requires WellFormed(r) && Covered(r) && Dependents(r.order, name) == []
    ensures Covered(Register(r, name))
  {
    RegisterEffect(r, name);
    CoveredWithNewEntry(r, Register(r, name), name);
  }

  /** Adding an entry without dependents for `name` keeps the others'. */
  lemma CoveredWithNewEntry(r: Registry, s: Registry, name: string)
    requires Covered(r) && Dependents(r.order, name) == []
    requires forall x :: x in s.names <==> x == name || x in r.names
    requires SortedMaps.Lookup(s.order, name).Some?
    requires forall x :: x != name ==> SortedMaps.Lookup(s.order, x) == SortedMaps.Lookup(r.order, x)
    ensures Covered(s)
  {
    forall x | x in s.names
      ensures x in SortedMaps.Keys(s.order) || exists k :: x in Dependents(s.order, k)
    {
      if x == name {
        assert SortedMaps.Lookup(s.order, x).Some?;
      } else if x in SortedMaps.Keys(r.order) {
        assert SortedMaps.Lookup(r.order, x).Some?;
        assert SortedMaps.Lookup(s.order, x).Some?;
      } else {
        var k :| x in Dependents(r.order, k);
        assert k != name;
        assert Dependents(s.order, k) == Dependents(r.order, k);
      }
    }
  }

  /** `addServiceAfter` on a registered base registers the name and, unless
      the two already depend on each other, makes it a dependent of `base`
      and changes no other entry. */
  lemma RegisterAfterEffect(r: Registry, base: string, name: string)
    requires WellFormed(r)
    ensures var s := RegisterAfter(r, base, name);
      && WellFormed(s)
      && (base !in r.names ==> s == r)
      && (base in r.names ==> forall x :: x in s.names <==> x == name || x in r.names)
      && (CrossDep(r.order, base, name) ==> s.order == r.order)
      && (base in r.names && !CrossDep(r.order, base, name) ==>
            && (forall x :: x in Dependents(s.order, base) <==> x == name || x in Dependents(r.order, base))
            && (forall x :: x != base ==> SortedMaps.Lookup(s.order, x) == SortedMaps.Lookup(r.order, x)))
  {
    StrLessIsStrictTotal();
    if base in r.names && !CrossDep(r.order, base, name) {
      DependentsAreSet(r.order, base);
      var added := SortedMaps.Insert(Dependents(r.order, base), name, StrLess);
      PutFind(r.order, base, added);
      PutKeepsSets(r.order, base, added);
    }
  }

  /** `addServiceAfter` keeps every registered service startable. */
  lemma RegisterAfterKeepsCovered(r: Registry, base: string, name: string)
    requires WellFormed(r) && Covered(r)
    ensures Covered(RegisterAfter(r, base, name))
  {
    RegisterAfterEffect(r, base, name);
    var s := RegisterAfter(r, base, name);
    if base in r.names {
      forall x | x in s.names
        ensures x in SortedMaps.Keys(s.order) || exists k :: x in Dependents(s.order, k)
      {
        if x in Dependents(s.order, base) {
        } else if x == name {
          assert base in Dependents(r.order, name);
        } else if x !in SortedMaps.Keys(r.order) {
          var k :| x in Dependents(r.order, k);
          assert k != base ==> Dependents(s.order, k) == Dependents(r.order, k);
        }
      }
    }
  }

  // ----------------------------------------------------------------- class

  class Manager {
    var names: seq<string>
    var order: seq<(string, seq<string>)>
    var up: map<string, bool>
    var log: seq<Call>

    function State(): Registry
      reads this
    {
      Registry(names, order, up, log)
    }

    constructor ()
      ensures State() == Registry([], [], map[], [])
    {
      names, order, up, log := [], [], map[], [];
    }

    /** `addService`. */
    method AddService(name: string)
      requires WellFormed(State())
      modifies this
      ensures State() == Register(old(State()), name)
    {
      StrLessIsStrictTotal();
      names := SortedMaps.Insert(names, name, StrLess);
      order := SortedMaps.Put(order, name, [], StrLess);
    }

    /** `addServiceAfter`. */
    method AddServiceAfter(base: string, name: string)
      requires WellFormed(State())
      modifies this
      ensures State() == RegisterAfter(old(State()), base, name)
    {
      if base !in names {
        return;
      }
      StrLessIsStrictTotal();
      names := SortedMaps.Insert(names, name, StrLess);
      if CrossDep(order, base, name) {
        return;
      }
      DependentsAreSet(order, base);
      var added := SortedMaps.Insert(Dependents(order, base), name, StrLess);
      order := SortedMaps.Put(order, base, added, StrLess);
    }

    /** `finddeps`. */
    method FindDeps(n: string) returns (result: seq<string>)
      ensures result == Prerequisites(order, n)
    {
      result := [];
      var i := |order|;
      while i > 0
        invariant 0 <= i <= |order| && result == Prerequisites(order[i..], n)
      {
        i := i - 1;
        assert order[i..][1..] == order[i + 1..];
        if n in order[i].1 {
          result := [order[i].0] + result;
        }
      }
    }

    /** `startService` as corrected, with the recursion bound. */
    method StartService(n: string, fuel: nat) returns (ok: bool)
      modifies this
      ensures (State(), ok) == Start(old(State()), n, fuel)
      decreases fuel, 0
    {
      if fuel == 0 {
        return false;
      }
      var needed := FindDeps(n);
      ok := StartEachOf(needed, fuel - 1);
      if ok {
        StartServicePrivate(n);
      }
    }

    method StartEachOf(needed: seq<string>, fuel: nat) returns (ok: bool)
      modifies this
      ensures (State(), ok) == StartEach(old(State()), needed, fuel)
      decreases fuel, 1
    {
      var i := 0;
      ok := true;
      while i < |needed|
        invariant 0 <= i <= |needed|
        invariant ok && StartEach(old(State()), needed, fuel) == StartEach(State(), needed[i..], fuel)
      {
        assert needed[i..][0] == needed[i] && needed[i..][1..] == needed[i + 1..];
        ok := StartService(needed[i], fuel);
        if !ok {
          return;
        }
        i := i + 1;
      }
    }

    method StartServicePrivate(n: string)
      modifies this
      ensures State() == StartPrivate(old(State()), n)
    {
      if n in names && !(n in up && up[n]) {
        up := up[n := true];
        log := log + [Started(n)];
      }
    }

    method StopServicePrivate(n: string)
      modifies this
      ensures State() == StopPrivate(old(State()), n)
    {
      if n in names && n in up && up[n] {
        up := up[n := false];
        log := log + [Stopped(n)];
      }
    }

    /** `stopService`. */
    method StopService(n: string)
      modifies this
      ensures State() == Stop(old(State()), n)
    {
      var subs := Dependents(order, n);
      var i := 0;
      while i < |subs|
        invariant 0 <= i <= |subs| && order == old(order)
        invariant StopEach(old(State()), subs) == StopEach(State(), subs[i..])
      {
        assert subs[i..][0] == subs[i] && subs[i..][1..] == subs[i + 1..];
        StopServicePrivate(subs[i]);
        i := i + 1;
      }
      StopServicePrivate(n);
    }

    /** `startAll`: starts every registered service, in name order. */
    method StartAll(fuel: nat) returns (ok: bool)
      modifies this
      ensures (State(), ok) == StartAllOf(old(State()), old(names), fuel)
    {
      var all := names;
      var i := 0;
      ok := true;
      while i < |all|
        invariant 0 <= i <= |all|
        invariant ok && StartAllOf(old(State()), all, fuel) == StartAllOf(State(), all[i..], fuel)
      {
        assert all[i..][0] == all[i] && all[i..][1..] == all[i + 1..];
        ok := StartService(all[i], fuel);
        if !ok {
          return;
        }
        i := i + 1;
      }
    }

    /** `stopAll`: stops every registered service, in name order. */
    method StopAll()
      modifies this
      ensures State() == StopAllOf(old(State()), old(names))
    {
      var all := names;
      var i := 0;
      while i < |all|
        invariant 0 <= i <= |all|
        invariant StopAllOf(old(State()), all) == StopAllOf(State(), all[i..])
      {
        assert all[i..][0] == all[i] && all[i..][1..] == all[i + 1..];
        StopService(all[i]);
        i := i + 1;
      }
    }

    /** `getdeplist`: the direct dependents only; the recursive calls' results
        are discarded. */
    method GetDepList(n: string) returns (result: seq<string>)
      ensures result == Dependents(order, n)
    {
      result := [];
      var deps := Dependents(order, n);
      var i := 0;
      while i < |deps|
        invariant 0 <= i <= |deps| && result == deps[..i]
      {
        result := result + [deps[i]];
        i := i + 1;
      }
    }

    /** `destroyService`, with the recursion bound. */
    method DestroyService(n: string, fuel: nat) returns (ok: bool)
      requires SortedMaps.Increasing(names, StrLess)
      modifies this
      ensures (State(), ok) == Destroy(old(State()), n, fuel)
      decreases fuel, 0
    {
      if n !in names {
        return true;
      }
      if fuel == 0 {
        return false;
      }
      DestroyUnfolds(State(), n, fuel);
      var deplist := GetDepList(n);
      ok := DestroyEachOf(deplist, fuel - 1);
      if ok {
        StopService(n);
        names := SortedMaps.Erase(names, n, StrLess);
      }
    }

    method DestroyEachOf(deplist: seq<string>, fuel: nat) returns (ok: bool)
      requires SortedMaps.Increasing(names, StrLess)
      modifies this
      ensures (State(), ok) == DestroyEach(old(State()), deplist, fuel)
      decreases fuel, 1
    {
      var i := 0;
      ok := true;
      while i < |deplist|
        invariant 0 <= i <= |deplist| && SortedMaps.Increasing(names, StrLess)
        invariant ok && DestroyEach(old(State()), deplist, fuel) == DestroyEach(State(), deplist[i..], fuel)
      {
        assert deplist[i..][0] == deplist[i] && deplist[i..][1..] == deplist[i + 1..];
        ok := DestroyService(deplist[i], fuel);
        if !ok {
          return;
        }
        i := i + 1;
      }
    }

    /** `destroyAll` (also the destructor): destroys the first registered
        service until none is left, so every service that was registered
        ends down. */
    method DestroyAll(fuel: nat) returns (ok: bool)
      requires SortedMaps.Increasing(names, StrLess)
      modifies this
      ensures ok ==> names == []
      ensures ok ==> forall x :: x in old(names) ==> !IsUp(State(), x)
      ensures forall x :: x in names ==> x in old(names)
      ensures forall x :: IsUp(State(), x) ==> IsUp(old(State()), x)
      ensures order == old(order)
    {
      ok := true;
      while names != []
        invariant SortedMaps.Increasing(names, StrLess) && order == old(order)
        invariant forall x :: x in names ==> x in old(names)
        invariant forall x :: x in old(names) && x !in names ==> !IsUp(State(), x)
        invariant forall x :: IsUp(State(), x) ==> IsUp(old(State()), x)
        decreases set x | x in names
      {
        ghost var before := set x | x in names;
        var first := names[0];
        ok := DestroyService(first, fuel);
        if !ok {
          return;
        }
        assert first in before && first !in names;
      }
    }
  }

  /** Storing a std::set keeps every dependents entry a std::set. */
  lemma {:induction false} PutKeepsSets(m: seq<(string, seq<string>)>, k: string, v: seq<string>)
    requires SortedMaps.StrictTotal(StrLess) && SortedMaps.Sorted(m, StrLess)
    requires forall i :: 0 <= i < |m| ==> SortedMaps.Increasing(m[i].1, StrLess)
    requires SortedMaps.Increasing(v, StrLess)
    ensures forall i :: 0 <= i < |SortedMaps.Put(m, k, v, StrLess)| ==>
      SortedMaps.Increasing(SortedMaps.Put(m, k, v, StrLess)[i].1, StrLess)
  {
    if m != [] && m[0].0 != k && !StrLess(k, m[0].0) {
      PutKeepsSets(m[1..], k, v);
    }
  }
}
