// An ordered map (the model of std::map): an association list kept strictly
// increasing under a caller-supplied strict total order `less`, so that
// iteration order, `begin()` and `find` are all explicit.
module SortedMaps {
  import opened Wrappers

  /** `less` is a strict total order. */
  ghost predicate StrictTotal<K(!new)>(less: (K, K) -> bool)
  {
    (forall a :: !less(a, a)) &&
    (forall a, b, c :: less(a, b) && less(b, c) ==> less(a, c)) &&
    (forall a, b :: a != b ==> less(a, b) || less(b, a))
  }

  /** Keys strictly increase along the list. */
  ghost predicate Sorted<K, V>(m: seq<(K, V)>, less: (K, K) -> bool)
  {
    forall i, j :: 0 <= i < j < |m| ==> less(m[i].0, m[j].0)
  }

  /** The keys, in iteration order. */
  function Keys<K, V>(m: seq<(K, V)>): (ks: seq<K>)
    ensures |ks| == |m| && forall i :: 0 <= i < |m| ==> ks[i] == m[i].0
  {
    if m == [] then [] else [m[0].0] + Keys(m[1..])
  }

  /** `find`: the value stored under `k`, if any. */
  function Lookup<K(==), V>(m: seq<(K, V)>, k: K): (r: Option<V>)
    ensures r.Some? <==> k in Keys(m)
    ensures r.Some? ==> exists i :: 0 <= i < |m| && m[i] == (k, r.value)
  {
    if m == [] then None
    else if m[0].0 == k then Some(m[0].1)
    else Lookup(m[1..], k)
  }

  /** Insert-or-replace: `m[k] = v`. */
  function Put<K(==,!new), V>(m: seq<(K, V)>, k: K, v: V, less: (K, K) -> bool): (r: seq<(K, V)>)
    requires StrictTotal(less) && Sorted(m, less)
    ensures Sorted(r, less)
    ensures forall x :: x in Keys(r) <==> x == k || x in Keys(m)
  {
    if m == [] then [(k, v)]
    else if m[0].0 == k then [(k, v)] + m[1..]
    else if less(k, m[0].0) then
      assert forall x :: x in Keys(m) ==> x == m[0].0 || less(m[0].0, x);
      [(k, v)] + m
    else
      var rest := Put(m[1..], k, v, less);
      assert forall x :: x in Keys(rest) ==> less(m[0].0, x);
      [m[0]] + rest
  }

  /** After `m[k] = v`, `k` finds `v` and every other key finds what it did. */
  lemma {:induction false} PutLookup<K(!new), V>(m: seq<(K, V)>, k: K, v: V, less: (K, K) -> bool, x: K)
    requires StrictTotal(less) && Sorted(m, less)
    ensures Lookup(Put(m, k, v, less), x) == if x == k then Some(v) else Lookup(m, x)
  {
    if m != [] && m[0].0 != k && !less(k, m[0].0) {
      PutLookup(m[1..], k, v, less, x);
    }
  }

  /** Every entry after `m[k] = v` is the new one or was already there. */
  lemma {:induction false} PutEntries<K(!new), V>(m: seq<(K, V)>, k: K, v: V, less: (K, K) -> bool)
    requires StrictTotal(less) && Sorted(m, less)
    ensures forall e :: e in Put(m, k, v, less) ==> e == (k, v) || e in m
  {
    if m != [] && m[0].0 != k && !less(k, m[0].0) {
      PutEntries(m[1..], k, v, less);
    }
  }

  /** `erase(k)`: drops the entry for `k` and keeps the order of the rest. */
  function Remove<K(==,!new), V>(m: seq<(K, V)>, k: K, less: (K, K) -> bool): (r: seq<(K, V)>)
    requires Sorted(m, less)
    ensures Sorted(r, less)
    ensures forall x :: x in Keys(r) <==> x != k && x in Keys(m)
    ensures Lookup(r, k) == None
    ensures forall x :: x != k ==> Lookup(r, x) == Lookup(m, x)
  {
    if m == [] then []
    else if m[0].0 == k then Remove(m[1..], k, less)
    else
      var rest := Remove(m[1..], k, less);
      assert forall x :: x in Keys(rest) ==> less(m[0].0, x);
      [m[0]] + rest
  }

  /** In a sorted map, `begin()` holds the least key. */
  lemma {:induction false} FirstIsLeast<K(!new), V>(m: seq<(K, V)>, less: (K, K) -> bool, k: K)
    requires Sorted(m, less) && m != []
    requires k in Keys(m) && k != m[0].0
    ensures less(m[0].0, k)
  {
    var i :| 0 <= i < |m| && Keys(m)[i] == k;
  }

  /** In a sorted map `find` reaches every stored entry. */
  lemma {:induction false} LookupFinds<K(!new), V>(m: seq<(K, V)>, less: (K, K) -> bool, i: int)
    requires StrictTotal(less) && Sorted(m, less) && 0 <= i < |m|
    ensures Lookup(m, m[i].0) == Some(m[i].1)
  {
    if i > 0 {
      assert less(m[0].0, m[i].0);
      assert m[1..][i - 1] == m[i];
      LookupFinds(m[1..], less, i - 1);
    }
  }

  /** A std::set: elements strictly increasing under `less`. */
  ghost predicate Increasing<K>(s: seq<K>, less: (K, K) -> bool)
  {
    forall i, j :: 0 <= i < j < |s| ==> less(s[i], s[j])
  }

  /** `insert(x)` on a set: a no-op when `x` is already present. */
  function Insert<K(==,!new)>(s: seq<K>, x: K, less: (K, K) -> bool): (r: seq<K>)
    requires StrictTotal(less) && Increasing(s, less)
    ensures Increasing(r, less)
    ensures forall y :: y in r <==> y == x || y in s
    ensures x in s ==> r == s
  {
    if s == [] then [x]
    else if s[0] == x then s
    else if less(x, s[0]) then
      assert forall y :: y in s ==> y == s[0] || less(s[0], y);
      [x] + s
    else
      var rest := Insert(s[1..], x, less);
      assert forall y :: y in rest ==> less(s[0], y);
      assert x in s ==> x in s[1..];
      [s[0]] + rest
  }

  /** `erase(x)` on a set. */
  function Erase<K(==,!new)>(s: seq<K>, x: K, less: (K, K) -> bool): (r: seq<K>)
    requires Increasing(s, less)
    ensures Increasing(r, less)
    ensures forall y :: y in r <==> y != x && y in s
  {
    if s == [] then []
    else if s[0] == x then Erase(s[1..], x, less)
    else
      var rest := Erase(s[1..], x, less);
      assert forall y :: y in rest ==> less(s[0], y);
      [s[0]] + rest
  }
}
