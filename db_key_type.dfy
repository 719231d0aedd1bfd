// DBKey (the plain struct): the database form of a message key, with the
// same lexicographic comparisons, built from a Key or copied by assignment.
module DBKeyTypes {
  import opened MessageKeys

  datatype DBKey = DBKey(left: U64, right: U64)

  /** Construction from a `Key` copies both words. */
  function FromKey(k: Key): (r: DBKey)
    ensures r.left == k.left && r.right == k.right
  {
    DBKey(k.left, k.right)
  }

  predicate Greater(a: DBKey, b: DBKey)
  {
    if a.left > b.left then true
    else a.left == b.left && a.right > b.right
  }

  predicate Less(a: DBKey, b: DBKey)
  {
    if a.left < b.left then true
    else a.left == b.left && a.right < b.right
  }

  predicate Equal(a: DBKey, b: DBKey)
  {
    a.left == b.left && a.right == b.right
  }

  predicate NotEqual(a: DBKey, b: DBKey)
  {
    !Equal(a, b)
  }

  predicate LessEq(a: DBKey, b: DBKey)
  {
    Equal(a, b) || Less(a, b)
  }

  predicate GreaterEq(a: DBKey, b: DBKey)
  {
    Equal(a, b) || Greater(a, b)
  }

  /** Converting keys keeps every comparison: the struct orders keys exactly
      as `Key` does. */
  lemma FromKeyPreservesOrder(a: Key, b: Key)
    ensures Less(FromKey(a), FromKey(b)) <==> MessageKeys.Less(a, b)
    ensures Greater(FromKey(a), FromKey(b)) <==> MessageKeys.Greater(a, b)
    ensures Equal(FromKey(a), FromKey(b)) <==> MessageKeys.Equal(a, b)
    ensures LessEq(FromKey(a), FromKey(b)) <==> MessageKeys.LessEq(a, b)
    ensures GreaterEq(FromKey(a), FromKey(b)) <==> MessageKeys.GreaterEq(a, b)
  {
  }

  /** A mutable DBKey, for the assignment operator. */
  class Cell {
    var key: DBKey

    constructor (l: U64, r: U64)
      ensures key == DBKey(l, r)
    {
      key := DBKey(l, r);
    }

    /** `operator=` copies both words. */
    method Assign(other: DBKey)
      modifies this
      ensures key.left == other.left && key.right == other.right
    {
      key := DBKey(other.left, other.right);
    }
  }
}
