// DBKey (the atomic class) and DBKeyAccess: a key whose two words are read
// and written individually, and a guarded view that hands the words to a
// callback, as a pair, as a timespec or as an LMDB value, or copies them
// into a caller's array.
module DBKeys {
  import opened MessageKeys
  import DBKeyTypes

  class AtomicDBKey {
    var left: U64
    var right: U64

    function Value(): DBKeyTypes.DBKey
      reads this
    {
      DBKeyTypes.DBKey(left, right)
    }

    constructor (l: U64, r: U64)
      ensures left == l && right == r
    {
      left, right := l, r;
    }

    /** The copy constructor copies both words. */
    constructor Copy(other: AtomicDBKey)
      ensures left == other.left && right == other.right
    {
      left, right := other.left, other.right;
    }

    /** `operator=` copies both words. */
    method Assign(other: AtomicDBKey)
      modifies this
      ensures left == old(other.left) && right == old(other.right)
    {
      left, right := other.left, other.right;
    }

    /** `<`, with the same lexicographic rule as the struct. */
    predicate Less(other: AtomicDBKey)
      reads this, other
    {
      if left < other.left then true
      else left == other.left && right < other.right
    }

    predicate Greater(other: AtomicDBKey)
      reads this, other
    {
      if left > other.left then true
      else left == other.left && right > other.right
    }

    predicate Equal(other: AtomicDBKey)
      reads this, other
    {
      left == other.left && right == other.right
    }

    predicate NotEqual(other: AtomicDBKey)
      reads this, other
    {
      !Equal(other)
    }

    predicate LessEq(other: AtomicDBKey)
      reads this, other
    {
      Equal(other) || Less(other)
    }

    predicate GreaterEq(other: AtomicDBKey)
      reads this, other
    {
      Equal(other) || Greater(other)
    }
  }

  /** The atomic key compares exactly as the struct holding the same words. */
  lemma AtomicAgreesWithStruct(a: AtomicDBKey, b: AtomicDBKey)
    ensures a.Less(b) <==> DBKeyTypes.Less(a.Value(), b.Value())
    ensures a.Greater(b) <==> DBKeyTypes.Greater(a.Value(), b.Value())
    ensures a.Equal(b) <==> a.Value() == b.Value()
    ensures a.NotEqual(b) <==> a.Value() != b.Value()
    ensures a.LessEq(b) <==> !a.Greater(b)
    ensures a.GreaterEq(b) <==> !a.Less(b)
  {
  }

  /** A timespec with its two fields taken as the key's 64-bit words. */
  datatype Timespec = Timespec(tvSec: U64, tvNsec: U64)

  class DBKeyAccess {
    var key: DBKeyTypes.DBKey

    /** The default constructor leaves the key unspecified; the model
        starts it at zero. */
    constructor ()
      ensures key == DBKeyTypes.DBKey(0, 0)
    {
      key := DBKeyTypes.DBKey(0, 0);
    }

    /** Built from two words: the private `set(l, r)` makes the key. */
    constructor FromWords(l: U64, r: U64)
      ensures key == DBKeyTypes.DBKey(l, r)
    {
      key := DBKeyTypes.DBKey(l, r);
    }

    /** Built from a key: the private `set(ref)` copies it. */
    constructor FromKey(ref: DBKeyTypes.DBKey)
      ensures key == ref
    {
      key := ref;
    }

    /** `set(timespec)`: the timespec's bytes become the key, seconds in the
        left word and nanoseconds in the right. */
    method Set(ts: Timespec)
      modifies this
      ensures key == DBKeyTypes.DBKey(ts.tvSec, ts.tvNsec)
    {
      key := DBKeyTypes.DBKey(ts.tvSec, ts.tvNsec);
    }

    /** `use(timespec)`: what the callback receives. */
    function UseTimespec(): (ts: Timespec)
      reads this
      ensures ts.tvSec == key.left && ts.tvNsec == key.right
    {
      Timespec(key.left, key.right)
    }

    /** `use(l, r)`: what the callback receives. */
    function UsePair(): (p: (U64, U64))
      reads this
      ensures p.0 == key.left && p.1 == key.right
    {
      (key.left, key.right)
    }

    /** `use(MDB_val)`: a 16-byte value holding the two words in order. */
    function UseValue(): (v: (nat, seq<U64>))
      reads this
      ensures v.0 == 16 && v.1 == [key.left, key.right]
    {
      (16, [key.left, key.right])
    }

    /** `setKey`: writes the left word to `out[0]` and the right to `out[1]`. */
    method SetKey(out: array<U64>)
      requires out.Length >= 2
      modifies out
      ensures out[0] == key.left && out[1] == key.right
      ensures forall i :: 2 <= i < out.Length ==> out[i] == old(out[i])
    {
      out[0] := key.left;
      out[1] := key.right;
    }
  }

  /** Setting from a timespec and reading it back through `use` returns the
      same timespec. */
  method TimespecRoundTrip(access: DBKeyAccess, ts: Timespec) returns (back: Timespec)
    modifies access
    ensures back == ts
  {
    access.Set(ts);
    back := access.UseTimespec();
  }
}
