// Key: a message key made of two unsigned 64-bit words, ordered
// lexicographically, left word first.
module MessageKeys {

  type U64 = x: nat | x <= 0xFFFF_FFFF_FFFF_FFFF

  datatype Key = Key(left: U64, right: U64)

  /** The copy constructor copies both words. */
  function Copy(k: Key): (r: Key)
    ensures r.left == k.left && r.right == k.right
  {
    Key(k.left, k.right)
  }

  predicate Greater(a: Key, b: Key)
  {
    a.left > b.left || (a.left == b.left && a.right > b.right)
  }

  predicate Less(a: Key, b: Key)
  {
    a.left < b.left || (a.left == b.left && a.right < b.right)
  }

  predicate Equal(a: Key, b: Key)
  {
    a.left == b.left && a.right == b.right
  }

  predicate NotEqual(a: Key, b: Key)
  {
    !Equal(a, b)
  }

  predicate LessEq(a: Key, b: Key)
  {
    Equal(a, b) || Less(a, b)
  }

  predicate GreaterEq(a: Key, b: Key)
  {
    Equal(a, b) || Greater(a, b)
  }

  /** The operators form one strict total order: exactly one of `<`, `==`,
      `>` holds, `>` is `<` mirrored, `==` is value equality and the
      derived operators are their negations. */
  lemma Trichotomy(a: Key, b: Key)
    ensures Less(a, b) || Equal(a, b) || Greater(a, b)
    ensures !(Less(a, b) && Equal(a, b)) && !(Less(a, b) && Greater(a, b)) && !(Equal(a, b) && Greater(a, b))
    ensures Greater(a, b) <==> Less(b, a)
    ensures Equal(a, b) <==> a == b
    ensures NotEqual(a, b) <==> a != b
    ensures LessEq(a, b) <==> !Greater(a, b)
    ensures GreaterEq(a, b) <==> !Less(a, b)
  {
  }

  lemma LessTransitive(a: Key, b: Key, c: Key)
    ensures Less(a, b) && Less(b, c) ==> Less(a, c)
  {
  }

  /** `<` agrees with comparing the 128-bit number left * 2^64 + right. */
  function Wide(k: Key): nat
  {
    k.left * 0x1_0000_0000_0000_0000 + k.right
  }

  lemma LessIsWideLess(a: Key, b: Key)
    ensures Less(a, b) <==> Wide(a) < Wide(b)
  {
    if a.left < b.left {
      assert Wide(a) < (a.left + 1) * 0x1_0000_0000_0000_0000 <= Wide(b);
    } else if a.left > b.left {
      assert Wide(b) < (b.left + 1) * 0x1_0000_0000_0000_0000 <= Wide(a);
    }
  }
}
