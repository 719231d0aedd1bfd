// Sequence: a 64-bit unsigned counter that counts up (or, under the Reverse
// policy, down) and either wraps around or refuses to move past its end,
// depending on the Rotate policy.
module Sequences {

  const Max: nat := 0xFFFF_FFFF_FFFF_FFFF

  type U64 = x: nat | x <= Max

  /** `getNext`'s result: the new value, or the `out_of_range` exception. */
  datatype Next = Value(v: U64) | OutOfRange

  /** The value after one `getNext` (unchanged when it throws) and what the
      call returns. */
  function Step(rotate: bool, reverse: bool, v: U64): (r: (U64, Next))
    ensures r.1.OutOfRange? <==> !rotate && v == (if reverse then 0 else Max)
    ensures r.1.OutOfRange? ==> r.0 == v
    ensures r.1.Value? ==> r.1.v == r.0
    ensures r.1.Value? && !reverse ==> r.0 == (v + 1) % (Max + 1)
    ensures r.1.Value? && reverse ==> r.0 == (v - 1) % (Max + 1)
  {
    if !reverse then
      if v == Max then (if rotate then (0, Value(0)) else (v, OutOfRange))
      else (v + 1, Value(v + 1))
    else
      if v == 0 then (if rotate then (Max, Value(Max)) else (v, OutOfRange))
      else (v - 1, Value(v - 1))
  }

  /** A reverse step undoes a forward step that did not throw, and vice versa. */
  lemma StepsAreInverse(rotate: bool, v: U64)
    ensures Step(rotate, false, v).1.Value? ==> Step(rotate, true, Step(rotate, false, v).0).0 == v
    ensures Step(rotate, true, v).1.Value? ==> Step(rotate, false, Step(rotate, true, v).0).0 == v
  {
  }

  /** The value after `n` successful calls. */
  function Advance(rotate: bool, reverse: bool, v: U64, n: nat): U64
    decreases n
  {
    if n == 0 then v else Advance(rotate, reverse, Step(rotate, reverse, v).0, n - 1)
  }

  /** A fresh forward sequence hands out 1, 2, ... and a fresh reverse one
      Max - 1, Max - 2, ...: after `n` calls the counter has moved `n`
      places, as long as it did not reach its end. */
  lemma {:induction false} AdvanceCounts(rotate: bool, reverse: bool, v: U64, n: nat)
    requires if reverse then n <= v else v + n <= Max
    ensures Advance(rotate, reverse, v, n) == if reverse then v - n else v + n
    decreases n
  {
    if n > 0 {
      AdvanceCounts(rotate, reverse, Step(rotate, reverse, v).0, n - 1);
    }
  }

  /** Under Rotate the counter cycles through all 2^64 values. */
  lemma {:induction false} RotateHasFullPeriod(reverse: bool, v: U64, n: nat)
    ensures Advance(true, reverse, v, n) == if reverse then (v - n) % (Max + 1) else (v + n) % (Max + 1)
    decreases n
  {
    if n > 0 {
      var w := Step(true, reverse, v).0;
      RotateHasFullPeriod(reverse, w, n - 1);
      if reverse {
        BackwardMod(v, n - 1);
      } else {
        ForwardMod(v, n - 1);
      }
    }
  }

  /** Adding one full turn does not change a value modulo 2^64. */
  lemma ShiftMod(x: int)
    ensures (x + (Max + 1)) % (Max + 1) == x % (Max + 1)
  {
  }

  /** A wrapped increment followed by `k` more is `k + 1` more. */
  lemma ForwardMod(v: U64, k: nat)
    ensures ((v + 1) % (Max + 1) + k) % (Max + 1) == (v + 1 + k) % (Max + 1)
  {
    if v == Max {
      assert (v + 1) % (Max + 1) == 0;
      ShiftMod(k);
    } else {
      assert (v + 1) % (Max + 1) == v + 1;
    }
  }

  /** A wrapped decrement followed by `k` more is `k + 1` more. */
  lemma BackwardMod(v: U64, k: nat)
    ensures ((v - 1) % (Max + 1) - k) % (Max + 1) == (v - 1 - k) % (Max + 1)
  {
    if v == 0 {
      assert (v - 1) % (Max + 1) == Max;
      ShiftMod(-1 - k);
    } else {
      assert (v - 1) % (Max + 1) == v - 1;
    }
  }

  class Sequence {
    const rotate: bool
    const reverse: bool
    var value: U64

    /** A forward sequence starts at 0, a reverse one at 2^64 - 1. */
    constructor (rotate: bool, reverse: bool)
      ensures this.rotate == rotate && this.reverse == reverse
      ensures value == if reverse then Max else 0
    {
      this.rotate := rotate;
      this.reverse := reverse;
      value := if reverse then Max else 0;
    }

    /** The copy constructor copies the value. */
    constructor Copy(other: Sequence)
      ensures rotate == other.rotate && reverse == other.reverse && value == other.value
    {
      rotate := other.rotate;
      reverse := other.reverse;
      value := other.value;
    }

    /** `operator=` copies the value (both sides have the same policies). */
    method Assign(other: Sequence)
      requires rotate == other.rotate && reverse == other.reverse
      modifies this
      ensures value == old(other.value)
    {
      value := other.value;
    }

    function GetCurrent(): (r: U64)
      reads this
      ensures r == value
    {
      value
    }

    method GetNext() returns (r: Next)
      modifies this
      ensures (value, r) == Step(rotate, reverse, old(value))
    {
      if !reverse {
        if value == Max {
          if rotate {
            value := 0;
            r := Value(value);
          } else {
            r := OutOfRange;
          }
        } else {
          value := value + 1;
          r := Value(value);
        }
      } else {
        if value == 0 {
          if rotate {
            value := Max;
            r := Value(value);
          } else {
            r := OutOfRange;
          }
        } else {
          value := value - 1;
          r := Value(value);
        }
      }
    }
  }
}
