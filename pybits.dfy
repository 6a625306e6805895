/** Python's bitwise OR on its unbounded integers.
    Python reads an int as an infinite two's-complement bit string, so
    every int satisfies `a == 2 * (a >> 1) + (a & 1)`, with `>>` rounding
    toward minus infinity. Dafny's `/` and `%` by 2 are Euclidean, which for
    the divisor 2 is the same floor division, so `a / 2` is `a >> 1` and
    `a % 2` is `a & 1` for every int, negative ones included. */
module PyBits {

  /** `a | b` as Python computes it. 0 and -1 are the two fixed points of
      halving (all bits clear, all bits set), so they end the recursion. */
  function BitOr(a: int, b: int): int
    decreases Abs(a) + Abs(b)
  {
    if a == 0 then b
    else if b == 0 then a
    else if a == -1 || b == -1 then -1
    else 2 * BitOr(a / 2, b / 2) + (if a % 2 == 1 || b % 2 == 1 then 1 else 0)
  }

  function Abs(a: int): nat { if a < 0 then -a else a }

  /** Bit `k` of `a` (bit 0 is the least significant one). */
  function Bit(a: int, k: nat): bool
    decreases k
  {
    if k == 0 then a % 2 == 1 else Bit(a / 2, k - 1)
  }

  /** The lowest bit of `a | b` is the OR of the lowest bits. */
  lemma {:induction false} BitOrLow(a: int, b: int)
    ensures (BitOr(a, b) % 2 == 1) == (a % 2 == 1 || b % 2 == 1)
  {
    if a != 0 && b != 0 && a != -1 && b != -1 {
      var low := if a % 2 == 1 || b % 2 == 1 then 1 else 0;
      assert BitOr(a, b) == 2 * BitOr(a / 2, b / 2) + low;
      ParityOfDouble(BitOr(a / 2, b / 2), low);
    }
  }

  /** `2 * q + low` has remainder `low` for a bit `low`. */
  lemma ParityOfDouble(q: int, low: int)
    requires low == 0 || low == 1
    ensures (2 * q + low) % 2 == low
  {
  }

  /** Shifting `a | b` right by one is the OR of the shifted operands. */
  lemma {:induction false} BitOrHalf(a: int, b: int)
    ensures BitOr(a, b) / 2 == BitOr(a / 2, b / 2)
  {
    if a == 0 {
      assert BitOr(0, b / 2) == b / 2;
    } else if b == 0 {
      assert BitOr(a / 2, 0) == a / 2;
    } else if a == -1 || b == -1 {
      assert a / 2 == -1 || b / 2 == -1;
    }
  }

  /** Every bit of `a | b` is the OR of the operands' bits at that place. */
  lemma {:induction false} BitOrBit(a: int, b: int, k: nat)
    ensures Bit(BitOr(a, b), k) == (Bit(a, k) || Bit(b, k))
    decreases k
  {
    if k == 0 {
      BitOrLow(a, b);
    } else {
      BitOrHalf(a, b);
      BitOrBit(a / 2, b / 2, k - 1);
    }
  }

  /** `a | b` keeps every bit of `a`: if `c` lacks a bit that `a` has,
      `a | b` can never equal `c`, whatever `b` is. */
  lemma BitOrNeverEquals(a: int, b: int, c: int, k: nat)
    requires Bit(a, k) && !Bit(c, k)
    ensures BitOr(a, b) != c
  {
    BitOrBit(a, b, k);
  }

  /** Python's reading of `x == a | x == b`: since `|` binds tighter than
      `==`, it is the chained comparison `x == (a | x) == b`, that is
      `x == (a | x) and (a | x) == b`. */
  predicate ChainedEqOr(x: int, a: int, b: int) {
    x == BitOr(a, x) && BitOr(a, x) == b
  }

  /** The chained test is false for every `x` as soon as `b` lacks one of
      the bits of `a`. */
  lemma ChainedEqOrFalse(x: int, a: int, b: int, k: nat)
    requires Bit(a, k) && !Bit(b, k)
    ensures !ChainedEqOr(x, a, b)
  {
    BitOrNeverEquals(a, x, b, k);
  }
}
