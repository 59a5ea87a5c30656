/** The two machine types the sound chip's code computes with: the emulator's 8-bit `Word` and
    Go's 64-bit signed `int`. Every operation on either wraps at its width; the functions here
    state that wrap-around explicitly, because unbounded Dafny integers do not. */
module GoTypes {

  /** Width of the emulator's `Word` (Go's `uint8`). Shifts, `+` and `-` on a Word wrap at this
      width BEFORE any conversion to `int`, so `(v & 0x7) << WordBits` is always 0. */
  const WordBits: nat := 8
  type Word = bv8

  /** Go's `int` on a 64-bit target. */
  const IntBits: nat := 64
  const MinInt: int := -0x8000_0000_0000_0000
  const MaxInt: int := 0x7FFF_FFFF_FFFF_FFFF
  /** 2^IntBits. */
  const IntModulus: int := 0x1_0000_0000_0000_0000

  predicate IsInt(x: int) {
    MinInt <= x <= MaxInt
  }

  /** The value a Go `int` holds after an arithmetic result `x` of one operation on Go ints (a
      sum, a difference or a doubling, so within twice the int range): two's-complement
      wrap-around. */
  function Wrap(x: int): (r: int)
    requires MinInt + MinInt <= x <= MaxInt + MaxInt
    ensures IsInt(r)
    ensures IsInt(x) ==> r == x
    ensures r == x || r == x - IntModulus || r == x + IntModulus
  {
    if x > MaxInt then x - IntModulus else if x < MinInt then x + IntModulus else x
  }

  function Pow2(n: nat): (p: int)
    ensures 1 <= p
  {
    if n == 0 then 1 else 2 * Pow2(n - 1)
  }

  /** Go's `x >> s` for a signed `int` and an unsigned count: an arithmetic shift, which rounds
      toward minus infinity. It is written one bit at a time (Dafny's `/` by 2 rounds the same
      way), which makes it exact for every count, including counts of 64 and more. */
  function Shr(x: int, s: nat): (r: int)
    ensures 0 <= x ==> 0 <= r <= x
    ensures x < 0 ==> x <= r <= -1
    ensures s == 0 ==> r == x
    decreases s
  {
    if s == 0 then x else Shr(x / 2, s - 1)
  }

  /** A positive multiple of a positive d is at least d. */
  lemma {:induction false} MultipleAtLeast(d: int, k: nat)
    requires 0 < d && 1 <= k
    ensures d <= d * k
    decreases k
  {
    if k > 1 {
      MultipleAtLeast(d, k - 1);
      assert d * k == d * (k - 1) + d;
    }
  }

  /** Division is the unique quotient: x = d * q + r with 0 <= r < d fixes x / d to q. */
  lemma DivisionUnique(x: int, d: int, q: int, r: int)
    requires 0 < d && x == d * q + r && 0 <= r < d
    ensures x / d == q
  {
    var q0, r0 := x / d, x % d;
    assert d * q0 + r0 == d * q + r;
    if q0 < q {
      assert d * (q - q0) == d * q - d * q0;
      MultipleAtLeast(d, q - q0);
    } else if q < q0 {
      assert d * (q0 - q) == d * q0 - d * q;
      MultipleAtLeast(d, q0 - q);
    }
  }

  /** Halving and then dividing by p is dividing by 2 * p. */
  lemma HalveThenDivide(x: int, p: int)
    requires 0 < p
    ensures x / 2 / p == x / (2 * p)
  {
    var q := x / 2 / p;
    var r := x / 2 % p;
    assert x == (2 * p) * q + (2 * r + x % 2);
    DivisionUnique(x, 2 * p, q, 2 * r + x % 2);
  }

  /** The shift is floor division by 2^s, the meaning of Go's `>>` on a signed int. */
  lemma {:induction false} ShrIsDivision(x: int, s: nat)
    ensures Shr(x, s) == x / Pow2(s)
    decreases s
  {
    if s > 0 {
      ShrIsDivision(x / 2, s - 1);
      HalveThenDivide(x, Pow2(s - 1));
    }
  }

  lemma {:induction false} ShrMonotone(x: int, y: int, s: nat)
    requires y <= x
    ensures Shr(y, s) <= Shr(x, s)
    decreases s
  {
    if s > 0 {
      ShrMonotone(x / 2, y / 2, s - 1);
    }
  }

  lemma {:induction false} ShrOfPow2(s: nat)
    ensures Shr(Pow2(s), s) == 1
    decreases s
  {
    if s > 0 {
      assert Pow2(s) / 2 == Pow2(s - 1);
      ShrOfPow2(s - 1);
    }
  }

  /** Shifting a value of at least 2^s right by s leaves at least 1. */
  lemma {:induction false} ShrPositive(x: int, s: nat)
    ensures Pow2(s) <= x ==> 1 <= Shr(x, s)
  {
    if Pow2(s) <= x {
      ShrOfPow2(s);
      ShrMonotone(x, Pow2(s), s);
    }
  }
}
