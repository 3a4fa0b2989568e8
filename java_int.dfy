/**
 * Java's 32-bit two's-complement `int` and the operators of it the import
 * service uses: `+`, `<<`, `>>`, `|` and `&`. Every operator is written out on
 * mathematical integers, wrap-around included, so that nothing relies on an
 * unbounded-integer reading of the Java code.
 */
module JavaInt {

  const TWO_32: int := 0x1_0000_0000
  const MIN_INT: int := -0x8000_0000
  const MAX_INT: int := 0x7FFF_FFFF

  newtype Int32 = x: int | -0x8000_0000 <= x < 0x8000_0000

  function Pow2(n: nat): (p: nat)
    ensures p >= 1
  {
    if n == 0 then 1 else 2 * Pow2(n - 1)
  }

  /** The Java `int` holding the low 32 bits of `v` (what `+` and `*` produce on overflow). */
  function Wrap32(v: int): (w: Int32)
    ensures MIN_INT <= v <= MAX_INT ==> w as int == v
    ensures (w as int - v) % TWO_32 == 0
  {
    (((v - MIN_INT) % TWO_32) + MIN_INT) as Int32
  }

  /** Java `a + b` on `int`. */
  function Add(a: Int32, b: Int32): (s: Int32)
  {
    Wrap32(a as int + b as int)
  }

  /** The 32-bit pattern of `x`, read as an unsigned number. */
  function Unsigned(x: Int32): (u: nat)
    ensures u < TWO_32
    ensures x >= 0 ==> u == x as int
  {
    x as int % TWO_32
  }

  /** Java `x << n` for a shift distance below 32. */
  function ShiftLeft(x: Int32, n: nat): (y: Int32)
    requires n < 32
  {
    Wrap32(x as int * Pow2(n))
  }

  /** Java `x >> n` (arithmetic shift, rounding toward negative infinity) for a shift distance below 32. */
  function ShiftRight(x: Int32, n: nat): (y: Int32)
    requires n < 32
  {
    // the quotient always fits; Wrap32 saves proving it here
    Wrap32(x as int / Pow2(n))
  }

  /** Bitwise or of two bit patterns. */
  function OrBits(u: nat, v: nat): (w: nat)
    decreases u + v
  {
    if u == 0 then v
    else if v == 0 then u
    else 2 * OrBits(u / 2, v / 2) + (if u % 2 == 1 || v % 2 == 1 then 1 else 0)
  }

  /** Bitwise and of two bit patterns. */
  function AndBits(u: nat, v: nat): (w: nat)
    decreases u + v
  {
    if u == 0 || v == 0 then 0
    else 2 * AndBits(u / 2, v / 2) + (if u % 2 == 1 && v % 2 == 1 then 1 else 0)
  }

  /** Java `a | b` on `int`. */
  function Or(a: Int32, b: Int32): (c: Int32)
  {
    Wrap32(OrBits(Unsigned(a), Unsigned(b)))
  }

  /** Java `a & b` on `int`. */
  function And(a: Int32, b: Int32): (c: Int32)
  {
    Wrap32(AndBits(Unsigned(a), Unsigned(b)))
  }

  /** One step of or-ing into zero low bits: a doubled value has a free lowest bit. */
  lemma OrDisjointStep(a: nat, l: nat)
    requires a > 0 && l > 0
    requires OrBits(a, l / 2) == a + l / 2
    ensures OrBits(2 * a, l) == 2 * a + l
  {
    assert (2 * a) / 2 == a && (2 * a) % 2 == 0;
  }

  /** Or-ing a value into the zero low bits of another one is addition. */
  lemma {:induction false} OrDisjoint(h: nat, k: nat, l: nat)
    requires l < Pow2(k)
    ensures OrBits(h * Pow2(k), l) == h * Pow2(k) + l
  {
    if k == 0 || h == 0 || l == 0 {
    } else {
      var p := Pow2(k - 1);
      assert h * Pow2(k) == 2 * (h * p);
      OrDisjoint(h, k - 1, l / 2);
      OrDisjointStep(h * p, l);
    }
  }

  /** A non-zero multiple of a positive number is at least that number away from zero. */
  lemma {:induction false} MulSign(t: int, m: int)
    requires m > 0
    ensures t >= 1 ==> t * m >= m
    ensures t <= -1 ==> t * m <= -m
    decreases if t < 0 then -t else t
  {
    if t > 1 {
      MulSign(t - 1, m);
    } else if t < -1 {
      MulSign(t + 1, m);
    }
  }

  /** Division and remainder are fixed by any decomposition with an in-range remainder. */
  lemma DivModUnique(u: int, m: int, q: int, s: int)
    requires 0 <= s < m
    requires u == q * m + s
    ensures u / m == q && u % m == s
  {
    var q', s' := u / m, u % m;
    assert u == q' * m + s';
    assert (q - q') * m == s' - s;
    MulSign(q - q', m);
  }

  /** The remainder modulo 2p, read off from the remainder of the halved value modulo p. */
  lemma ModDouble(u: nat, p: nat)
    requires p >= 1
    ensures u % (2 * p) == 2 * ((u / 2) % p) + u % 2
  {
    var a, s := (u / 2) / p, (u / 2) % p;
    assert u / 2 == a * p + s;
    assert u == a * (2 * p) + (2 * s + u % 2);
    DivModUnique(u, 2 * p, a, 2 * s + u % 2);
  }

  /** One step of and-ing with a mask of low one-bits: the lowest bit of `u` is kept. */
  lemma AndMaskStep(u: nat, p: nat)
    requires u > 0 && p >= 1
    ensures AndBits(u, 2 * p - 1) == 2 * AndBits(u / 2, p - 1) + u % 2
  {
    DivModUnique(2 * p - 1, 2, p - 1, 1);
  }

  /** The induction step of `AndLowMask`, from the mask of p ones to the mask of 2p ones. */
  lemma AndLowMaskStep(u: nat, p: nat)
    requires u > 0 && p >= 1
    requires AndBits(u / 2, p - 1) == (u / 2) % p
    ensures AndBits(u, 2 * p - 1) == u % (2 * p)
  {
    AndMaskStep(u, p);
    ModDouble(u, p);
  }

  /** And-ing zero with any mask gives zero. */
  lemma AndZero(p: nat)
    requires p >= 1
    ensures AndBits(0, p - 1) == 0 % p
  {
    DivModUnique(0, p, 0, 0);
  }

  /** And-ing with a mask of k low one-bits keeps the remainder modulo 2^k. */
  lemma {:induction false} AndLowMask(u: nat, k: nat)
    ensures AndBits(u, Pow2(k) - 1) == u % Pow2(k)
  {
    if u == 0 {
      AndZero(Pow2(k));
    } else if k == 0 {
    } else {
      AndLowMask(u / 2, k - 1);
      AndLowMaskStep(u, Pow2(k - 1));
    }
  }

  /** Java `x & 0xFF` is `x` modulo 256, also for negative `x`. */
  lemma AndByteIsMod(x: Int32)
    ensures And(x, 0xFF) as int == x as int % 256
  {
    var u: int := Unsigned(x);
    AndLowMask(u, 8);
    assert AndBits(u, 0xFF) == u % 256;
    if x < 0 {
      DivModUnique(x as int, TWO_32, -1, x as int + TWO_32);
      assert u == x as int + TWO_32;
      DivModUnique(x as int, 256, u / 256 - 0x100_0000, u % 256);
    }
  }

  /** `Wrap32` only depends on its argument modulo 2^32. */
  lemma WrapCongruent(v: int, w: Int32)
    requires (v - w as int) % TWO_32 == 0
    ensures Wrap32(v) == w
  {
    var t := (v - w as int) / TWO_32;
    assert v - MIN_INT == t * TWO_32 + (w as int - MIN_INT);
    DivModUnique(v - MIN_INT, TWO_32, t, w as int - MIN_INT);
  }

  /** Subtracting the base again undoes a wrapped addition. */
  lemma SubAdd(a: Int32, c: Int32)
    ensures Wrap32(Add(a, c) as int - a as int) == c
  {
    var v := a as int + c as int;
    var t := (Wrap32(v) as int - v) / TWO_32;
    assert Wrap32(v) as int - v == t * TWO_32;
    assert (Add(a, c) as int - a as int) - c as int == t * TWO_32;
    WrapCongruent(Add(a, c) as int - a as int, c);
  }
}
