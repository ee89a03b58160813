/** Machine words: unsigned arithmetic that wraps around at a modulus, shifts as multiplication and
    division, and the bit operations the source uses, defined on natural numbers. */
module Words {

  function Pow2(n: nat): (r: nat)
    ensures r >= 1
  {
    if n == 0 then 1 else 2 * Pow2(n - 1)
  }

  /** What a word with `mod` values keeps of an integer. */
  function Wrap(x: int, mod: nat): (r: nat)
    requires mod > 0
    ensures r < mod
  {
    x % mod
  }

  /** Right shift, written as division by a power of two. */
  function Shr(x: nat, mod: nat): nat
    requires mod > 0
  {
    x / mod
  }

  /** Left shift before truncation. */
  function Shl(x: nat, mod: nat): nat {
    x * mod
  }

  function BitOr(a: nat, b: nat): nat
    decreases a + b
  {
    if a == 0 then b
    else if b == 0 then a
    else 2 * BitOr(a / 2, b / 2) + (if a % 2 == 1 || b % 2 == 1 then 1 else 0)
  }

  function BitAnd(a: nat, b: nat): nat
    decreases a + b
  {
    if a == 0 || b == 0 then 0
    else 2 * BitAnd(a / 2, b / 2) + (if a % 2 == 1 && b % 2 == 1 then 1 else 0)
  }

  function BitXor(a: nat, b: nat): nat
    decreases a + b
  {
    if a == 0 then b
    else if b == 0 then a
    else 2 * BitXor(a / 2, b / 2) + (if a % 2 != b % 2 then 1 else 0)
  }

  // ---- Division with remainder ----

  lemma DivMod(x: int, m: int)
    requires m > 0
    ensures x == (x / m) * m + x % m && 0 <= x % m < m
  {
  }

  lemma TimesOrder(a: int, b: int, m: int)
    requires a <= b && m >= 0
    ensures a * m <= b * m
  {
    assert (b - a) * m >= 0;
  }

  lemma TimesOutOfRange(d: int, m: int)
    requires m > 0 && -m < d * m < m
    ensures d == 0
  {
    if d >= 1 { TimesOrder(1, d, m); } else if d <= -1 { TimesOrder(d, -1, m); }
  }

  lemma UniqueRemainder(x: int, q: int, r: int, m: int)
    requires m > 0 && x == q * m + r && 0 <= r < m
    ensures x % m == r && x / m == q
  {
    DivMod(x, m);
    var d := x / m - q;
    assert d * m == (x / m) * m - q * m;
    TimesOutOfRange(d, m);
  }

  /** x and y differ by a multiple of m. */
  ghost predicate Congruent(x: int, y: int, m: int)
    requires m > 0
  {
    exists k: int :: Shifted(x, y, k, m)
  }

  predicate Shifted(x: int, y: int, k: int, m: int) {
    x == y + k * m
  }

  lemma WrapCongruent(x: int, m: nat)
    requires m > 0
    ensures Congruent(Wrap(x, m), x, m)
  {
    DivMod(x, m);
    assert -(x / m) * m == -((x / m) * m);
    assert Shifted(Wrap(x, m), x, -(x / m), m);
  }

  lemma CongruentRefl(x: int, m: int)
    requires m > 0
    ensures Congruent(x, x, m)
  {
    assert Shifted(x, x, 0, m);
  }

  lemma CongruentTrans(x: int, y: int, z: int, m: int)
    requires m > 0 && Congruent(x, y, m) && Congruent(y, z, m)
    ensures Congruent(x, z, m)
  {
    var j :| Shifted(x, y, j, m);
    var k :| Shifted(y, z, k, m);
    assert (j + k) * m == j * m + k * m;
    assert Shifted(x, z, j + k, m);
  }

  lemma CongruentAdd(x: int, y: int, u: int, v: int, m: int)
    requires m > 0 && Congruent(x, y, m) && Congruent(u, v, m)
    ensures Congruent(x + u, y + v, m) && Congruent(x - u, y - v, m)
  {
    var j :| Shifted(x, y, j, m);
    var k :| Shifted(u, v, k, m);
    assert (j + k) * m == j * m + k * m && (j - k) * m == j * m - k * m;
    assert Shifted(x + u, y + v, j + k, m) && Shifted(x - u, y - v, j - k, m);
  }

  lemma CongruentMul(x: int, y: int, u: int, v: int, m: int)
    requires m > 0 && Congruent(x, y, m) && Congruent(u, v, m)
    ensures Congruent(x * u, y * v, m)
  {
    var j :| Shifted(x, y, j, m);
    var k :| Shifted(u, v, k, m);
    ShiftedProduct(y, j, v, k, m);
    assert Shifted(x * u, y * v, j * v + k * y + j * k * m, m);
  }

  lemma ShiftedProduct(y: int, j: int, v: int, k: int, m: int)
    ensures (y + j * m) * (v + k * m) == y * v + (j * v + k * y + j * k * m) * m
  {
  }

  /** Congruence modulo a multiple implies congruence modulo the factor. */
  lemma CongruentFactor(x: int, y: int, m: int, f: int)
    requires m > 0 && f > 0 && Congruent(x, y, m * f) && m * f > 0
    ensures Congruent(x, y, m)
  {
    var k :| Shifted(x, y, k, m * f);
    assert k * (m * f) == (k * f) * m;
    assert Shifted(x, y, k * f, m);
  }

  /** Congruent values have the same remainder; a remainder is congruent to its value. */
  lemma SameRemainder(x: int, y: int, m: int)
    requires m > 0
    ensures Congruent(x, y, m) <==> x % m == y % m
  {
    DivMod(x, m);
    DivMod(y, m);
    if Congruent(x, y, m) {
      var k :| Shifted(x, y, k, m);
      assert (y / m + k) * m == (y / m) * m + k * m;
      UniqueRemainder(x, y / m + k, y % m, m);
    }
    if x % m == y % m {
      assert (x / m - y / m) * m == (x / m) * m - (y / m) * m;
      assert Shifted(x, y, x / m - y / m, m);
    }
  }

  lemma ShrWrap(x: nat, m: nat)
    requires m > 0
    ensures x == Shr(x, m) * m + Wrap(x, m)
  {
    DivMod(x, m);
  }

  lemma NoWrap(x: int, m: nat)
    requires 0 <= x < m
    ensures Wrap(x, m) == x
  {
    UniqueRemainder(x, 0, x, m);
  }

  lemma UniqueShrWrap(x: nat, q: nat, r: nat, m: nat)
    requires x == q * m + r && r < m
    ensures Wrap(x, m) == r && Shr(x, m) == q
  {
    UniqueRemainder(x, q, r, m);
  }

  /** Wrapping at every addition is wrapping once. */
  lemma WrapSum(p: int, q: int, r: int, m: nat)
    requires m > 0
    ensures Wrap(Wrap(Wrap(p, m) + Wrap(q, m), m) + r, m) == Wrap(p + q + r, m)
  {
    hide Wrap;
    WrapCongruent(p, m);
    WrapCongruent(q, m);
    CongruentAdd(Wrap(p, m), p, Wrap(q, m), q, m);
    var s := Wrap(p, m) + Wrap(q, m);
    WrapCongruent(s, m);
    CongruentTrans(Wrap(s, m), s, p + q, m);
    CongruentRefl(r, m);
    CongruentAdd(Wrap(s, m), p + q, r, r, m);
    SameWrap(Wrap(s, m) + r, p + q + r, m);
  }

  lemma SameWrap(x: int, y: int, m: nat)
    requires m > 0
    ensures Congruent(x, y, m) <==> Wrap(x, m) == Wrap(y, m)
  {
    SameRemainder(x, y, m);
  }

  // ---- Powers of two ----

  lemma {:induction false} Pow2Add(a: nat, b: nat)
    ensures Pow2(a + b) == Pow2(a) * Pow2(b)
  {
    if a == 0 {
    } else {
      Pow2Add(a - 1, b);
      assert Pow2(a) * Pow2(b) == 2 * (Pow2(a - 1) * Pow2(b));
    }
  }

  // ---- Bit operations in arithmetic terms ----

  lemma HalfRemainder(a: int, n: nat)
    requires n > 0
    ensures a % Pow2(n) == 2 * ((a / 2) % Pow2(n - 1)) + a % 2
  {
    var p := Pow2(n - 1);
    DivMod(a / 2, p);
    assert ((a / 2) / p) * (2 * p) == 2 * (((a / 2) / p) * p);
    UniqueRemainder(a, (a / 2) / p, 2 * ((a / 2) % p) + a % 2, 2 * p);
  }

  /** Masking with n ones keeps the remainder modulo 2^n. */
  lemma {:induction false} AndMask(a: nat, n: nat)
    ensures BitAnd(a, Pow2(n) - 1) == Wrap(a, Pow2(n))
    decreases n
  {
    if n > 0 {
      AndMask(a / 2, n - 1);
      assert (Pow2(n) - 1) / 2 == Pow2(n - 1) - 1 && (Pow2(n) - 1) % 2 == 1;
      HalfRemainder(a, n);
    }
  }

  /** Low bits that are already there can be OR-ed in again. */
  lemma {:induction false} OrAbsorbs(a: nat, n: nat)
    ensures BitOr(a, Wrap(a, Pow2(n))) == a
    decreases n
  {
    if n == 0 || a == 0 {
      NoLowBits(a, n);
    } else {
      hide Pow2, BitOr;
      OrAbsorbs(a / 2, n - 1);
      HalfRemainder(a, n);
      OrHalves(a, a % Pow2(n), (a / 2) % Pow2(n - 1));
    }
  }

  lemma NoLowBits(a: nat, n: nat)
    requires n == 0 || a == 0
    ensures BitOr(a, a % Pow2(n)) == a
  {
    if n == 0 { UniqueRemainder(a, a, 0, 1); } else { UniqueRemainder(0, 0, 0, Pow2(n)); }
  }

  lemma OrHalves(a: nat, b: nat, h: nat)
    requires a > 0 && b == 2 * h + a % 2 && BitOr(a / 2, h) == a / 2
    ensures BitOr(a, b) == a
  {
    assert b / 2 == h && b % 2 == a % 2;
  }

  lemma OrLowBit(a: nat, b: nat)
    requires a % 2 == 0 && b <= 1
    ensures BitOr(a, b) == a + b
  {
    if a > 0 && b == 1 { assert BitOr(a / 2, 0) == a / 2; }
  }

  /** XOR with 2 flips bit 1. */
  lemma XorTwo(a: nat)
    ensures BitXor(a, 2) == if (a / 2) % 2 == 0 then a + 2 else a - 2
  {
    if a > 1 {
      assert BitXor(a / 2, 1) == if (a / 2) % 2 == 0 then a / 2 + 1 else a / 2 - 1 by {
        assert BitXor(a / 4, 0) == a / 4;
      }
    }
  }
}
