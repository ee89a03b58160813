/** The word-level implementation of the two prime fields: simple-type helpers and extended Euclid
    (fields/details.h), and multiplication modulo 2^61 - 1 and 2^127 - 1. */
module MachineField {
  import opened Words
  import opened Wrappers
  import Field

  // ---- AddSimpleType, SubtractSimpleType, NegateSimpleType ----

  /** Modular addition in words of `word` values; it needs room for one carry. */
  method AddSimpleType(t: nat, v: nat, m: nat, word: nat) returns (r: nat)
    requires 0 < m && t + v < 2 * m <= word
    ensures r == Wrap(t + v, m)
    ensures t < Field.P && v < Field.P && m == Field.P ==> r == Field.Add(t, v)
  {
    DivMod(t + v, word);
    UniqueRemainder(t + v, 0, t + v, word);
    r := Wrap(t + v, word);
    if r >= m {
      UniqueRemainder(t + v, 1, t + v - m, m);
      UniqueRemainder(r - m, 0, r - m, word);
      r := Wrap(r - m, word);
    } else {
      UniqueRemainder(t + v, 0, t + v, m);
    }
  }

  method SubtractSimpleType(t: nat, v: nat, m: nat, word: nat) returns (r: nat)
    requires t < m && v < m && 2 * m <= word
    ensures r == Wrap(t - v, m)
    ensures m == Field.P ==> r == Field.Sub(t, v)
  {
    if v > t {
      UniqueRemainder(t + m, 0, t + m, word);
      UniqueRemainder(t + m - v, 0, t + m - v, word);
      UniqueRemainder(t - v, -1, t + m - v, m);
      r := Wrap(Wrap(t + m, word) - v, word);
    } else {
      UniqueRemainder(t - v, 0, t - v, word);
      UniqueRemainder(t - v, 0, t - v, m);
      r := Wrap(t - v, word);
    }
  }

  method NegateSimpleType(t: nat, m: nat, word: nat) returns (r: nat)
    requires t < m && m <= word
    ensures r == Wrap(0 - t, m)
    ensures m == Field.P ==> r == Field.Neg(t)
  {
    if t != 0 {
      UniqueRemainder(m - t, 0, m - t, word);
      UniqueRemainder(0 - t, -1, m - t, m);
      r := Wrap(m - t, word);
    } else {
      r := t;
      UniqueRemainder(0 - t, 0, 0, m);
    }
  }

  // ---- Extended Euclid ----

  function Gcd(a: nat, b: nat): nat
    decreases b
  {
    if b == 0 then a else Gcd(b, a % b)
  }

  /** The greatest common divisor divides both numbers. */
  lemma {:induction false} GcdDivides(a: nat, b: nat) returns (x: nat, y: nat)
    ensures a == x * Gcd(a, b) && b == y * Gcd(a, b)
    decreases b
  {
    if b == 0 {
      x, y := 1, 0;
    } else {
      var u, v := GcdDivides(b, a % b);
      DivMod(a, b);
      x, y := (a / b) * u + v, u;
      Combined(a / b, u, v, Gcd(a, b));
    }
  }

  lemma Combined(q: int, u: int, v: int, g: int)
    ensures (q * u + v) * g == q * (u * g) + v * g
    ensures (v - q * u) * g == v * g - q * (u * g)
  {
  }

  /** Every common divisor divides it. */
  lemma {:induction false} GcdIsGreatest(a: nat, b: nat, d: int, p: int, q: int) returns (s: int)
    requires a == p * d && b == q * d
    ensures Gcd(a, b) == s * d
    decreases b
  {
    if b == 0 {
      s := p;
    } else {
      DivMod(a, b);
      Combined(a / b, q, p, d);
      s := GcdIsGreatest(b, a % b, d, q, p - (a / b) * q);
    }
  }

  /** A signed word: the value must lie in -limit .. limit. */
  function Fit(x: int, limit: nat): int
    requires 0 - limit <= x <= limit
  {
    x
  }

  function Signed(neg: bool, a: nat): int {
    if neg then 0 - a else a
  }

  /** The bookkeeping of extended Euclid: cofactors of alternating sign whose sizes add up to m. */
  ghost predicate Cofactors(m: nat, k: int, newK: int, r: nat, newR: nat, a: nat, b: nat, neg: bool) {
    newR < r && a <= m && b <= m && k == Signed(neg, a) && newK == Signed(!neg, b) && b * r + a * newR == m
  }

  ghost predicate Residues(m: nat, v: nat, k: int, newK: int, r: nat, newR: nat)
    requires m > 0
  {
    Gcd(r, newR) == Gcd(m, v) && Congruent(k * v, r, m) && Congruent(newK * v, newR, m)
  }

  lemma CofactorStep(m: nat, k: int, newK: int, r: nat, newR: nat, a: nat, b: nat, neg: bool, q: nat, r': nat)
    requires newR != 0 && Cofactors(m, k, newK, r, newR, a, b, neg) && r == q * newR + r' && r' < newR
    ensures Cofactors(m, newK, k - q * newK, newR, r', b, a + q * b, !neg)
    ensures 0 <= q * newR <= r && 0 <= q * b <= m && q * newK == Signed(!neg, q * b)
  {
    hide Signed;
    NextCofactors(m, r, newR, a, b, q, r');
    SignedStep(a, b, neg, q);
  }

  lemma NextCofactors(m: nat, r: nat, newR: nat, a: nat, b: nat, q: nat, r': nat)
    requires newR != 0 && b * r + a * newR == m && r == q * newR + r'
    ensures (a + q * b) * newR + b * r' == m && 0 <= q * newR <= r && 0 <= q * b <= a + q * b <= m
  {
    NextSum(a, b, q, newR, r');
    assert q * b >= 0 && b * r' >= 0 && q * newR >= 0;
    TimesOrder(1, newR, a + q * b);
  }

  lemma SignedStep(a: nat, b: nat, neg: bool, q: nat)
    ensures q * b >= 0 && q * Signed(!neg, b) == Signed(!neg, q * b)
    ensures Signed(neg, a) - q * Signed(!neg, b) == Signed(neg, a + q * b)
    ensures forall c: nat :: Signed(!!neg, c) == Signed(neg, c)
  {
    var c: int := b;
    assert q * (0 - c) == 0 - q * c;
  }

  /** While the remainder is positive, the newer cofactor is below m. */
  lemma CofactorBelow(m: nat, k: int, newK: int, r: nat, newR: nat, a: nat, b: nat, neg: bool)
    requires m > 0 && newR != 0 && Cofactors(m, k, newK, r, newR, a, b, neg)
    ensures b < m
  {
    assert a * newR >= 0;
    TimesOrder(2, r, b);
  }

  lemma NextSum(a: int, b: int, q: int, newR: int, r': int)
    ensures (a + q * b) * newR + b * r' == b * (q * newR + r') + a * newR
  {
  }

  lemma ResidueStep(m: nat, v: nat, k: int, newK: int, r: nat, newR: nat, q: nat)
    requires m > 0 && newR != 0 && Residues(m, v, k, newK, r, newR) && r == q * newR + r % newR
    ensures r - q * newR >= 0 && Residues(m, v, newK, k - q * newK, newR, r - q * newR)
  {
    CongruentRefl(q, m);
    CongruentMul(q, q, newK * v, newR, m);
    CongruentAdd(k * v, r, q * (newK * v), q * newR, m);
    assert (k - q * newK) * v == k * v - q * (newK * v);
  }

  /** InverseModPrimeSimpleType on signed words that can hold m: no intermediate value leaves
      -m .. m, and t * v is gcd(m, v) modulo m, in particular 1 when v and m are coprime. */
  method InverseModPrimeSimpleType(v: nat, m: nat, limit: nat) returns (res: Option<nat>)
    requires v < m <= limit
    ensures res.None? <==> v == 0
    ensures res.Some? ==> res.value < m && Wrap(res.value * v, m) == Wrap(Gcd(m, v), m)
  {
    hide Gcd, Congruent;
    if v == 0 { return None; }
    var k, newK, r, newR := 0, 1, m, v;
    ghost var a: nat, b: nat, neg := 0, 1, true;
    EuclidStart(m, v);
    while newR != 0
      invariant r >= 0 && newR >= 0 && r <= m
      invariant Cofactors(m, k, newK, r, newR, a, b, neg)
      invariant Residues(m, v, k, newK, r, newR)
      invariant newR == 0 ==> a < m
      decreases newR
    {
      var q := r / newR;
      DivMod(r, newR);
      CofactorBelow(m, k, newK, r, newR, a, b, neg);
      CofactorStep(m, k, newK, r, newR, a, b, neg, q, r % newR);
      ResidueStep(m, v, k, newK, r, newR, q);
      var temp := newK;
      newK := Fit(k - Fit(q * temp, limit), limit);
      k := temp;
      var tempR := newR;
      newR := Fit(r - Fit(q * tempR, limit), limit);
      r := tempR;
      a, b, neg := b, a + q * b, !neg;
    }
    FinalGcd(m, v, r);
    ghost var k0 := k;
    if k < 0 { k := Fit(k + m, limit); }
    PlusModulus(k0, v, r, m, k);
    SameRemainder(k * v, r, m);
    return Some(k);
  }

  lemma EuclidStart(m: nat, v: nat)
    requires 0 < v < m
    ensures Cofactors(m, 0, 1, m, v, 0, 1, true) && Residues(m, v, 0, 1, m, v)
  {
    assert Shifted(0, m, -1, m);
    CongruentRefl(v, m);
  }

  lemma FinalGcd(m: nat, v: nat, r: nat)
    requires m > 0 && Gcd(r, 0) == Gcd(m, v)
    ensures r == Gcd(m, v)
  {
  }

  lemma PlusModulus(k0: int, v: nat, r: int, m: nat, k: int)
    requires m > 0 && Congruent(k0 * v, r, m) && (k == k0 || k == k0 + m)
    ensures Congruent(k * v, r, m)
  {
    if k == k0 + m {
      var j :| Shifted(k0 * v, r, j, m);
      assert (k0 + m) * v == k0 * v + v * m;
      assert (j + v) * m == j * m + v * m;
      assert Shifted(k * v, r, j + v, m);
    }
  }

  /** Nonzero residues of a prime are coprime to it. */
  lemma PrimeIsCoprime(v: nat, m: nat)
    requires Field.IsPrime(m) && 0 < v < m
    ensures Gcd(m, v) == 1
  {
    var x, y := GcdDivides(m, v);
    var g := Gcd(m, v);
    assert y * g > 0;
    if g != 1 {
      BothPositive(y, g);
      TimesOrder(1, y, g);
      DivisorRemainder(m, x, g);
      assert Field.Divides(g, m);
    }
  }

  lemma BothPositive(y: nat, g: nat)
    requires y * g > 0
    ensures y >= 1 && g >= 1
  {
  }

  lemma DivisorRemainder(m: int, x: int, g: int)
    requires g > 0 && m == x * g
    ensures m % g == 0
  {
    UniqueRemainder(m, x, 0, g);
  }

  /** FF::Inverse at word level is the inverse of the field. */
  method Invert(v: nat, limit: nat) returns (res: Option<nat>)
    requires v < Field.P <= limit
    ensures res.None? <==> v == 0
    ensures res.Some? ==> res.value < Field.P && v != 0 && res.value == Field.Inv(v)
  {
    res := InverseModPrimeSimpleType(v, Field.P, limit);
    if res.Some? {
      var t: Field.Elem := res.value;
      PrimeIsCoprime(v, Field.P);
      Field.ModIsRemainder(v * t);
      assert v * t == t * v;
      UniqueRemainder(1, 0, 1, Field.P);
      assert Field.Mul(v, t) == 1;
      Field.InverseUnique(v);
    }
  }

  // ---- Multiplication modulo a Mersenne prime ----

  /** Folding the high part onto the low part keeps the value modulo n - 1. */
  lemma Fold(z: nat, n: nat)
    requires n > 1
    ensures Wrap(Shr(z, n) + Wrap(z, n), n - 1) == Wrap(z, n - 1)
  {
    DivMod(z, n);
    var h := z / n;
    assert h * n == h * (n - 1) + h;
    assert Shifted(z, h + z % n, h, n - 1);
    SameRemainder(z, h + z % n, n - 1);
  }

  /** The two parts of a product of reduced factors are small enough for one final subtraction. */
  lemma FoldRange(t: nat, v: nat, n: nat)
    requires n > 2 && t < n - 1 && v < n - 1
    ensures t * v < n * n && Shr(t * v, n) < n - 2 && Shr(t * v, n) + Wrap(t * v, n) < 2 * (n - 1)
  {
    hide Shr, Wrap;
    TimesOrder(t, n - 2, v);
    TimesOrder(v, n - 2, n - 2);
    assert v * (n - 2) == (n - 2) * v;
    var z := t * v;
    ShrWrap(z, n);
    assert (n - 2) * n == (n - 2) * (n - 2) + 2 * (n - 2) && n * n == (n - 2) * n + 2 * n;
    if Shr(z, n) >= n - 2 { TimesOrder(n - 2, Shr(z, n), n); }
  }

  /** The upper and lower parts of a truncated value. */
  lemma SplitShift(z: nat, n: nat, c: nat)
    requires n > 0 && c > 0 && n * c > 0
    ensures Shr(Wrap(z, n * c), n) == Wrap(Shr(z, n), c) && Wrap(Wrap(z, n * c), n) == Wrap(z, n)
  {
    hide Shr, Wrap;
    ShrWrap(z, n);
    ShrWrap(Shr(z, n), c);
    var q, m := Shr(Shr(z, n), c), Wrap(Shr(z, n), c);
    Regroup(q, m, n, c);
    TimesOrder(m, c - 1, n);
    UniqueShrWrap(z, q, m * n + Wrap(z, n), n * c);
    UniqueShrWrap(m * n + Wrap(z, n), m, Wrap(z, n), n);
  }

  lemma Regroup(q: int, m: int, n: int, c: int)
    ensures (q * c + m) * n == q * (n * c) + m * n
    ensures (c - 1) * n == n * c - n
  {
  }

  const P61: nat := Pow2(61) - 1

  lemma Exponents()
    ensures Pow2(64) == Pow2(61) * 8 && Pow2(3) == 8 && Pow2(61) > 2
    ensures Pow2(128) == Pow2(64) * Pow2(64) == 2 * Pow2(127) && Pow2(127) > 2 && Pow2(64) > 2
  {
    ThirdPower();
    hide Pow2;
    Pow2Add(61, 3); Pow2Add(3, 58); Pow2Add(64, 64); Pow2Add(127, 1); Pow2Add(3, 124); Pow2Add(3, 61);
  }

  lemma ThirdPower()
    ensures Pow2(3) == 8 && Pow2(1) == 2
  {
  }

  /** Mersenne61 Multiply: canonical product, without any word overflowing. */
  method Multiply61(t: nat, v: nat) returns (r: nat)
    requires t < P61 && v < P61
    ensures r == Wrap(t * v, P61)
  {
    hide Pow2, Wrap, Shr;
    Exponents();
    ProductParts(t, v, t * v, Pow2(61), Pow2(64));
    NoWrap(t * v, Pow2(128));
    r := Reduce61(Wrap(t * v, Pow2(128)));
  }

  /** The folding of a double-word product. */
  method Reduce61(z: nat) returns (r: nat)
    requires Shr(z, Pow2(61)) < Pow2(61) && Shr(z, Pow2(61)) + Wrap(z, Pow2(61)) < 2 * P61
    requires Wrap(Shr(z, Pow2(61)) + Wrap(z, Pow2(61)), P61) == Wrap(z, P61)
    requires Shr(Wrap(z, Pow2(64)), Pow2(61)) == Wrap(Shr(z, Pow2(61)), 8)
    requires Wrap(Wrap(z, Pow2(64)), Pow2(61)) == Wrap(z, Pow2(61))
    ensures r == Wrap(z, P61)
  {
    hide Pow2, Wrap, Shr, BitOr, BitAnd;
    Exponents();
    var a := Wrap(Shr(z, Pow2(61)), Pow2(64));
    NoWrap(Shr(z, Pow2(61)), Pow2(64));
    var b := Wrap(z, Pow2(64));
    OrAbsorbs(Shr(z, Pow2(61)), 3);
    a := BitOr(a, Shr(b, Pow2(61)));
    AndMask(b, 61);
    b := BitAnd(b, P61);
    r := AddSimpleType(a, b, P61, Pow2(64));
  }

  /** The parts of a product of reduced factors in words of w = 8n values. */
  lemma ProductParts(t: nat, v: nat, z: nat, n: nat, w: nat)
    requires t < n - 1 && v < n - 1 && n > 2 && w == n * 8 && z == t * v
    ensures z < w * w && Shr(z, n) < n && Shr(z, n) + Wrap(z, n) < 2 * (n - 1)
    ensures Wrap(Shr(z, n) + Wrap(z, n), n - 1) == Wrap(z, n - 1)
    ensures Shr(Wrap(z, w), n) == Wrap(Shr(z, n), 8) && Wrap(Wrap(z, w), n) == Wrap(z, n)
  {
    hide Wrap, Shr;
    FoldRange(t, v, n);
    Fold(z, n);
    SplitShift(z, n, 8);
    assert (n * 8) * (n * 8) == 64 * (n * n);
  }

  const P127: nat := Pow2(127) - 1

  /** The schoolbook identity behind the four limb products. */
  lemma Limbs(a: nat, b: nat, c: nat, d: nat, w: nat)
    ensures (a * w + b) * (c * w + d) == (a * c) * (w * w) + (a * d) * w + (b * c) * w + b * d
  {
  }

  /** A limb product computed in a double word does not wrap. */
  function LimbWord(a: nat, b: nat, w: nat, dw: nat): (r: nat)
    requires a < w && b < w && dw == w * w
    ensures r == a * b && r < dw
  {
    LimbProduct(a, b, w);
    NoWrap(a * b, dw);
    Wrap(a * b, dw)
  }

  lemma LimbProduct(a: nat, b: nat, w: nat)
    requires a < w && b < w
    ensures a * b < w * w
  {
    TimesOrder(a, w - 1, b);
    TimesOrder(b, w - 1, w - 1);
    assert b * (w - 1) == (w - 1) * b;
    assert (w - 1) * (w - 1) == w * w - 2 * w + 1;
  }

  function CarrySum(ad: nat, bc: nat, bd: nat, w: nat): nat
    requires w > 0
  {
    Wrap(ad, w) + Wrap(bc, w) + Shr(bd, w)
  }

  function HighSum(ac: nat, ad: nat, bc: nat, bd: nat, w: nat): nat
    requires w > 0
  {
    ac + Shr(ad, w) + Shr(bc, w) + Shr(CarrySum(ad, bc, bd, w), w)
  }

  function LowWord(ad: nat, bc: nat, bd: nat, w: nat): nat
    requires w > 0
  {
    Shl(Wrap(CarrySum(ad, bc, bd, w), w), w) + Wrap(bd, w)
  }

  /** High and low words put together are the sum of the shifted limb products. */
  lemma HighLow(ac: nat, ad: nat, bc: nat, bd: nat, w: nat, dw: nat)
    requires w > 0 && dw == w * w > 0
    ensures LowWord(ad, bc, bd, w) < dw
    ensures HighSum(ac, ad, bc, bd, w) * dw + LowWord(ad, bc, bd, w) == ac * dw + Shl(ad, w) + Shl(bc, w) + bd
    ensures Congruent(Shl(ad, w) + Shl(bc, w) + bd, LowWord(ad, bc, bd, w), dw)
  {
    hide Shr, Wrap;
    var carry := CarrySum(ad, bc, bd, w);
    var high, low := HighSum(ac, ad, bc, bd, w), LowWord(ad, bc, bd, w);
    ShrWrap(ad, w); ShrWrap(bc, w); ShrWrap(bd, w); ShrWrap(carry, w);
    LowFits(Wrap(carry, w), Wrap(bd, w), w);
    Assemble(ac, Shr(ad, w), Wrap(ad, w), Shr(bc, w), Wrap(bc, w), Shr(bd, w), Wrap(bd, w), Shr(carry, w), Wrap(carry, w), w);
    Difference(high, ac, dw);
    assert Shifted(Shl(ad, w) + Shl(bc, w) + bd, low, high - ac, dw);
  }

  lemma LowFits(c: nat, d: nat, w: nat)
    requires c < w && d < w
    ensures c * w + d < w * w
  {
    TimesOrder(c, w - 1, w);
    assert (w - 1) * w == w * w - w;
  }

  lemma Difference(a: int, b: int, m: int)
    ensures (a - b) * m == a * m - b * m
  {
  }

  lemma Assemble(ac: int, ad1: int, ad0: int, bc1: int, bc0: int, bd1: int, bd0: int, c1: int, c0: int, w: int)
    requires c1 * w + c0 == ad0 + bc0 + bd1
    ensures (ac + ad1 + bc1 + c1) * (w * w) + (c0 * w + bd0)
         == ac * (w * w) + (ad1 * w + ad0) * w + (bc1 * w + bc0) * w + (bd1 * w + bd0)
  {
    assert (c1 * w + c0) * w == (ad0 + bc0 + bd1) * w;
  }

  lemma HighFits(high: nat, low: nat, x: nat, y: nat, w: nat)
    requires x < w && y < w && high * w + low == x * y
    ensures high < w
  {
    LimbProduct(x, y, w);
    if high >= w { TimesOrder(w, high, w); }
  }

  /** Everything added into the carry fits in a double word. */
  lemma CarryFits(ad: nat, bc: nat, bd: nat, w: nat, dw: nat)
    requires w > 2 && bd < dw == w * w
    ensures Wrap(ad, w) + Wrap(bc, w) <= CarrySum(ad, bc, bd, w) < dw
  {
    hide Shr, Wrap;
    ShrWrap(bd, w);
    if Shr(bd, w) >= w { TimesOrder(w, Shr(bd, w), w); }
    TimesOrder(3, w, w);
  }

  lemma WordHalf(x: nat, w: nat)
    requires w > 0 && x < w * w
    ensures Shr(x, w) < w && x == Shr(x, w) * w + Wrap(x, w)
  {
    hide Shr, Wrap;
    ShrWrap(x, w);
    if Shr(x, w) >= w { TimesOrder(w, Shr(x, w), w); }
  }

  /** Nothing is lost in the carry, and the low word is the remainder of the shifted sum. */
  ghost predicate WordsFit(ad: nat, bc: nat, bd: nat, w: nat, dw: nat)
    requires w > 0 && dw > 0
  {
    && Wrap(ad, w) + Wrap(bc, w) <= CarrySum(ad, bc, bd, w) < dw
    && LowWord(ad, bc, bd, w) < dw
    && Congruent(Shl(ad, w) + Shl(bc, w) + bd, LowWord(ad, bc, bd, w), dw)
  }

  /** The words of the exact product, from the halves of the factors. */
  lemma FullWords(x: nat, y: nat, a: nat, b: nat, c: nat, d: nat, w: nat, dw: nat)
    requires w > 2 && dw == w * w && x < dw && y < dw
    requires a == Shr(x, w) && b == Wrap(x, w) && c == Shr(y, w) && d == Wrap(y, w)
    ensures a < w && c < w
    ensures var ac, ad, bc, bd := LimbWord(a, c, w, dw), LimbWord(a, d, w, dw), LimbWord(b, c, w, dw), LimbWord(b, d, w, dw);
            HighSum(ac, ad, bc, bd, w) * dw + LowWord(ad, bc, bd, w) == x * y && HighSum(ac, ad, bc, bd, w) < dw
            && WordsFit(ad, bc, bd, w, dw)
  {
    hide Shr, Wrap, HighSum, LowWord, CarrySum;
    WordHalf(x, w);
    WordHalf(y, w);
    Limbs(a, b, c, d, w);
    var ac, ad, bc, bd := LimbWord(a, c, w, dw), LimbWord(a, d, w, dw), LimbWord(b, c, w, dw), LimbWord(b, d, w, dw);
    HighLow(ac, ad, bc, bd, w, dw);
    CarryFits(ad, bc, bd, w, dw);
    HighFits(HighSum(ac, ad, bc, bd, w), LowWord(ad, bc, bd, w), x, y, dw);
  }

  /** MultiplyFull: the exact product of two double words (dw values) over single words (w values). */
  method MultiplyFull(x: nat, y: nat, w: nat, dw: nat) returns (high: nat, low: nat)
    requires w > 2 && dw == w * w && x < dw && y < dw
    ensures high < dw && low < dw && high * dw + low == x * y
  {
    hide Shr, Wrap, Shl;
    FullWords(x, y, Shr(x, w), Wrap(x, w), Shr(y, w), Wrap(y, w), w, dw);
    NoWrap(Shr(x, w), w);
    NoWrap(Shr(y, w), w);
    var a, b := Wrap(Shr(x, w), w), Wrap(x, w);
    var c, d := Wrap(Shr(y, w), w), Wrap(y, w);
    var ac, ad, bc, bd := LimbWord(a, c, w, dw), LimbWord(a, d, w, dw), LimbWord(b, c, w, dw), LimbWord(b, d, w, dw);
    high, low := AddLimbs(ac, ad, bc, bd, w, dw);
  }

  /** The carry, the high word and the low word, with every addition wrapping. */
  method AddLimbs(ac: nat, ad: nat, bc: nat, bd: nat, w: nat, dw: nat) returns (high: nat, low: nat)
    requires w > 0 && dw > 0 && WordsFit(ad, bc, bd, w, dw) && HighSum(ac, ad, bc, bd, w) < dw
    ensures high == HighSum(ac, ad, bc, bd, w) && low == LowWord(ad, bc, bd, w) && low < dw
  {
    hide Shr, Wrap, Shl, Congruent, LowWord;
    var carry := Wrap(Wrap(Wrap(ad, w) + Wrap(bc, w), dw) + Shr(bd, w), dw);
    NoWrap(Wrap(ad, w) + Wrap(bc, w), dw);
    NoWrap(CarrySum(ad, bc, bd, w), dw);
    high := Wrap(Wrap(Wrap(ac + Shr(ad, w), dw) + Shr(bc, w), dw) + Shr(carry, w), dw);
    NoWrap(ac + Shr(ad, w), dw);
    NoWrap(ac + Shr(ad, w) + Shr(bc, w), dw);
    NoWrap(HighSum(ac, ad, bc, bd, w), dw);
    low := Wrap(Wrap(Wrap(Shl(ad, w), dw) + Wrap(Shl(bc, w), dw), dw) + bd, dw);
    WrapSum(Shl(ad, w), Shl(bc, w), bd, dw);
    SameWrap(Shl(ad, w) + Shl(bc, w) + bd, LowWord(ad, bc, bd, w), dw);
    NoWrap(LowWord(ad, bc, bd, w), dw);
  }

  /** Mersenne127 Multiply: canonical product. */
  method Multiply127(t: nat, v: nat) returns (r: nat)
    requires t < P127 && v < P127
    ensures r == Wrap(t * v, P127)
  {
    hide Pow2, Wrap, Shr, BitOr, BitAnd;
    Exponents();
    FoldRange(t, v, Pow2(127));
    Fold(t * v, Pow2(127));
    var high, low := MultiplyFull(t, v, Pow2(64), Pow2(128));
    HighBits(t * v, high, low, Pow2(127));
    var a := Wrap(high * 2, Pow2(128));
    var b := low;
    OrLowBit(a, Shr(b, Pow2(127)));
    a := BitOr(a, Shr(b, Pow2(127)));
    AndMask(b, 127);
    b := BitAnd(b, P127);
    r := AddSimpleType(a, b, P127, Pow2(128));
  }

  /** The part of z = high * 2n + low above bit n, put together from the two words. */
  lemma HighBits(z: nat, high: nat, low: nat, n: nat)
    requires n > 2 && low < 2 * n && z == high * (2 * n) + low && Shr(z, n) < n - 2
    ensures Wrap(high * 2, 2 * n) == 2 * high && (2 * high) % 2 == 0 && Shr(low, n) <= 1
    ensures Shr(z, n) == 2 * high + Shr(low, n) && Wrap(z, n) == Wrap(low, n)
  {
    hide Shr, Wrap;
    ShrWrap(low, n);
    if Shr(low, n) >= 2 { TimesOrder(2, Shr(low, n), n); }
    assert (2 * high + Shr(low, n)) * n == high * (2 * n) + Shr(low, n) * n;
    UniqueShrWrap(z, 2 * high + Shr(low, n), Wrap(low, n), n);
    NoWrap(2 * high, 2 * n);
  }
}
