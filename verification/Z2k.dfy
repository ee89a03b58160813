/** Arithmetic modulo 2^K in words of W >= K bits without normalisation (z2k/details.h). */
module Z2k {
  import opened Words
  import opened Wrappers

  // ---- Unnormalised ring operations ----

  method AddZ2k(dst: nat, op: nat, w: nat) returns (r: nat)
    ensures r < Pow2(w) && forall k: nat :: k <= w ==> Congruent(r, dst + op, Pow2(k))
  {
    r := Wrap(dst + op, Pow2(w));
    WordCongruent(dst + op, w);
  }

  method SubtractZ2k(dst: nat, op: nat, w: nat) returns (r: nat)
    ensures r < Pow2(w) && forall k: nat :: k <= w ==> Congruent(r, dst - op, Pow2(k))
  {
    r := Wrap(dst - op, Pow2(w));
    WordCongruent(dst - op, w);
  }

  method MultiplyZ2k(dst: nat, op: nat, w: nat) returns (r: nat)
    ensures r < Pow2(w) && forall k: nat :: k <= w ==> Congruent(r, dst * op, Pow2(k))
  {
    r := Wrap(dst * op, Pow2(w));
    WordCongruent(dst * op, w);
  }

  method NegateZ2k(v: nat, w: nat) returns (r: nat)
    ensures r < Pow2(w) && forall k: nat :: k <= w ==> Congruent(r, 0 - v, Pow2(k))
  {
    r := Wrap(0 - v, Pow2(w));
    WordCongruent(0 - v, w);
  }

  /** Truncating to a word loses nothing modulo a smaller power of two. */
  lemma WordCongruent(x: int, w: nat)
    ensures forall k: nat :: k <= w ==> Congruent(Wrap(x, Pow2(w)), x, Pow2(k))
  {
    hide Wrap, Congruent;
    WrapCongruent(x, Pow2(w));
    forall k: nat | k <= w ensures Congruent(Wrap(x, Pow2(w)), x, Pow2(k)) {
      Coarser(Wrap(x, Pow2(w)), x, k, w);
    }
  }

  lemma Coarser(x: int, y: int, k: nat, w: nat)
    requires k <= w && Congruent(x, y, Pow2(w))
    ensures Congruent(x, y, Pow2(k))
  {
    hide Congruent;
    Pow2Add(k, w - k);
    CongruentFactor(x, y, Pow2(k), Pow2(w - k));
  }

  /** EqualZ2k: comparing after masking is congruence modulo 2^K, so deferring normalisation to
      the end is sound. The shift by K requires K below the word size. */
  method EqualZ2k(a: nat, b: nat, k: nat, w: nat) returns (r: bool)
    requires k < w && a < Pow2(w) && b < Pow2(w)
    ensures r <==> Congruent(a, b, Pow2(k))
  {
    hide Congruent, BitAnd, Pow2, Wrap;
    AndMask(a, k);
    AndMask(b, k);
    SameWrap(a, b, Pow2(k));
    r := BitAnd(a, Pow2(k) - 1) == BitAnd(b, Pow2(k) - 1);
  }

  // ---- Newton inversion ----

  lemma EvenProducts(j: nat) returns (h: int, g: int)
    ensures j * (j + 1) == 2 * h && j * (3 * j + 1) == 2 * g
  {
    var q := j / 2;
    if j == 2 * q {
      h, g := q * (j + 1), q * (3 * j + 1);
      Associate(q, j + 1);
      Associate(q, 3 * j + 1);
    } else {
      h, g := (q + 1) * j, (3 * q + 2) * j;
      Associate(q + 1, j);
      Associate(3 * q + 2, j);
    }
  }

  lemma Associate(a: int, b: int)
    ensures (2 * a) * b == 2 * (a * b) && b * (2 * a) == 2 * (a * b)
  {
  }

  /** The first approximation (3v) xor 2 is right in the five lowest bits. */
  lemma FirstFiveBits(v: nat)
    requires v % 2 == 1
    ensures Congruent(v * BitXor(3 * v, 2), 1, 32)
  {
    hide BitXor;
    XorTwo(3 * v);
    var j := v / 4;
    if v == 4 * j + 3 {
      assert (3 * v) / 2 == 2 * (3 * j + 2);
      PlusTwo(j);
    } else {
      assert v == 4 * j + 1 && (3 * v) / 2 == 2 * (3 * j) + 1;
      MinusTwo(j);
    }
  }

  lemma PlusTwo(j: nat)
    ensures Congruent((4 * j + 3) * (3 * (4 * j + 3) + 2), 1, 32)
  {
    var h, g := EvenProducts(j);
    Expand(j);
    assert Shifted((4 * j + 3) * (3 * (4 * j + 3) + 2), 1, h + (j * j + 2 * j + 1), 32);
  }

  lemma MinusTwo(j: nat)
    ensures Congruent((4 * j + 1) * (3 * (4 * j + 1) - 2), 1, 32)
  {
    var h, g := EvenProducts(j);
    Expand(j);
    assert Shifted((4 * j + 1) * (3 * (4 * j + 1) - 2), 1, g, 32);
  }

  lemma Expand(j: int)
    ensures (4 * j + 3) * (3 * (4 * j + 3) + 2) == 1 + 16 * (j * (j + 1)) + 32 * (j * j + 2 * j + 1)
    ensures (4 * j + 1) * (3 * (4 * j + 1) - 2) == 1 + 16 * (j * (3 * j + 1))
  {
  }

  /** One Newton step doubles the number of right bits. */
  lemma NewtonStep(v: int, z: int, b: nat)
    requires Congruent(v * z, 1, Pow2(b))
    ensures Congruent(v * (z * (2 - v * z)), 1, Pow2(2 * b))
  {
    var m := Pow2(b);
    var e :| Shifted(v * z, 1, e, m);
    Pow2Add(b, b);
    NewtonIdentity(v, z, e, m);
    assert Shifted(v * (z * (2 - v * z)), 1, -(e * e), m * m);
  }

  lemma NewtonIdentity(v: int, z: int, e: int, m: int)
    requires v * z == 1 + e * m
    ensures v * (z * (2 - v * z)) == 1 + (-(e * e)) * (m * m)
  {
    var p := v * z;
    assert v * (z * (2 - p)) == p * (2 - p);
    assert (1 + e * m) * (2 - (1 + e * m)) == 1 - (e * m) * (e * m);
    assert (e * m) * (e * m) == (e * e) * (m * m);
  }

  function Min(a: nat, b: nat): nat { if a <= b then a else b }

  /** Newton's step computed in w-bit words. */
  lemma WordStep(v: nat, z: nat, p: nat, d: nat, z': nat, b: nat, w: nat)
    requires Congruent(v * z, 1, Pow2(Min(b, w)))
    requires p == Wrap(v * z, Pow2(w)) && d == Wrap(2 - p, Pow2(w)) && z' == Wrap(z * d, Pow2(w))
    ensures Congruent(v * z', 1, Pow2(Min(2 * b, w)))
  {
    hide Congruent, Wrap, Pow2;
    var k, c := Min(2 * b, w), Min(b, w);
    var m := Pow2(k);
    NewtonStep(v, z, c);
    Coarser(v * (z * (2 - v * z)), 1, k, 2 * c);
    WordCongruent(v * z, w);
    WordCongruent(2 - p, w);
    WordCongruent(z * d, w);
    CongruentRefl(2, m);
    CongruentRefl(z, m);
    CongruentRefl(v, m);
    CongruentAdd(2, 2, p, v * z, m);
    CongruentTrans(d, 2 - p, 2 - v * z, m);
    CongruentMul(z, z, d, 2 - v * z, m);
    CongruentTrans(z', z * d, z * (2 - v * z), m);
    CongruentMul(v, v, z', z * (2 - v * z), m);
    CongruentTrans(v * z', v * (z * (2 - v * z)), 1, m);
  }

  lemma FirstWord(v: nat, w: nat)
    requires v % 2 == 1 && 5 <= w
    ensures Congruent(v * BitXor(Wrap(v * 3, Pow2(w)), 2), 1, Pow2(5))
  {
    var x := Wrap(v * 3, Pow2(w));
    assert Pow2(5) == 32;
    hide BitXor, Wrap, Pow2, Congruent;
    FirstFiveBits(v);
    WordCongruent(v * 3, w);
    XorTwo(x);
    XorTwo(3 * v);
    Coarser(x, 3 * v, 2, w);
    SameSecondBit(x, 3 * v);
    CongruentRefl(2, 32);
    CongruentRefl(v, 32);
    CongruentAdd(x, 3 * v, 2, 2, 32);
    CongruentMul(v, v, BitXor(x, 2), BitXor(3 * v, 2), 32);
    CongruentTrans(v * BitXor(x, 2), v * BitXor(3 * v, 2), 1, 32);
  }

  lemma SameSecondBit(x: nat, y: nat)
    requires Congruent(x, y, Pow2(2))
    ensures (x / 2) % 2 == (y / 2) % 2
  {
    assert Pow2(2) == 4;
    hide Congruent;
    SameRemainder(x, y, 4);
    SecondBit(x);
    SecondBit(y);
  }

  lemma SecondBit(x: nat)
    ensures (x / 2) % 2 == (x % 4) / 2
  {
  }

  /** InvertZ2k: fails exactly for even values, otherwise gives an inverse modulo 2^K. */
  method InvertZ2k(v: nat, k: nat, w: nat) returns (r: Option<nat>)
    requires k <= w && 5 <= w && v < Pow2(w)
    ensures r.None? <==> v % 2 == 0
    ensures r.Some? ==> r.value < Pow2(w) && Congruent(v * r.value, 1, Pow2(k))
  {
    hide Pow2, Wrap, BitXor, BitAnd, Congruent;
    LowBit(v);
    if BitAnd(v, 1) == 0 { return None; }
    var bits := 5;
    var z: nat := BitXor(Wrap(v * 3, Pow2(w)), 2);
    FirstWord(v, w);
    FirstFits(Wrap(v * 3, Pow2(w)), w);
    while bits <= k
      invariant 5 <= bits && z < Pow2(w)
      invariant Congruent(v * z, 1, Pow2(Min(bits, w)))
      decreases k - bits
    {
      var p: int := Wrap(v * z, Pow2(w));
      var d := Wrap(2 - p, Pow2(w));
      var next := Wrap(z * d, Pow2(w));
      WordStep(v, z, p, d, next, bits, w);
      z := next;
      bits := bits * 2;
    }
    Coarser(v * z, 1, k, Min(bits, w));
    return Some(z);
  }

  lemma LowBit(v: nat)
    ensures BitAnd(v, 1) == v % 2
  {
    AndMask(v, 1);
    assert Pow2(1) == 2;
  }

  /** Flipping bit 1 stays inside the word. */
  lemma FirstFits(x: nat, w: nat)
    requires x < Pow2(w) && 2 <= w
    ensures BitXor(x, 2) < Pow2(w)
  {
    assert Pow2(2) == 4;
    hide Pow2, BitXor;
    XorTwo(x);
    Pow2Add(2, w - 2);
    if (x / 2) % 2 == 0 { RoomForTwo(x, Pow2(w - 2)); }
  }

  lemma RoomForTwo(x: nat, q: nat)
    requires x < 4 * q && (x / 2) % 2 == 0
    ensures x + 2 < 4 * q
  {
  }

  /** An even value has no inverse modulo any 2^K with K > 0. */
  lemma EvenNotInvertible(v: nat, z: nat, k: nat)
    requires v % 2 == 0 && k > 0
    ensures !Congruent(v * z, 1, Pow2(k))
  {
    if Congruent(v * z, 1, Pow2(k)) {
      var e :| Shifted(v * z, 1, e, Pow2(k));
      EvenSides(v / 2, z, e, Pow2(k - 1));
      assert false;
    }
  }

  lemma EvenSides(h: int, z: int, e: int, p: int)
    ensures (2 * h) * z != 1 + e * (2 * p)
  {
    assert (2 * h) * z == 2 * (h * z) && e * (2 * p) == 2 * (e * p);
  }
}
