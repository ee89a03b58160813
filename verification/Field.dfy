/** Prime-field arithmetic: the element type `FF` that every other component computes with.

    `P` is a prime constant that is deliberately given no value, so every statement of the
    project holds for every prime field (FF<61>, FF<127>, the GF(7) of the tests, ...). */
module Field {

  predicate Divides(m: int, n: int)
    requires m > 0
  {
    n % m == 0
  }

  ghost predicate IsPrime(n: int) {
    2 <= n && forall m :: 2 <= m < n ==> !Divides(m, n)
  }

  type Prime = p: nat | IsPrime(p) witness 2

  const P: Prime

  /** A field element in canonical form. */
  type Elem = x: int | 0 <= x < P

  /** The canonical representative of an integer, by repeated subtraction or addition of P. */
  function Mod(x: int): Elem
    decreases if x < 0 then P - x else x
  {
    if x < 0 then Mod(x + P) else if x < P then x else Mod(x - P)
  }

  function Add(a: Elem, b: Elem): Elem {
    if a + b >= P then a + b - P else a + b
  }

  function Sub(a: Elem, b: Elem): Elem {
    if b > a then a + P - b else a - b
  }

  function Neg(a: Elem): Elem {
    if a != 0 then P - a else 0
  }

  function Mul(a: Elem, b: Elem): Elem {
    Mod(a * b)
  }

  /** The multiplicative inverse; it exists because P is prime. */
  function Inv(a: Elem): (b: Elem)
    requires a != 0
    ensures Mul(a, b) == 1
  {
    InverseExists(a);
    InverseUnique(a);
    var b: Elem :| Mul(a, b) == 1;
    b
  }

  function Div(a: Elem, b: Elem): Elem
    requires b != 0
  {
    Mul(a, Inv(b))
  }

  // ---- The map Mod is a ring homomorphism from the integers ----

  lemma {:induction false} ModPlusP(x: int)
    ensures Mod(x + P) == Mod(x)
  {
  }

  lemma {:induction false} ModShift(x: int, q: int)
    ensures Mod(x + q * P) == Mod(x)
    decreases if q < 0 then -q else q
  {
    hide *;
    if q > 0 {
      ModShift(x, q - 1);
      ModPlusP(x + (q - 1) * P);
      assert x + q * P == x + (q - 1) * P + P;
    } else if q < 0 {
      ModShift(x, q + 1);
      ModPlusP(x + q * P);
      assert x + (q + 1) * P == x + q * P + P;
    } else {
      assert x + q * P == x;
    }
  }

  lemma {:induction false} Quotient(x: int) returns (q: int)
    ensures x == Mod(x) + q * P
    decreases if x < 0 then P - x else x
  {
    if x < 0 {
      q := Quotient(x + P);
      assert (q - 1) * P == q * P - P;
      q := q - 1;
    } else if x < P {
      q := 0;
    } else {
      q := Quotient(x - P);
      assert (q + 1) * P == q * P + P;
      q := q + 1;
    }
  }

  /** Mod agrees with Euclidean remainder. */
  lemma ModIsRemainder(x: int)
    ensures Mod(x) == x % P
  {
    var q := Quotient(x);
    RemainderUnique(x, q, Mod(x), P);
  }

  lemma RemainderUnique(x: int, q: int, r: int, m: int)
    requires m > 0 && x == r + q * m && 0 <= r < m
    ensures x % m == r && x / m == q
  {
    var d := x / m - q;
    var s := x % m;
    assert d * m == r - s by {
      assert x == (x / m) * m + s;
      assert (x / m - q) * m == (x / m) * m - q * m;
    }
    MultipleOutOfRange(d, m);
    MultipleOutOfRange(-d, m);
    assert -d * m == s - r;
  }

  lemma AddMod(x: int, y: int)
    ensures Add(Mod(x), Mod(y)) == Mod(x + y)
  {
    var p := Quotient(x);
    var q := Quotient(y);
    var s := Mod(x) + Mod(y);
    assert x + y == s + (p + q) * P;
    ModShift(s, p + q);
  }

  lemma SubMod(x: int, y: int)
    ensures Sub(Mod(x), Mod(y)) == Mod(x - y)
  {
    var p := Quotient(x);
    var q := Quotient(y);
    var s := Mod(x) - Mod(y);
    assert x - y == s + (p - q) * P;
    ModShift(s, p - q);
  }

  lemma ProductOfShifts(a: int, b: int, q: int, r: int, m: int)
    ensures (a + q * m) * (b + r * m) == a * b + (q * r * m + q * b + a * r) * m
  {
  }

  lemma MulMod(x: int, y: int)
    ensures Mul(Mod(x), Mod(y)) == Mod(x * y)
  {
    hide Mod;
    var q := Quotient(x);
    var r := Quotient(y);
    var a, b := Mod(x), Mod(y);
    ProductOfShifts(a, b, q, r, P);
    ModShift(a * b, q * r * P + q * b + a * r);
  }

  lemma NegMod(x: int)
    ensures Neg(Mod(x)) == Mod(-x)
  {
    SubMod(0, x);
  }

  /** All homomorphism laws at once: an identity between field expressions follows from the
      same identity between integers. */
  lemma Ring()
    ensures forall x: int, y: int {:trigger Add(Mod(x), Mod(y))} :: Add(Mod(x), Mod(y)) == Mod(x + y)
    ensures forall x: int, y: int {:trigger Sub(Mod(x), Mod(y))} :: Sub(Mod(x), Mod(y)) == Mod(x - y)
    ensures forall x: int, y: int {:trigger Mul(Mod(x), Mod(y))} :: Mul(Mod(x), Mod(y)) == Mod(x * y)
    ensures forall x: int {:trigger Neg(Mod(x))} :: Neg(Mod(x)) == Mod(-x)
  {
    hide *;
    forall x: int, y: int ensures Add(Mod(x), Mod(y)) == Mod(x + y) { AddMod(x, y); }
    forall x: int, y: int ensures Sub(Mod(x), Mod(y)) == Mod(x - y) { SubMod(x, y); }
    forall x: int, y: int ensures Mul(Mod(x), Mod(y)) == Mod(x * y) { MulMod(x, y); }
    forall x: int ensures Neg(Mod(x)) == Mod(-x) { NegMod(x); }
  }

  lemma Canonical(a: Elem)
    ensures Mod(a) == a
  {
  }

  // ---- Field laws ----

  lemma MulCommutes(a: Elem, b: Elem)
    ensures Mul(a, b) == Mul(b, a)
  {
  }

  lemma MulAssociates(a: Elem, b: Elem, c: Elem)
    ensures Mul(Mul(a, b), c) == Mul(a, Mul(b, c))
  {
    hide *;
    Ring(); Canonical(a); Canonical(b); Canonical(c);
    assert (a * b) * c == a * (b * c);
  }

  lemma Distributes(a: Elem, b: Elem, c: Elem)
    ensures Mul(a, Add(b, c)) == Add(Mul(a, b), Mul(a, c))
    ensures Mul(Add(b, c), a) == Add(Mul(b, a), Mul(c, a))
    ensures Mul(a, Sub(b, c)) == Sub(Mul(a, b), Mul(a, c))
    ensures Mul(Sub(b, c), a) == Sub(Mul(b, a), Mul(c, a))
  {
    hide *;
    Ring(); Canonical(a); Canonical(b); Canonical(c);
    assert a * (b + c) == a * b + a * c;
    assert (b + c) * a == b * a + c * a;
    assert a * (b - c) == a * b - a * c;
    assert (b - c) * a == b * a - c * a;
  }

  lemma MulOneZero(a: Elem)
    ensures Mul(a, 1) == a && Mul(1, a) == a && Mul(a, 0) == 0 && Mul(0, a) == 0
  {
  }

  lemma {:induction false} InverseExists(a: Elem)
    requires a != 0
    ensures exists b: Elem :: Mul(a, b) == 1
    decreases a
  {
    if a == 1 {
      MulOneZero(1);
      assert Mul(a, 1) == 1;
    } else {
      // P = q * a + r with 0 < r < a, and -q times the inverse of r inverts a.
      var q, r := P / a, P % a;
      assert !Divides(a, P);
      assert P == q * a + r && 0 < r < a;
      InverseExists(r);
      var c: Elem :| Mul(r, c) == 1;
      var b := Mul(Neg(Mod(q)), c);
      InverseStep(a, q, r, c);
      assert Mul(a, b) == 1;
    }
  }

  lemma InverseStep(a: Elem, q: int, r: Elem, c: Elem)
    requires P == q * a + r
    ensures Mul(a, Mul(Neg(Mod(q)), c)) == Mul(r, c)
  {
    hide *;
    Canonical(a); Canonical(r); Canonical(c);
    var x: int := c;
    NegMod(q);
    MulMod(-q, x);
    MulMod(a, -q * x);
    MulMod(r, x);
    IntegerStep(a, q, r, x, P);
    ModShift(r * x, -x);
  }

  lemma IntegerStep(a: int, q: int, r: int, c: int, m: int)
    requires m == q * a + r
    ensures a * (-q * c) == r * c + (-c) * m
  {
    assert -c * m == -c * (q * a) - c * r;
  }

  /** A product is zero only when a factor is: cancellation by inverses. */
  lemma Cancel(a: Elem, b: Elem, c: Elem)
    requires a != 0 && Mul(a, b) == Mul(a, c)
    ensures b == c
  {
    hide *;
    InverseExists(a);
    var d: Elem :| Mul(a, d) == 1;
    MulAssociates(d, a, b);
    MulAssociates(d, a, c);
    MulCommutes(a, d);
    MulOneZero(b);
    MulOneZero(c);
  }

  lemma InverseUnique(a: Elem)
    requires a != 0
    ensures forall b: Elem, c: Elem :: Mul(a, b) == 1 && Mul(a, c) == 1 ==> b == c
  {
    hide *;
    forall b: Elem, c: Elem | Mul(a, b) == 1 && Mul(a, c) == 1
      ensures b == c
    {
      Cancel(a, b, c);
    }
  }

  lemma NoZeroDivisors(a: Elem, b: Elem)
    ensures Mul(a, b) == 0 <==> a == 0 || b == 0
  {
    MulOneZero(a);
    MulOneZero(b);
    if a != 0 && Mul(a, b) == 0 {
      Cancel(a, b, 0);
    }
  }

  lemma DivCancels(a: Elem, b: Elem)
    requires b != 0
    ensures Mul(Div(a, b), b) == a
  {
    var c := Inv(b);
    MulAssociates(a, c, b);
    MulCommutes(c, b);
    MulOneZero(a);
  }

  lemma SubZero(a: Elem, b: Elem)
    ensures Sub(a, b) == 0 <==> a == b
    ensures Add(Sub(a, b), b) == a
    ensures Sub(Add(a, b), b) == a
    ensures Add(a, 0) == a && Add(0, a) == a && Sub(a, 0) == a
    ensures Sub(0, a) == Neg(a)
  {
  }

  lemma ModDistinct(x: int, y: int)
    requires x < y < x + P
    ensures Mod(x) != Mod(y)
  {
    var p := Quotient(x);
    var q := Quotient(y);
    if Mod(x) == Mod(y) {
      assert y - x == (q - p) * P;
      MultipleOutOfRange(q - p, P);
      assert false;
    }
  }

  lemma MulOrder(a: int, b: int, m: int)
    requires m >= 0
    ensures a <= b ==> a * m <= b * m
  {
    assert a <= b ==> (b - a) * m >= 0;
  }

  lemma MultipleOutOfRange(d: int, m: int)
    requires m > 0
    ensures !(0 < d * m < m)
    ensures d * m == 0 ==> d == 0
  {
    if d >= 1 {
      assert d * m >= m by { assert (d - 1) * m >= 0; }
    } else {
      assert d * m <= 0;
    }
  }
}
