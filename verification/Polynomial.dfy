/** The class Polynomial of poly.h: coefficient vectors in normal form (no leading zeros), with
    Horner evaluation, addition, subtraction, multiplication and long division. */
module Polynomial {
  import opened Field
  import opened Poly
  import opened Wrappers

  /** The coefficient of X^i. A coefficient vector stands for this function. */
  function Coef(f: seq<Elem>, i: int): Elem {
    if 0 <= i < |f| then f[i] else 0
  }

  ghost predicate Same(f: seq<Elem>, g: seq<Elem>) {
    forall i :: Coef(f, i) == Coef(g, i)
  }

  /** The class invariant: at least one coefficient, and no leading zero above the constant. */
  predicate Normal(f: seq<Elem>) {
    |f| >= 1 && (|f| > 1 ==> f[|f| - 1] != 0)
  }

  function Degree(f: seq<Elem>): nat
    requires f != []
  {
    |f| - 1
  }

  predicate IsZero(f: seq<Elem>)
    requires f != []
  {
    Degree(f) == 0 && f[0] == 0
  }

  /** Normal form: trailing zeros dropped, the zero polynomial as [0]. */
  function Trim(f: seq<Elem>): (r: seq<Elem>)
    ensures Normal(r) && |r| <= if f == [] then 1 else |f|
    ensures f != [] && f[|f| - 1] != 0 ==> r == f
  {
    if f == [] then [0]
    else if f[|f| - 1] == 0 then Trim(f[..|f| - 1])
    else f
  }

  lemma {:induction false} TrimSame(f: seq<Elem>)
    ensures Same(f, Trim(f))
  {
    if f != [] && f[|f| - 1] == 0 {
      var g := f[..|f| - 1];
      TrimSame(g);
      forall i: int ensures Coef(f, i) == Coef(Trim(f), i) {
        assert Coef(f, i) == Coef(g, i);
      }
    }
  }

  /** A normal form is determined by the coefficients. */
  lemma NormalUnique(f: seq<Elem>, g: seq<Elem>)
    requires Normal(f) && Normal(g) && Same(f, g)
    ensures f == g
  {
    assert Coef(f, |g| - 1) == Coef(g, |g| - 1) && Coef(f, |f| - 1) == Coef(g, |f| - 1);
    forall i | 0 <= i < |f| ensures f[i] == g[i] {
      assert Coef(f, i) == Coef(g, i);
    }
  }

  lemma {:induction false} SameEval(f: seq<Elem>, g: seq<Elem>, x: Elem)
    requires Same(f, g)
    ensures Eval(f, x) == Eval(g, x)
    decreases |f| + |g|
  {
    hide Add, Mul, Mod;
    if f == [] {
      forall i | 0 <= i < |g| ensures g[i] == 0 { assert Coef(g, i) == Coef(f, i); }
      EvalAllZero(g, x);
    } else if g == [] {
      forall i | 0 <= i < |f| ensures f[i] == 0 { assert Coef(f, i) == Coef(g, i); }
      EvalAllZero(f, x);
    } else {
      assert f[0] == Coef(f, 0) == Coef(g, 0) == g[0];
      forall i: int ensures Coef(f[1..], i) == Coef(g[1..], i) {
        if i >= 0 {
          assert Coef(f[1..], i) == Coef(f, i + 1) == Coef(g, i + 1) == Coef(g[1..], i);
        }
      }
      SameEval(f[1..], g[1..], x);
    }
  }

  // ---- Sums and products, coefficient by coefficient ----

  lemma {:induction false} SumCoef(f: seq<Elem>, g: seq<Elem>, i: int)
    ensures Coef(PolyAdd(f, g), i) == Add(Coef(f, i), Coef(g, i))
  {
    if f != [] && g != [] && i > 0 {
      SumCoef(f[1..], g[1..], i - 1);
      assert PolyAdd(f, g)[1..] == PolyAdd(f[1..], g[1..]);
      assert Coef(PolyAdd(f, g), i) == Coef(PolyAdd(f[1..], g[1..]), i - 1);
    }
  }

  lemma {:induction false} ScaleCoef(c: Elem, f: seq<Elem>, i: int)
    ensures Coef(Scale(c, f), i) == Mul(c, Coef(f, i))
  {
    hide Mod;
    MulOneZero(c);
    if f != [] && i > 0 {
      ScaleCoef(c, f[1..], i - 1);
      assert Scale(c, f)[1..] == Scale(c, f[1..]);
      assert Coef(Scale(c, f), i) == Coef(Scale(c, f[1..]), i - 1);
    }
  }

  lemma DiffCoef(f: seq<Elem>, g: seq<Elem>, i: int)
    ensures Coef(PolySub(f, g), i) == Sub(Coef(f, i), Coef(g, i))
  {
    hide Mod, Mul, Add, Sub, PolyAdd, Scale, Coef;
    ScaleCoef(Neg(1), g, i);
    SumCoef(f, Scale(Neg(1), g), i);
    MinusOne(Coef(f, i), Coef(g, i));
  }

  /** The first m terms of the coefficient of X^i in a product. */
  function Conv(f: seq<Elem>, g: seq<Elem>, i: int, m: nat): Elem {
    if m == 0 then 0 else Add(Conv(f, g, i, m - 1), Mul(Coef(f, m - 1), Coef(g, i - (m - 1))))
  }

  /** The coefficient of X^i in the product of f and g. */
  function ProductCoef(f: seq<Elem>, g: seq<Elem>, i: int): Elem {
    if i < 0 then 0 else Conv(f, g, i, i + 1)
  }

  /** Terms beyond index i, or beyond the length of f, vanish. */
  lemma {:induction false} ConvStable(f: seq<Elem>, g: seq<Elem>, i: int, m: nat, k: nat)
    requires m <= k && (m > i || m >= |f|)
    ensures Conv(f, g, i, k) == Conv(f, g, i, m)
    decreases k
  {
    hide Mul, Mod;
    if m < k {
      ConvStable(f, g, i, m, k - 1);
      MulOneZero(Coef(f, k - 1));
      MulOneZero(Coef(g, i - (k - 1)));
    }
  }

  lemma {:induction false} ConvTail(f: seq<Elem>, g: seq<Elem>, i: int, m: nat)
    requires f != [] && m > 0
    ensures Conv(f, g, i, m) == Add(Mul(f[0], Coef(g, i)), Conv(f[1..], g, i - 1, m - 1))
  {
    hide Mul, Mod, Add;
    if m == 1 {
      SubZero(Mul(f[0], Coef(g, i)), 0);
    } else {
      ConvTail(f, g, i, m - 1);
      assert Coef(f, m - 1) == Coef(f[1..], m - 2);
      AddAssociates(Mul(f[0], Coef(g, i)), Conv(f[1..], g, i - 1, m - 2), Mul(Coef(f, m - 1), Coef(g, i - (m - 1))));
    }
  }

  lemma AddAssociates(a: Elem, b: Elem, c: Elem)
    ensures Add(Add(a, b), c) == Add(a, Add(b, c))
  {
  }

  lemma {:induction false} PolyMulCoef(f: seq<Elem>, g: seq<Elem>, i: int)
    ensures Coef(PolyMul(f, g), i) == ProductCoef(f, g, i)
  {
    hide Mul, Mod, Add, PolyAdd, Scale;
    if f == [] {
      if i >= 0 { ConvStable(f, g, i, 0, i + 1); }
    } else if |f| == 1 {
      ScaleCoef(f[0], g, i);
      if i < 0 {
        MulOneZero(f[0]);
      } else {
        ConvStable(f, g, i, 1, i + 1);
        SubZero(Mul(f[0], Coef(g, i)), 0);
      }
    } else if i >= 0 {
      var h := PolyMul(f[1..], g);
      PolyMulCoef(f[1..], g, i - 1);
      ScaleCoef(f[0], g, i);
      SumCoef(Scale(f[0], g), [0] + h, i);
      assert Coef([0] + h, i) == Coef(h, i - 1);
      ConvTail(f, g, i, i + 1);
    }
  }

  /** The product depends on the polynomials only, and is additive in the left factor. */
  lemma {:induction false} ConvSame(f: seq<Elem>, f': seq<Elem>, g: seq<Elem>, g': seq<Elem>, i: int, m: nat)
    requires Same(f, f') && Same(g, g')
    ensures Conv(f, g, i, m) == Conv(f', g', i, m)
  {
    if m > 0 {
      ConvSame(f, f', g, g', i, m - 1);
      assert Coef(f, m - 1) == Coef(f', m - 1) && Coef(g, i - (m - 1)) == Coef(g', i - (m - 1));
    }
  }

  lemma {:induction false} ConvAdditive(f: seq<Elem>, g: seq<Elem>, h: seq<Elem>, d: seq<Elem>, i: int, m: nat)
    requires forall j :: Coef(h, j) == Add(Coef(f, j), Coef(g, j))
    ensures Conv(h, d, i, m) == Add(Conv(f, d, i, m), Conv(g, d, i, m))
  {
    hide Mul, Mod, Coef;
    if m > 0 {
      ConvAdditive(f, g, h, d, i, m - 1);
      var a, b, c := Coef(f, m - 1), Coef(g, m - 1), Coef(d, i - (m - 1));
      Distributes(c, a, b);
      Swap(Conv(f, d, i, m - 1), Conv(g, d, i, m - 1), Mul(a, c), Mul(b, c));
    }
  }

  lemma Swap(a: Elem, b: Elem, u: Elem, v: Elem)
    ensures Add(Add(a, b), Add(u, v)) == Add(Add(a, u), Add(b, v))
  {
  }

  lemma ProductSame(f: seq<Elem>, f': seq<Elem>, g: seq<Elem>, g': seq<Elem>, i: int)
    requires Same(f, f') && Same(g, g')
    ensures ProductCoef(f, g, i) == ProductCoef(f', g', i)
  {
    if i >= 0 { ConvSame(f, f', g, g', i, i + 1); }
  }

  /** The top coefficient of a product is the product of the top coefficients. */
  lemma {:induction false} TopCoef(f: seq<Elem>, g: seq<Elem>, a: nat, b: nat)
    requires forall j :: j > a ==> Coef(f, j) == 0
    requires forall j :: j > b ==> Coef(g, j) == 0
    ensures ProductCoef(f, g, a + b) == Mul(Coef(f, a), Coef(g, b))
    ensures forall i :: i > a + b ==> ProductCoef(f, g, i) == 0
  {
    hide Mul, Mod, Coef;
    ConvTop(f, g, a + b, a, b, a + b + 1);
    forall i | i > a + b ensures ProductCoef(f, g, i) == 0 {
      ConvTop(f, g, i, a, b, i + 1);
    }
  }

  lemma {:induction false} ConvTop(f: seq<Elem>, g: seq<Elem>, i: nat, a: nat, b: nat, m: nat)
    requires i >= a + b
    requires forall j :: j > a ==> Coef(f, j) == 0
    requires forall j :: j > b ==> Coef(g, j) == 0
    ensures Conv(f, g, i, m) == if i == a + b && m > a then Mul(Coef(f, a), Coef(g, b)) else 0
  {
    hide Mul, Mod, Coef;
    if m > 0 {
      ConvTop(f, g, i, a, b, m - 1);
      MulOneZero(Coef(f, m - 1));
      MulOneZero(Coef(g, i - (m - 1)));
      SubZero(Mul(Coef(f, a), Coef(g, b)), 0);
    }
  }

  // ---- The operations ----

  /** Polynomial::Create. */
  method Create(coefficients: seq<Elem>) returns (r: seq<Elem>)
    ensures r == Trim(coefficients)
  {
    var cutoff := |coefficients|;
    assert coefficients[..cutoff] == coefficients;
    while cutoff > 0
      invariant 0 <= cutoff <= |coefficients|
      invariant Trim(coefficients) == Trim(coefficients[..cutoff])
    {
      if coefficients[cutoff - 1] != 0 { break; }
      assert coefficients[..cutoff][..cutoff - 1] == coefficients[..cutoff - 1];
      cutoff := cutoff - 1;
    }
    var c := coefficients[..cutoff];
    if |c| == 0 {
      r := [0];
    } else {
      r := c;
    }
  }

  /** Horner evaluation, from the leading coefficient down. */
  method Evaluate(f: seq<Elem>, x: Elem) returns (y: Elem)
    requires f != []
    ensures y == Eval(f, x)
  {
    hide Mul, Mod;
    var i := |f| - 1;
    y := f[i];
    MulOneZero(x);
    assert f[i..][1..] == [];
    while i > 0
      invariant 0 <= i < |f| && y == Eval(f[i..], x)
    {
      i := i - 1;
      assert f[i..][1..] == f[i + 1..];
      MulCommutes(y, x);
      y := Add(f[i], Mul(y, x));
    }
    assert f[0..] == f;
  }

  method Pad(p: seq<Elem>, n: nat) returns (c: seq<Elem>)
    requires p != []
    ensures |c| == n && forall i :: 0 <= i < n ==> c[i] == Coef(p, i)
  {
    c := seq(n, i => 0);
    for i := 0 to n
      invariant |c| == n && forall j :: 0 <= j < i ==> c[j] == Coef(p, j)
    {
      if i <= Degree(p) {
        c := c[i := p[i]];
      } else {
        c := c[i := 0];
      }
    }
  }

  lemma FromCoefs(c: seq<Elem>, f: seq<Elem>)
    requires forall i :: Coef(c, i) == Coef(f, i)
    ensures Trim(c) == Trim(f)
  {
    TrimSame(c);
    TrimSame(f);
    NormalUnique(Trim(c), Trim(f));
  }

  method Plus(p: seq<Elem>, q: seq<Elem>) returns (r: seq<Elem>)
    requires p != [] && q != []
    ensures r == Trim(PolyAdd(p, q))
  {
    var n := (if Degree(p) > Degree(q) then Degree(p) else Degree(q)) + 1;
    var pp := Pad(p, n);
    var qp := Pad(q, n);
    var c := seq(n, i requires 0 <= i < n => Add(pp[i], qp[i]));
    forall i: int ensures Coef(c, i) == Coef(PolyAdd(p, q), i) {
      SumCoef(p, q, i);
    }
    FromCoefs(c, PolyAdd(p, q));
    r := Create(c);
  }

  method Minus(p: seq<Elem>, q: seq<Elem>) returns (r: seq<Elem>)
    requires p != [] && q != []
    ensures r == Trim(PolySub(p, q))
  {
    var n := (if Degree(p) > Degree(q) then Degree(p) else Degree(q)) + 1;
    var pp := Pad(p, n);
    var qp := Pad(q, n);
    var c := seq(n, i requires 0 <= i < n => Sub(pp[i], qp[i]));
    forall i: int ensures Coef(c, i) == Coef(PolySub(p, q), i) {
      DiffCoef(p, q, i);
    }
    FromCoefs(c, PolySub(p, q));
    r := Create(c);
  }

  /** Schoolbook multiplication. */
  method Times(p: seq<Elem>, q: seq<Elem>) returns (r: seq<Elem>)
    requires p != [] && q != []
    ensures r == Trim(PolyMul(p, q))
  {
    hide Mul, Mod, PolyMul, Trim;
    var n := Degree(p) + Degree(q) + 1;
    var c: seq<Elem> := seq(n, i => 0);
    for i := 0 to Degree(p) + 1
      invariant |c| == n && forall m :: 0 <= m < n ==> c[m] == Conv(p, q, m, i)
    {
      ghost var before := c;
      for j := 0 to Degree(q) + 1
        invariant |c| == n
        invariant forall m :: 0 <= m < n ==>
          c[m] == if i <= m < i + j then Add(before[m], Mul(p[i], q[m - i])) else before[m]
      {
        c := c[i + j := Add(c[i + j], Mul(p[i], q[j]))];
      }
      MulOneZero(p[i]);
      forall m | 0 <= m < n ensures c[m] == Conv(p, q, m, i + 1) {
        SubZero(before[m], 0);
      }
    }
    forall i: int ensures Coef(c, i) == Coef(PolyMul(p, q), i) {
      PolyMulCoef(p, q, i);
      if 0 <= i {
        if i + 1 < |p| { ConvStable(p, q, i, i + 1, |p|); } else { ConvStable(p, q, i, |p|, i + 1); }
        if i >= n { ConvBeyond(p, q, i, |p|); }
      }
    }
    FromCoefs(c, PolyMul(p, q));
    r := Create(c);
  }

  lemma {:induction false} ConvBeyond(f: seq<Elem>, g: seq<Elem>, i: int, m: nat)
    requires f != [] && g != [] && i >= |f| + |g| - 1
    ensures Conv(f, g, i, m) == 0
  {
    hide Mul, Mod;
    if m > 0 {
      ConvBeyond(f, g, i, m - 1);
      MulOneZero(Coef(f, m - 1));
      MulOneZero(Coef(g, i - (m - 1)));
    }
  }

  // ---- Long division ----

  function Zeros(n: nat): (z: seq<Elem>)
    ensures |z| == n
  {
    seq(n, i => 0)
  }

  /** The quotient of the leading terms, as a polynomial. */
  function LeadingQuotient(p: seq<Elem>, q: seq<Elem>): (t: seq<Elem>)
    requires p != [] && q != [] && |p| >= |q| && q[|q| - 1] != 0
    ensures |t| == |p| - |q| + 1
  {
    Zeros(|p| - |q|) + [Div(p[|p| - 1], q[|q| - 1])]
  }

  method DivideLeadingTerms(p: seq<Elem>, q: seq<Elem>) returns (t: seq<Elem>)
    requires p != [] && q != [] && |p| >= |q| && q[|q| - 1] != 0
    ensures t == Trim(LeadingQuotient(p, q))
  {
    var degOut := Degree(p) - Degree(q);
    var c := Zeros(degOut + 1);
    c := c[degOut := Div(p[|p| - 1], q[|q| - 1])];
    assert c == LeadingQuotient(p, q);
    t := Create(c);
  }

  /** f = q * d + r, coefficient by coefficient. */
  ghost predicate Quotient(f: seq<Elem>, d: seq<Elem>, q: seq<Elem>, r: seq<Elem>) {
    forall i :: Coef(f, i) == Add(ProductCoef(q, d, i), Coef(r, i))
  }

  /** Either r is zero or its degree is below that of d. */
  predicate Reduced(r: seq<Elem>, d: seq<Elem>)
    requires r != [] && d != []
  {
    IsZero(r) || Degree(r) < Degree(d)
  }

  lemma Telescope(a: Elem, b: Elem, c: Elem)
    ensures Add(Add(a, c), Sub(b, c)) == Add(a, b)
  {
  }

  /** One round keeps the division equation. */
  lemma RoundKeepsEquation(f: seq<Elem>, d: seq<Elem>, q: seq<Elem>, r: seq<Elem>, t: seq<Elem>, q': seq<Elem>, r': seq<Elem>)
    requires Quotient(f, d, q, r)
    requires q' == Trim(PolyAdd(q, t)) && r' == Trim(PolySub(r, Trim(PolyMul(t, d))))
    ensures Quotient(f, d, q', r')
    ensures forall i :: Coef(r', i) == Sub(Coef(r, i), ProductCoef(t, d, i))
  {
    hide Mul, Mod, Add, Sub, Coef, PolyAdd, PolySub, PolyMul, Trim, Conv;
    var td := Trim(PolyMul(t, d));
    TrimSame(PolyAdd(q, t));
    TrimSame(PolySub(r, td));
    TrimSame(PolyMul(t, d));
    forall i: int ensures Coef(q', i) == Add(Coef(q, i), Coef(t, i)) {
      SumCoef(q, t, i);
    }
    forall i: int
      ensures Coef(r', i) == Sub(Coef(r, i), ProductCoef(t, d, i))
    {
      DiffCoef(r, td, i);
      PolyMulCoef(t, d, i);
    }
    forall i: int ensures Coef(f, i) == Add(ProductCoef(q', d, i), Coef(r', i)) {
      if i >= 0 {
        ConvAdditive(q, t, q', d, i, i + 1);
        Telescope(ProductCoef(q, d, i), Coef(r, i), ProductCoef(t, d, i));
      } else {
        NegativeIndex(f, r, r', t, d, i);
      }
    }
  }

  lemma NegativeIndex(f: seq<Elem>, r: seq<Elem>, r': seq<Elem>, t: seq<Elem>, d: seq<Elem>, i: int)
    requires i < 0
    ensures Coef(f, i) == Add(0, Coef(r', i))
  {
  }

  lemma NormalShort(r: seq<Elem>, n: nat)
    requires Normal(r) && forall i :: i >= n ==> Coef(r, i) == 0
    ensures |r| <= if n == 0 then 1 else n
    ensures n == 0 ==> IsZero(r)
  {
    assert Coef(r, |r| - 1) == r[|r| - 1] && Coef(r, 0) == r[0];
  }

  /** One round cancels the leading term. */
  lemma RoundShortens(d: seq<Elem>, r: seq<Elem>, r': seq<Elem>)
    requires Normal(r) && Normal(r') && Normal(d) && !IsZero(d) && |r| >= |d|
    requires forall i :: Coef(r', i) == Sub(Coef(r, i), ProductCoef(LeadingQuotient(r, d), d, i))
    ensures |r| > 1 ==> |r'| < |r|
    ensures |r| == 1 ==> IsZero(r')
  {
    hide Mul, Mod, ProductCoef;
    var a, b := |r| - |d|, |d| - 1;
    var t := LeadingQuotient(r, d);
    TopCoef(t, d, a, b);
    DivCancels(r[|r| - 1], d[b]);
    forall i | i >= |r| - 1 ensures Coef(r', i) == 0 {
      SubZero(Coef(r, i), ProductCoef(t, d, i));
    }
    NormalShort(r', |r| - 1);
  }

  lemma DivisionStart(f: seq<Elem>, d: seq<Elem>)
    ensures Quotient(f, d, [0], f)
  {
    hide Mul, Mod;
    forall i: int ensures Coef(f, i) == Add(ProductCoef([0], d, i), Coef(f, i)) {
      if i >= 0 {
        ConvStable([0], d, i, 1, i + 1);
        MulOneZero(Coef(d, i));
      }
      SubZero(Coef(f, i), 0);
    }
  }

  /** Polynomial::Divide: None when dividing by zero, otherwise quotient and remainder. */
  method Divide(f: seq<Elem>, d: seq<Elem>) returns (res: Option<(seq<Elem>, seq<Elem>)>)
    requires Normal(f) && Normal(d)
    ensures res.None? <==> IsZero(d)
    ensures res.Some? ==> var (q, r) := res.value;
                          Normal(q) && Normal(r) && Quotient(f, d, q, r) && Reduced(r, d)
  {
    hide Mul, Mod, Add, Sub, ProductCoef, Quotient, PolyAdd, PolySub, PolyMul, Coef;
    if IsZero(d) { return None; }
    var q: seq<Elem> := [0];
    var r := f;
    DivisionStart(f, d);
    while !IsZero(r) && Degree(r) >= Degree(d)
      invariant Normal(q) && Normal(r) && Quotient(f, d, q, r)
      decreases if IsZero(r) then 0 else |r|
    {
      var t := DivideLeadingTerms(r, d);
      LeadingQuotientNormal(r, d);
      ghost var q0, r0 := q, r;
      q := Plus(q, t);
      var td := Times(t, d);
      r := Minus(r, td);
      RoundKeepsEquation(f, d, q0, r0, t, q, r);
      RoundShortens(d, r0, r);
    }
    return Some((q, r));
  }

  lemma LeadingQuotientNormal(p: seq<Elem>, q: seq<Elem>)
    requires p != [] && q != [] && |p| >= |q| && q[|q| - 1] != 0 && p[|p| - 1] != 0
    ensures Trim(LeadingQuotient(p, q)) == LeadingQuotient(p, q)
  {
    var c := Div(p[|p| - 1], q[|q| - 1]);
    DivCancels(p[|p| - 1], q[|q| - 1]);
    MulOneZero(q[|q| - 1]);
    assert c != 0;
  }

  // ---- Quotient and remainder are unique ----

  lemma {:induction false} HighestDifference(f: seq<Elem>, g: seq<Elem>, n: nat) returns (a: nat)
    requires !Same(f, g) && forall i :: i >= n ==> Coef(f, i) == Coef(g, i)
    ensures a < n && Coef(f, a) != Coef(g, a) && forall i :: i > a ==> Coef(f, i) == Coef(g, i)
  {
    hide Coef;
    if n == 0 {
      forall i: int ensures Coef(f, i) == Coef(g, i) {
        if i < 0 { NegativeCoefs(f, g, i); }
      }
      assert false;
    } else if Coef(f, n - 1) != Coef(g, n - 1) {
      a := n - 1;
    } else {
      a := HighestDifference(f, g, n - 1);
    }
  }

  lemma NegativeCoefs(f: seq<Elem>, g: seq<Elem>, i: int)
    requires i < 0
    ensures Coef(f, i) == Coef(g, i)
  {
  }

  lemma SumsDiffer(a: Elem, b: Elem, u: Elem, v: Elem)
    requires Add(a, u) == Add(b, v)
    ensures Sub(a, b) == Sub(v, u)
  {
  }

  /** Division has only one result: the one Divide returns. */
  lemma DivisionUnique(f: seq<Elem>, d: seq<Elem>, q: seq<Elem>, r: seq<Elem>, q': seq<Elem>, r': seq<Elem>)
    requires Normal(d) && !IsZero(d) && Normal(q) && Normal(r) && Normal(q') && Normal(r')
    requires Quotient(f, d, q, r) && Reduced(r, d) && Quotient(f, d, q', r') && Reduced(r', d)
    ensures q == q' && r == r'
  {
    hide Mul, Mod, Add, Sub, ProductCoef, PolySub;
    var h := PolySub(q, q');
    forall j: int ensures Coef(h, j) == Sub(Coef(q, j), Coef(q', j)) { DiffCoef(q, q', j); }
    forall i: int ensures ProductCoef(h, d, i) == Sub(Coef(r', i), Coef(r, i)) {
      ProductDiff(q, q', h, d, i);
      SumsDiffer(ProductCoef(q, d, i), ProductCoef(q', d, i), Coef(r, i), Coef(r', i));
    }
    if !Same(q, q') {
      var a := HighestDifference(q, q', |q| + |q'|);
      var b := |d| - 1;
      forall j | j > a ensures Coef(h, j) == 0 { SubZero(Coef(q, j), Coef(q', j)); }
      SubZero(Coef(q, a), Coef(q', a));
      TopCoef(h, d, a, b);
      NoZeroDivisors(Coef(h, a), Coef(d, b));
      SubZero(0, 0);
      RemainderZeroAbove(r, d, a + b);
      RemainderZeroAbove(r', d, a + b);
      assert false;
    }
    NormalUnique(q, q');
    forall i: int ensures Coef(r, i) == Coef(r', i) {
      SubZero(Coef(r', i), Coef(r, i));
      SubZero(ProductCoef(q, d, i), ProductCoef(q, d, i));
      ProductDiff(q, q', h, d, i);
    }
    NormalUnique(r, r');
  }

  lemma RemainderZeroAbove(r: seq<Elem>, d: seq<Elem>, i: int)
    requires Normal(r) && Normal(d) && Reduced(r, d) && i >= |d| - 1
    ensures Coef(r, i) == 0
  {
  }

  lemma DiffToSum(a: Elem, b: Elem, c: Elem)
    ensures c == Sub(a, b) <==> a == Add(c, b)
  {
  }

  lemma ProductDiff(q: seq<Elem>, q': seq<Elem>, h: seq<Elem>, d: seq<Elem>, i: int)
    requires forall j :: Coef(h, j) == Sub(Coef(q, j), Coef(q', j))
    ensures ProductCoef(h, d, i) == Sub(ProductCoef(q, d, i), ProductCoef(q', d, i))
  {
    hide Mul, Mod, Add, Sub, Coef, Conv;
    forall j: int ensures Coef(q, j) == Add(Coef(h, j), Coef(q', j)) {
      DiffToSum(Coef(q, j), Coef(q', j), Coef(h, j));
    }
    if i >= 0 {
      ConvAdditive(h, q', q, d, i, i + 1);
      DiffToSum(ProductCoef(q, d, i), ProductCoef(q', d, i), ProductCoef(h, d, i));
    } else {
      SubZero(0, 0);
    }
  }

  /** The division equation says what it should about values. */
  lemma QuotientEval(f: seq<Elem>, d: seq<Elem>, q: seq<Elem>, r: seq<Elem>, x: Elem)
    requires Quotient(f, d, q, r)
    ensures Eval(f, x) == Add(Mul(Eval(q, x), Eval(d, x)), Eval(r, x))
  {
    hide Mul, Mod, Add, ProductCoef, PolyAdd, PolyMul, Coef, Eval;
    var g := PolyAdd(PolyMul(q, d), r);
    forall i: int ensures Coef(f, i) == Coef(g, i) {
      SumCoef(PolyMul(q, d), r, i);
      PolyMulCoef(q, d, i);
    }
    SameEval(f, g, x);
    EvalAdd(PolyMul(q, d), r, x);
    EvalMul(q, d, x);
  }
}
