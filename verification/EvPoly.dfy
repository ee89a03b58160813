/** Polynomials in evaluation representation and Lagrange interpolation
    (evpoly.h, and InterpolateAt of shamir.h, which is the same double loop). */
module EvPoly {
  import opened Field
  import opened Poly
  import opened Wrappers

  // ---- Specification: Lagrange's formula as the loops accumulate it ----

  /** The product of the first m factors of the j-th basis polynomial at x, skipping m == j. */
  function Basis(xs: seq<Elem>, j: nat, x: Elem, m: nat): Elem
    requires Distinct(xs) && j < |xs| && m <= |xs|
  {
    if m == 0 then 1
    else if m - 1 == j then Basis(xs, j, x, m - 1)
    else
      SubZero(xs[j], xs[m - 1]);
      Mul(Basis(xs, j, x, m - 1), Div(Sub(x, xs[m - 1]), Sub(xs[j], xs[m - 1])))
  }

  /** The sum of the first j terms of Lagrange's formula at x. */
  function PartialSum(xs: seq<Elem>, ys: seq<Elem>, x: Elem, j: nat): Elem
    requires Distinct(xs) && |xs| == |ys| && j <= |xs|
  {
    if j == 0 then 0
    else Add(PartialSum(xs, ys, x, j - 1), Mul(ys[j - 1], Basis(xs, j - 1, x, |xs|)))
  }

  function Lagrange(xs: seq<Elem>, ys: seq<Elem>, x: Elem): Elem
    requires Distinct(xs) && |xs| == |ys|
  {
    PartialSum(xs, ys, x, |xs|)
  }

  // ---- The formula is a polynomial of degree below the number of points ----

  function BasisPoly(xs: seq<Elem>, j: nat, m: nat): (f: seq<Elem>)
    requires Distinct(xs) && j < |xs| && m <= |xs|
    ensures |f| == if m <= j then m + 1 else m
  {
    if m == 0 then [1]
    else if m - 1 == j then BasisPoly(xs, j, m - 1)
    else
      SubZero(xs[j], xs[m - 1]);
      var c := Inv(Sub(xs[j], xs[m - 1]));
      PolyMul([Mul(Neg(xs[m - 1]), c), c], BasisPoly(xs, j, m - 1))
  }

  lemma LinearFactor(a: Elem, c: Elem, x: Elem)
    ensures Eval([Mul(Neg(a), c), c], x) == Mul(Sub(x, a), c)
  {
    assert [Mul(Neg(a), c), c][1..] == [c];
    MulOneZero(x);
    SubZero(c, 0);
    assert Eval([c], x) == c;
    Distributes(c, x, a);
    MinusTerm(Mul(x, c), a, c);
  }

  lemma MinusTerm(u: Elem, a: Elem, c: Elem)
    ensures Add(Mul(Neg(a), c), u) == Sub(u, Mul(a, c))
  {
    hide *;
    Ring(); Canonical(u); Canonical(a); Canonical(c);
    MinusTermIntegers(u, a, c);
  }

  lemma MinusTermIntegers(u: int, a: int, c: int)
    ensures (-a) * c + u == u - a * c
  {
  }

  lemma {:induction false} BasisPolyEval(xs: seq<Elem>, j: nat, m: nat, x: Elem)
    requires Distinct(xs) && j < |xs| && m <= |xs|
    ensures Eval(BasisPoly(xs, j, m), x) == Basis(xs, j, x, m)
  {
    hide Mod, Mul, Add, Sub, Neg, PolyMul, Inv;
    if m == 0 {
      MulOneZero(x);
      SubZero(1, 0);
    } else {
      BasisPolyEval(xs, j, m - 1, x);
      if m - 1 != j {
        SubZero(xs[j], xs[m - 1]);
        var c := Inv(Sub(xs[j], xs[m - 1]));
        var l := [Mul(Neg(xs[m - 1]), c), c];
        EvalMul(l, BasisPoly(xs, j, m - 1), x);
        LinearFactor(xs[m - 1], c, x);
        MulCommutes(Eval(l, x), Basis(xs, j, x, m - 1));
      }
    }
  }

  function SumPoly(xs: seq<Elem>, ys: seq<Elem>, j: nat): (f: seq<Elem>)
    requires Distinct(xs) && |xs| == |ys| && j <= |xs|
    ensures |f| <= |xs|
  {
    if j == 0 then []
    else PolyAdd(SumPoly(xs, ys, j - 1), Scale(ys[j - 1], BasisPoly(xs, j - 1, |xs|)))
  }

  lemma {:induction false} SumPolyEval(xs: seq<Elem>, ys: seq<Elem>, j: nat, x: Elem)
    requires Distinct(xs) && |xs| == |ys| && j <= |xs|
    ensures Eval(SumPoly(xs, ys, j), x) == PartialSum(xs, ys, x, j)
  {
    hide Mul, Add, Sub, Neg, Mod, PolyAdd, Scale, BasisPoly, Basis;
    if j > 0 {
      SumPolyEval(xs, ys, j - 1, x);
      var b := BasisPoly(xs, j - 1, |xs|);
      EvalAdd(SumPoly(xs, ys, j - 1), Scale(ys[j - 1], b), x);
      EvalScale(ys[j - 1], b, x);
      BasisPolyEval(xs, j - 1, |xs|, x);
    }
  }

  // ---- The formula interpolates ----

  lemma {:induction false} BasisAtPoint(xs: seq<Elem>, j: nat, i: nat, m: nat)
    requires Distinct(xs) && j < |xs| && i < |xs| && m <= |xs|
    ensures i == j ==> Basis(xs, j, xs[i], m) == 1
    ensures i != j && i < m ==> Basis(xs, j, xs[i], m) == 0
  {
    if m > 0 {
      BasisAtPoint(xs, j, i, m - 1);
      if m - 1 != j {
        var d := Sub(xs[j], xs[m - 1]);
        SubZero(xs[j], xs[m - 1]);
        SubZero(xs[i], xs[m - 1]);
        MulOneZero(Basis(xs, j, xs[i], m - 1));
        MulOneZero(Inv(d));
        MulOneZero(Div(Sub(xs[i], xs[m - 1]), d));
      }
    }
  }

  lemma {:induction false} SumAtPoint(xs: seq<Elem>, ys: seq<Elem>, i: nat, j: nat)
    requires Distinct(xs) && |xs| == |ys| && i < |xs| && j <= |xs|
    ensures PartialSum(xs, ys, xs[i], j) == if i < j then ys[i] else 0
  {
    hide Mod, Mul, Basis;
    if j > 0 {
      SumAtPoint(xs, ys, i, j - 1);
      BasisAtPoint(xs, j - 1, i, |xs|);
      MulOneZero(ys[j - 1]);
    }
  }

  /** The points can be put through: there is a polynomial of degree below |xs| whose value at
      every x is Lagrange's formula, and it takes the given values at the given points. */
  lemma LagrangeIsPolynomial(xs: seq<Elem>, ys: seq<Elem>) returns (f: seq<Elem>)
    requires Distinct(xs) && |xs| == |ys|
    ensures |f| <= |xs|
    ensures forall x: Elem {:trigger Eval(f, x)} {:trigger Lagrange(xs, ys, x)} :: Eval(f, x) == Lagrange(xs, ys, x)
    ensures forall i :: 0 <= i < |xs| ==> Eval(f, xs[i]) == ys[i]
  {
    f := SumPoly(xs, ys, |xs|);
    forall x: Elem ensures Eval(f, x) == Lagrange(xs, ys, x) {
      SumPolyEval(xs, ys, |xs|, x);
    }
    forall i | 0 <= i < |xs| ensures Eval(f, xs[i]) == ys[i] {
      SumAtPoint(xs, ys, i, |xs|);
    }
  }

  /** Interpolation is exact: samples of any polynomial with at most |xs| coefficients give that
      polynomial back at every point. */
  lemma InterpolationExact(xs: seq<Elem>, ys: seq<Elem>, f: seq<Elem>, x: Elem)
    requires Distinct(xs) && |xs| == |ys| && |f| <= |xs|
    requires forall i :: 0 <= i < |xs| ==> ys[i] == Eval(f, xs[i])
    ensures Lagrange(xs, ys, x) == Eval(f, x)
  {
    var g := LagrangeIsPolynomial(xs, ys);
    AgreeEverywhere(f, g, xs, x);
  }

  // ---- The class ----

  datatype EvPolynomial = EvPolynomial(xs: seq<Elem>, ys: seq<Elem>) {
    predicate Valid() {
      |xs| == |ys| > 0
    }

    function Degree(): int {
      |ys| - 1
    }

    predicate IsZero() {
      Degree() == 0 && ys[0] == 0
    }

    /** Addition in evaluation form; polynomials over different points are rejected. */
    function Plus(q: EvPolynomial): (r: Option<EvPolynomial>)
      requires Valid() && q.Valid()
      ensures r.Some? <==> xs == q.xs
      ensures r.Some? ==> r.value.Valid() && r.value.xs == xs
      ensures r.Some? ==> forall i :: 0 <= i < |xs| ==> r.value.ys[i] == Add(ys[i], q.ys[i])
    {
      if xs != q.xs then None
      else Some(EvPolynomial(xs, seq(|ys|, i requires 0 <= i < |ys| => Add(ys[i], q.ys[i]))))
    }

    function Minus(q: EvPolynomial): (r: Option<EvPolynomial>)
      requires Valid() && q.Valid()
      ensures r.Some? <==> xs == q.xs
      ensures r.Some? ==> r.value.Valid() && r.value.xs == xs
      ensures r.Some? ==> forall i :: 0 <= i < |xs| ==> r.value.ys[i] == Sub(ys[i], q.ys[i])
    {
      if xs != q.xs then None
      else Some(EvPolynomial(xs, seq(|ys|, i requires 0 <= i < |ys| => Sub(ys[i], q.ys[i]))))
    }
  }

  /** Construction from points: sizes must match and be positive. */
  function FromPoints(xs: seq<Elem>, ys: seq<Elem>): (r: Option<EvPolynomial>)
    ensures r.Some? <==> |xs| == |ys| && ys != []
    ensures r.Some? ==> r.value.Valid() && r.value.xs == xs && r.value.ys == ys
  {
    if |xs| != |ys| then None
    else if |xs| == 0 then None
    else Some(EvPolynomial(xs, ys))
  }

  /** Construction from consecutive points starting at xStart. */
  method FromStart(xStart: Elem, ys: seq<Elem>) returns (r: Option<EvPolynomial>)
    ensures r.Some? <==> ys != []
    ensures r.Some? ==> r.value.Valid() && r.value.ys == ys
    ensures r.Some? ==> forall i :: 0 <= i < |ys| ==> r.value.xs[i] == Add(xStart, Mod(i))
  {
    if |ys| == 0 { return None; }
    var xPoints: seq<Elem> := [];
    for i := 0 to |ys|
      invariant |xPoints| == i
      invariant forall m :: 0 <= m < i ==> xPoints[m] == Add(xStart, Mod(m))
    {
      xPoints := xPoints + [Add(xStart, Mod(i))];
    }
    return Some(EvPolynomial(xPoints, ys));
  }

  /** InterpolateAt: the value at x of the polynomial through k of the points. It throws (the
      inverse of zero) exactly when two of those points coincide. */
  method InterpolateAt(ys: seq<Elem>, xs: seq<Elem>, k: nat, x: Elem, offset: nat) returns (r: Option<Elem>)
    requires offset + k <= |xs| && offset + k <= |ys|
    ensures r.Some? <==> Distinct(xs[offset..offset + k])
    ensures r.Some? ==> r.value == Lagrange(xs[offset..offset + k], ys[offset..offset + k], x)
  {
    hide Mod, Mul, Add, Sub, Inv;
    ghost var us, vs := xs[offset..offset + k], ys[offset..offset + k];
    var z: Elem := 0;
    for j := 0 to k
      invariant forall a, b :: 0 <= a < j && 0 <= b < k && a != b ==> us[a] != us[b]
      invariant Distinct(us) ==> z == PartialSum(us, vs, x, j)
    {
      var ell: Elem := 1;
      var xj := xs[offset + j];
      for m := 0 to k
        invariant forall b :: 0 <= b < m && b != j ==> us[j] != us[b]
        invariant Distinct(us) ==> ell == Basis(us, j, x, m)
      {
        if m == j { continue; }
        var xm := xs[offset + m];
        assert xm == us[m] && xj == us[j];
        SubZero(xj, xm);
        if Sub(xj, xm) == 0 { return None; }
        ell := Mul(ell, Div(Sub(x, xm), Sub(xj, xm)));
      }
      assert ys[offset + j] == vs[j];
      z := Add(z, Mul(ys[offset + j], ell));
    }
    assert Distinct(us);
    return Some(z);
  }

  /** EvPolynomial::Evaluate at one point. */
  method Evaluate(p: EvPolynomial, x: Elem) returns (r: Option<Elem>)
    requires p.Valid()
    ensures r.Some? <==> Distinct(p.xs)
    ensures r.Some? ==> r.value == Lagrange(p.xs, p.ys, x)
  {
    hide Mod, Mul, Add, Sub, Inv;
    var xs, ys := p.xs, p.ys;
    var z: Elem := 0;
    for j := 0 to p.Degree() + 1
      invariant forall a, b :: 0 <= a < j && 0 <= b < |xs| && a != b ==> xs[a] != xs[b]
      invariant Distinct(xs) ==> z == PartialSum(xs, ys, x, j)
    {
      var ell: Elem := 1;
      var xj := xs[j];
      for m := 0 to p.Degree() + 1
        invariant forall b :: 0 <= b < m && b != j ==> xs[j] != xs[b]
        invariant Distinct(xs) ==> ell == Basis(xs, j, x, m)
      {
        if m == j { continue; }
        var xm := xs[m];
        SubZero(xj, xm);
        if Sub(xj, xm) == 0 { return None; }
        ell := Mul(ell, Div(Sub(x, xm), Sub(xj, xm)));
      }
      z := Add(z, Mul(ys[j], ell));
    }
    assert Distinct(xs);
    return Some(z);
  }

  /** EvPolynomial::Evaluate at a list of points, in order. */
  method EvaluateAll(p: EvPolynomial, points: seq<Elem>) returns (r: Option<seq<Elem>>)
    requires p.Valid()
    ensures r.Some? <==> Distinct(p.xs) || points == []
    ensures r.Some? ==> |r.value| == |points|
    ensures Distinct(p.xs) ==> forall i :: 0 <= i < |points| ==> r.value[i] == Lagrange(p.xs, p.ys, points[i])
  {
    var output: seq<Elem> := [];
    for i := 0 to |points|
      invariant |output| == i
      invariant i > 0 ==> Distinct(p.xs)
      invariant Distinct(p.xs) ==> forall m :: 0 <= m < i ==> output[m] == Lagrange(p.xs, p.ys, points[m])
    {
      var v := Evaluate(p, points[i]);
      if v.None? { return None; }
      output := output + [v.value];
    }
    return Some(output);
  }

  /** Adding in evaluation form adds the polynomials: values agree at every point. */
  lemma PlusAddsValues(p: EvPolynomial, q: EvPolynomial, x: Elem)
    requires p.Valid() && q.Valid() && p.xs == q.xs && Distinct(p.xs)
    ensures Lagrange(p.xs, p.Plus(q).value.ys, x) == Add(Lagrange(p.xs, p.ys, x), Lagrange(p.xs, q.ys, x))
    ensures Lagrange(p.xs, p.Minus(q).value.ys, x) == Sub(Lagrange(p.xs, p.ys, x), Lagrange(p.xs, q.ys, x))
  {
    var f := LagrangeIsPolynomial(p.xs, p.ys);
    var g := LagrangeIsPolynomial(p.xs, q.ys);
    forall i | 0 <= i < |p.xs|
      ensures Eval(PolyAdd(f, g), p.xs[i]) == p.Plus(q).value.ys[i]
      ensures Eval(PolySub(f, g), p.xs[i]) == p.Minus(q).value.ys[i]
    {
      EvalAdd(f, g, p.xs[i]);
      EvalSub(f, g, p.xs[i]);
    }
    InterpolationExact(p.xs, p.Plus(q).value.ys, PolyAdd(f, g), x);
    InterpolationExact(p.xs, p.Minus(q).value.ys, PolySub(f, g), x);
    EvalAdd(f, g, x);
    EvalSub(f, g, x);
  }
}
