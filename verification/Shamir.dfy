/** Plain Shamir sharing (shamir.h): passive reconstruction, reconstruction with error detection,
    and the Berlekamp-Welch decoder. */
module Shamir {
  import opened Field
  import opened Poly
  import opened Wrappers
  import opened EvPoly
  import opened Packed
  import opened Combine
  import opened LinearAlgebra
  import Polynomial

  datatype ShamirError =
    | ZeroThreshold | NotEnoughShares | NotEnoughAlphas | DivisionByZero | ErrorDetected | CannotCorrect

  // ---- Sharing and passive reconstruction ----

  method CreateShamirSharePolynomial(secret: Elem, t: nat, rnd: Vec) returns (r: Result<seq<Elem>, ShamirError>)
    requires |rnd| == t
    ensures t == 0 ==> r == Failure(ZeroThreshold)
    ensures t > 0 ==> r == Success(Polynomial.Trim([secret] + rnd))
  {
    if t == 0 { return Failure(ZeroThreshold); }
    var f := Polynomial.Create([secret] + rnd);
    return Success(f);
  }

  method CreateShamirShares(f: seq<Elem>, alphas: Vec) returns (shares: Vec)
    requires f != []
    ensures |shares| == |alphas| && forall i :: 0 <= i < |alphas| ==> shares[i] == Eval(f, alphas[i])
  {
    shares := [];
    for i := 0 to |alphas|
      invariant |shares| == i && forall j :: 0 <= j < i ==> shares[j] == Eval(f, alphas[j])
    {
      var y := Polynomial.Evaluate(f, alphas[i]);
      shares := shares + [y];
    }
  }

  method ReconstructShamirPassive(shares: Vec, alphas: Vec, pos: Elem, t: nat) returns (r: Result<Elem, ShamirError>)
    ensures t + 1 > |shares| ==> r == Failure(NotEnoughShares)
    ensures t + 1 <= |shares| && t + 1 > |alphas| ==> r == Failure(NotEnoughAlphas)
    ensures t + 1 <= |shares| && t + 1 <= |alphas| ==>
              if Distinct(alphas[..t + 1]) then r == Success(Lagrange(alphas[..t + 1], shares[..t + 1], pos))
              else r == Failure(DivisionByZero)
  {
    if t + 1 > |shares| { return Failure(NotEnoughShares); }
    if t + 1 > |alphas| { return Failure(NotEnoughAlphas); }
    var v := InterpolateAt(shares, alphas, t + 1, pos, 0);
    assert alphas[0..t + 1] == alphas[..t + 1] && shares[0..t + 1] == shares[..t + 1];
    if v.None? { return Failure(DivisionByZero); }
    return Success(v.value);
  }

  // ---- Error detection ----

  /** The shares at the first m points are values of one polynomial with at most t + 1 coefficients. */
  ghost predicate OnOnePolynomial(shares: Vec, alphas: Vec, t: nat, m: nat)
    requires m <= |shares| && m <= |alphas|
  {
    exists f: seq<Elem> :: |f| <= t + 1 && Fits(f, shares, alphas, m)
  }

  ghost predicate Fits(f: seq<Elem>, shares: Vec, alphas: Vec, m: nat)
    requires m <= |shares| && m <= |alphas|
  {
    forall i :: 0 <= i < m ==> shares[i] == Eval(f, alphas[i])
  }

  /** ReconstructShamir succeeds exactly when the first 2t+1 shares are consistent, and then gives
      the value of the polynomial they lie on. */
  method ReconstructShamir(shares: Vec, alphas: Vec, pos: Elem, t: nat) returns (r: Result<Elem, ShamirError>)
    ensures 2 * t + 1 > |shares| ==> r == Failure(NotEnoughShares)
    ensures 2 * t + 1 <= |shares| && 2 * t + 1 > |alphas| ==> r == Failure(NotEnoughAlphas)
    ensures 2 * t + 1 <= |shares| && 2 * t + 1 <= |alphas| && !Distinct(alphas[..t + 1]) ==> r == Failure(DivisionByZero)
    ensures 2 * t + 1 <= |shares| && 2 * t + 1 <= |alphas| && Distinct(alphas[..t + 1]) ==>
              if OnOnePolynomial(shares, alphas, t, 2 * t + 1)
              then r.Success? && forall f: seq<Elem> :: |f| <= t + 1 && Fits(f, shares, alphas, 2 * t + 1) ==> r.value == Eval(f, pos)
              else r == Failure(ErrorDetected)
  {
    hide Lagrange, Eval;
    if 2 * t + 1 > |shares| { return Failure(NotEnoughShares); }
    if 2 * t + 1 > |alphas| { return Failure(NotEnoughAlphas); }
    ghost var us, vs := alphas[..t + 1], shares[..t + 1];
    assert us == alphas[0..t + 1] && vs == shares[0..t + 1];
    forall x: Elem, f: seq<Elem> | Distinct(us) && |f| <= t + 1 && Fits(f, shares, alphas, t + 1)
      ensures Lagrange(us, vs, x) == Eval(f, x)
    {
      InterpolationExact(us, vs, f, x);
    }
    for k := t + 1 to 2 * t + 1
      invariant k > t + 1 ==> Distinct(us)
      invariant Distinct(us) ==> forall m :: t + 1 <= m < k ==> shares[m] == Lagrange(us, vs, alphas[m])
    {
      var s := InterpolateAt(shares, alphas, t + 1, alphas[k], 0);
      if s.None? { return Failure(DivisionByZero); }
      if s.value != shares[k] {
        forall f: seq<Elem> | |f| <= t + 1 && Fits(f, shares, alphas, t + 1) ensures Eval(f, alphas[k]) != shares[k] { }
        return Failure(ErrorDetected);
      }
    }
    if Distinct(us) {
      var g := LagrangeIsPolynomial(us, vs);
      assert forall i :: 0 <= i <= t ==> us[i] == alphas[i] && vs[i] == shares[i];
      assert Fits(g, shares, alphas, 2 * t + 1);
    }
    var v := InterpolateAt(shares, alphas, t + 1, pos, 0);
    if v.None? { return Failure(DivisionByZero); }
    return Success(v.value);
  }

  // ---- Right and wrong positions ----

  /** Among the first m points, those where the share is (or is not) the value of f. */
  function Points(f: seq<Elem>, xs: Vec, ys: Vec, m: nat, right: bool): (zs: Vec)
    requires m <= |xs| && m <= |ys|
  {
    if m == 0 then []
    else
      Points(f, xs, ys, m - 1, right)
      + if (ys[m - 1] == Eval(f, xs[m - 1])) == right then [xs[m - 1]] else []
  }

  function Wrong(f: seq<Elem>, xs: Vec, ys: Vec): Vec
    requires |xs| == |ys|
  {
    Points(f, xs, ys, |xs|, false)
  }

  lemma {:induction false} PointsAre(f: seq<Elem>, xs: Vec, ys: Vec, m: nat, right: bool)
    requires m <= |xs| && m <= |ys|
    ensures forall z: Elem :: z in Points(f, xs, ys, m, right) <==>
              exists i :: 0 <= i < m && xs[i] == z && (ys[i] == Eval(f, xs[i])) == right
    ensures |Points(f, xs, ys, m, right)| + |Points(f, xs, ys, m, !right)| == m
  {
    hide Eval;
    if m > 0 { PointsAre(f, xs, ys, m - 1, right); }
  }

  lemma {:induction false} PointsDistinct(f: seq<Elem>, xs: Vec, ys: Vec, m: nat, right: bool)
    requires m <= |xs| && m <= |ys| && Distinct(xs)
    ensures Distinct(Points(f, xs, ys, m, right))
  {
    hide Eval;
    if m > 0 {
      PointsDistinct(f, xs, ys, m - 1, right);
      PointsAre(f, xs, ys, m - 1, right);
      var zs := Points(f, xs, ys, m - 1, right);
      forall j | 0 <= j < |zs| ensures zs[j] != xs[m - 1] { assert zs[j] in zs; }
    }
  }

  /** A polynomial g that is right where f is right agrees with f there. */
  lemma EnoughAgreement(f: seq<Elem>, g: seq<Elem>, xs: Vec, ys: Vec, x: Elem)
    requires |xs| == |ys| && Distinct(xs)
    requires |f| + |Wrong(f, xs, ys)| <= |xs| && |g| + |Wrong(f, xs, ys)| <= |xs|
    requires forall i :: 0 <= i < |xs| && ys[i] == Eval(f, xs[i]) ==> ys[i] == Eval(g, xs[i])
    ensures Eval(f, x) == Eval(g, x)
  {
    var zs := Points(f, xs, ys, |xs|, true);
    PointsAre(f, xs, ys, |xs|, true);
    PointsDistinct(f, xs, ys, |xs|, true);
    forall i | 0 <= i < |zs| ensures Eval(f, zs[i]) == Eval(g, zs[i]) { assert zs[i] in zs; }
    AgreeEverywhere(f, g, zs, x);
  }

  /** From 1 to t altered shares among the first 2t+1 are always detected. */
  lemma AlteredSharesDetected(f: seq<Elem>, shares: Vec, alphas: Vec, t: nat)
    requires 2 * t + 1 <= |shares| && 2 * t + 1 <= |alphas| && Distinct(alphas[..2 * t + 1])
    requires |f| <= t + 1
    requires 1 <= |Wrong(f, alphas[..2 * t + 1], shares[..2 * t + 1])| <= t
    ensures !OnOnePolynomial(shares, alphas, t, 2 * t + 1)
  {
    var xs, ys := alphas[..2 * t + 1], shares[..2 * t + 1];
    if OnOnePolynomial(shares, alphas, t, 2 * t + 1) {
      var g: seq<Elem> :| |g| <= t + 1 && Fits(g, shares, alphas, 2 * t + 1);
      PointsAre(f, xs, ys, |xs|, false);
      var z := Wrong(f, xs, ys)[0];
      assert z in Wrong(f, xs, ys);
      var i :| 0 <= i < |xs| && xs[i] == z && ys[i] != Eval(f, xs[i]);
      EnoughAgreement(f, g, xs, ys, xs[i]);
      assert false;
    }
  }

  // ---- The error locator ----

  /** The monic polynomial with the roots zs. */
  function RootPoly(zs: Vec): (e: seq<Elem>)
    ensures |e| == |zs| + 1
  {
    if zs == [] then [1] else PolyMul([Neg(zs[|zs| - 1]), 1], RootPoly(zs[..|zs| - 1]))
  }

  lemma {:induction false} RootPolyRoots(zs: Vec, x: Elem)
    ensures Eval(RootPoly(zs), x) == 0 <==> x in zs
  {
    hide Mul, Mod, PolyMul;
    if zs == [] {
      MulOneZero(x);
      SubZero(1, 0);
      assert Eval([1], x) == 1;
    } else {
      var a, ws := zs[|zs| - 1], zs[..|zs| - 1];
      RootPolyRoots(ws, x);
      EvalMul([Neg(a), 1], RootPoly(ws), x);
      MonicLinear(a, x);
      NoZeroDivisors(Sub(x, a), Eval(RootPoly(ws), x));
      SubZero(x, a);
      assert zs == ws + [a];
    }
  }

  lemma MonicLinear(a: Elem, x: Elem)
    ensures Eval([Neg(a), 1], x) == Sub(x, a)
  {
    MulOneZero(Neg(a));
    LinearFactor(a, 1, x);
    MulOneZero(Sub(x, a));
  }

  lemma {:induction false} RootPolyMonic(zs: Vec)
    ensures RootPoly(zs)[|zs|] == 1
  {
    hide Mul, Mod, PolyMul;
    if zs != [] {
      var a, ws := zs[|zs| - 1], zs[..|zs| - 1];
      var l, e := [Neg(a), 1], RootPoly(ws);
      RootPolyMonic(ws);
      Polynomial.PolyMulCoef(l, e, 1 + |ws|);
      Polynomial.TopCoef(l, e, 1, |ws|);
      MulOneZero(1);
      assert Polynomial.Coef(RootPoly(zs), |zs|) == 1;
    }
  }

  // ---- The linear system for a guess e of the number of errors ----

  function Power(a: Elem, j: nat): Elem {
    if j == 0 then 1 else Mul(Power(a, j - 1), a)
  }

  function Entry(y: Elem, a: Elem, e: nat, j: nat): Elem {
    if j < e then Mul(y, Power(a, j)) else Neg(Power(a, j - e))
  }

  function Row(y: Elem, a: Elem, e: nat, n: nat): (r: Vec)
    ensures |r| == n
  {
    seq(n, j requires 0 <= j < n => Entry(y, a, e, j))
  }

  function System(xs: Vec, ys: Vec, e: nat): (s: Matrix)
    requires |xs| == |ys|
    ensures |s| == |xs| && Rows(s, |xs|)
  {
    seq(|xs|, i requires 0 <= i < |xs| => Row(ys[i], xs[i], e, |xs|))
  }

  function RightSide(xs: Vec, ys: Vec, e: nat): (b: Vec)
    requires |xs| == |ys|
    ensures |b| == |xs|
  {
    seq(|xs|, i requires 0 <= i < |xs| => Mul(Neg(ys[i]), Power(xs[i], e)))
  }

  function Scaled(y: Elem, a: Elem, j: nat): Elem {
    Mul(y, Power(a, j))
  }

  lemma FirstScaled(y: Elem, a: Elem)
    ensures Scaled(y, a, 0) == y
  {
    hide Mul, Mod;
    MulOneZero(y);
  }

  lemma NextScaled(y: Elem, a: Elem, j: nat)
    requires 1 <= j
    ensures Scaled(y, a, j) == Mul(Scaled(y, a, j - 1), a)
  {
    hide Mul, Mod;
    MulAssociates(y, Power(a, j - 1), a);
  }

  lemma NextNegPower(a: Elem, j: nat)
    requires 1 <= j
    ensures Neg(Power(a, j)) == Mul(Neg(Power(a, j - 1)), a)
  {
    hide Mul, Mod, Neg;
    NegProduct(Power(a, j - 1), a);
  }

  lemma NegProduct(a: Elem, b: Elem)
    ensures Mul(Neg(a), b) == Neg(Mul(a, b)) && Mul(a, Neg(b)) == Neg(Mul(a, b))
  {
    hide *;
    Ring(); Canonical(a); Canonical(b);
    var x: int, y: int := a, b;
    assert (-x) * y == -(x * y) && x * (-y) == -(x * y);
  }

  lemma {:induction false} EvalSnoc(f: seq<Elem>, c: Elem, x: Elem)
    ensures Eval(f + [c], x) == Add(Eval(f, x), Mul(c, Power(x, |f|)))
  {
    hide Mul, Mod, Add;
    if f == [] {
      assert (f + [c])[1..] == [];
      MulOneZero(x);
      MulOneZero(c);
      SubZero(c, 0);
    } else {
      EvalSnoc(f[1..], c, x);
      assert (f + [c])[1..] == f[1..] + [c];
      var u, w := Eval(f[1..], x), Mul(c, Power(x, |f| - 1));
      Distributes(x, u, w);
      MulCommutes(x, w);
      MulAssociates(c, Power(x, |f| - 1), x);
      Polynomial.AddAssociates(f[0], Mul(x, u), Mul(x, w));
    }
  }

  lemma PositiveTerm(y: Elem, u: Elem, w: Elem, c: Elem)
    ensures Add(Mul(y, u), Mul(Mul(y, w), c)) == Mul(y, Add(u, Mul(c, w)))
  {
    hide *;
    Distributes(y, u, Mul(c, w));
    MulAssociates(y, w, c);
    MulCommutes(w, c);
  }

  lemma NegativeTerm(a: Elem, b: Elem, w: Elem, c: Elem)
    ensures Add(Sub(a, b), Mul(Neg(w), c)) == Sub(a, Add(b, Mul(c, w)))
  {
    hide Mul, Mod;
    NegProduct(w, c);
    MulCommutes(w, c);
  }

  /** A row applied to [E | Q] is y * E(a) - Q(a). */
  lemma {:induction false} RowValue(y: Elem, a: Elem, e: nat, x: Vec, m: nat)
    requires e <= |x| && m <= |x|
    ensures Dot(Row(y, a, e, |x|), x, m) ==
              if m <= e then Mul(y, Eval(x[..m], a)) else Sub(Mul(y, Eval(x[..e], a)), Eval(x[e..m], a))
  {
    hide Mul, Mod, Add, Sub, Neg, Eval;
    if m == 0 {
      assert Eval(x[..0], a) == 0 by { EvalEmpty(x[..0], a); }
      MulOneZero(y);
    } else {
      RowValue(y, a, e, x, m - 1);
      var c := x[m - 1];
      if m <= e {
        assert x[..m] == x[..m - 1] + [c];
        EvalSnoc(x[..m - 1], c, a);
        PositiveTerm(y, Eval(x[..m - 1], a), Power(a, m - 1), c);
      } else {
        assert x[e..m] == x[e..m - 1] + [c];
        EvalSnoc(x[e..m - 1], c, a);
        NegativeTerm(Mul(y, Eval(x[..e], a)), Eval(x[e..m - 1], a), Power(a, m - 1 - e), c);
        if m - 1 == e {
          assert Eval(x[e..e], a) == 0 by { EvalEmpty(x[e..e], a); }
          SubZero(Mul(y, Eval(x[..e], a)), 0);
        }
      }
    }
  }

  lemma EvalEmpty(f: seq<Elem>, x: Elem)
    requires f == []
    ensures Eval(f, x) == 0
  {
  }

  /** Both sides of the key equation y * E(a) = Q(a), for unknowns x = [E | Q]. */
  ghost predicate KeyEquation(e: seq<Elem>, q: seq<Elem>, xs: Vec, ys: Vec)
    requires |xs| == |ys|
  {
    forall i :: 0 <= i < |xs| ==> Mul(ys[i], Eval(e, xs[i])) == Eval(q, xs[i])
  }

  lemma HomogeneousSystem(xs: Vec, ys: Vec, e: nat, x: Vec)
    requires |xs| == |ys| == |x| && e <= |x|
    ensures Kills(System(xs, ys, e), x) <==> KeyEquation(x[..e], x[e..], xs, ys)
  {
    hide Mul, Mod, Add, Sub, Eval, Dot, Row;
    var n := |x|;
    forall i | 0 <= i < n
      ensures Dot(System(xs, ys, e)[i], x, n) == Sub(Mul(ys[i], Eval(x[..e], xs[i])), Eval(x[e..], xs[i]))
      ensures Dot(System(xs, ys, e)[i], x, n) == 0 <==> Mul(ys[i], Eval(x[..e], xs[i])) == Eval(x[e..], xs[i])
    {
      FullRow(ys[i], xs[i], e, x);
      SubZero(Mul(ys[i], Eval(x[..e], xs[i])), Eval(x[e..], xs[i]));
    }
  }

  lemma FullRow(y: Elem, a: Elem, e: nat, x: Vec)
    requires e <= |x|
    ensures Dot(Row(y, a, e, |x|), x, |x|) == Sub(Mul(y, Eval(x[..e], a)), Eval(x[e..], a))
  {
    hide Mul, Mod, Add, Sub, Eval, Dot, Row;
    RowValue(y, a, e, x, |x|);
    assert x[e..|x|] == x[e..];
    if e == |x| {
      assert x[..e] == x && x[..|x|] == x;
      EvalEmpty(x[e..], a);
      SubZero(Mul(y, Eval(x[..e], a)), 0);
    }
  }

  lemma MonicSides(y: Elem, u: Elem, w: Elem, q: Elem)
    ensures Sub(Mul(y, u), q) == Mul(Neg(y), w) <==> Mul(y, Add(u, w)) == q
  {
    hide Mul, Mod;
    NegProduct(y, w);
    Distributes(y, u, w);
  }

  lemma FullSystem(xs: Vec, ys: Vec, e: nat, x: Vec)
    requires |xs| == |ys| == |x| && e <= |x|
    ensures Solves(System(xs, ys, e), RightSide(xs, ys, e), x) <==> KeyEquation(x[..e] + [1], x[e..], xs, ys)
  {
    hide Mul, Mod, Add, Sub, Neg, Eval, Dot, Row;
    var n := |x|;
    forall i | 0 <= i < n
      ensures Dot(System(xs, ys, e)[i], x, n) == RightSide(xs, ys, e)[i] <==>
              Mul(ys[i], Eval(x[..e] + [1], xs[i])) == Eval(x[e..], xs[i])
    {
      FullRow(ys[i], xs[i], e, x);
      EvalSnoc(x[..e], 1, xs[i]);
      MulOneZero(Power(xs[i], e));
      MonicSides(ys[i], Eval(x[..e], xs[i]), Power(xs[i], e), Eval(x[e..], xs[i]));
    }
  }

  // ---- Which guesses are solvable ----

  function Padded(f: seq<Elem>, n: nat): (r: seq<Elem>)
    requires |f| <= n
    ensures |r| == n
  {
    f + Polynomial.Zeros(n - |f|)
  }

  lemma PaddedEval(f: seq<Elem>, n: nat, x: Elem)
    requires |f| <= n
    ensures Eval(Padded(f, n), x) == Eval(f, x)
  {
    EvalPadded(f, Polynomial.Zeros(n - |f|), x);
  }

  /** The locator E of the wrong points and Q = f * E satisfy the key equation. */
  lemma LocatorSolves(f: seq<Elem>, xs: Vec, ys: Vec)
    requires |xs| == |ys|
    ensures KeyEquation(RootPoly(Wrong(f, xs, ys)), PolyMul(f, RootPoly(Wrong(f, xs, ys))), xs, ys)
  {
    hide Mul, Mod, PolyMul, Eval, RootPoly;
    var zs := Wrong(f, xs, ys);
    PointsAre(f, xs, ys, |xs|, false);
    forall i | 0 <= i < |xs|
      ensures Mul(ys[i], Eval(RootPoly(zs), xs[i])) == Eval(PolyMul(f, RootPoly(zs)), xs[i])
    {
      EvalMul(f, RootPoly(zs), xs[i]);
      RootPolyRoots(zs, xs[i]);
      MulOneZero(ys[i]);
      MulOneZero(Eval(f, xs[i]));
    }
  }

  lemma ProductLength(f: seq<Elem>, g: seq<Elem>)
    requires g != []
    ensures |PolyMul(f, g)| <= |f| + |g| - 1
  {
  }

  /** A guess above the number of errors gives a singular system. */
  lemma TooManyGuessed(f: seq<Elem>, xs: Vec, ys: Vec, t: nat, e: nat)
    requires |xs| == |ys| == 3 * t + 1 && |f| <= t + 1
    requires |Wrong(f, xs, ys)| < e <= t
    ensures !Nonsingular(System(xs, ys, e), |xs|)
  {
    hide Mul, Mod, PolyMul, Eval, RootPoly, Kills, System;
    var zs := Wrong(f, xs, ys);
    var loc := RootPoly(zs);
    ProductLength(f, loc);
    var l, q := Padded(loc, e), Padded(PolyMul(f, loc), |xs| - e);
    var x := l + q;
    assert x[..e] == l && x[e..] == q;
    LocatorSolves(f, xs, ys);
    forall i | 0 <= i < |xs| ensures Mul(ys[i], Eval(l, xs[i])) == Eval(q, xs[i]) {
      PaddedEval(loc, e, xs[i]);
      PaddedEval(PolyMul(f, loc), |xs| - e, xs[i]);
    }
    HomogeneousSystem(xs, ys, e, x);
    RootPolyMonic(zs);
    assert x[|zs|] == 1;
  }

  /** The right guess gives a nonsingular system. */
  lemma RightGuess(f: seq<Elem>, xs: Vec, ys: Vec, t: nat)
    requires |xs| == |ys| == 3 * t + 1 && |f| <= t + 1 && Distinct(xs)
    requires |Wrong(f, xs, ys)| <= t
    ensures Nonsingular(System(xs, ys, |Wrong(f, xs, ys)|), |xs|)
  {
    hide Kills, System;
    var n, e := |xs|, |Wrong(f, xs, ys)|;
    forall v: Vec | |v| == n && Kills(System(xs, ys, e), v) ensures AllZero(v) {
      HomogeneousSystem(xs, ys, e, v);
      OnlyZero(f, xs, ys, t, v[..e], v[e..]);
      assert v == v[..e] + v[e..];
    }
  }

  lemma {:induction false} ProductLengthWeak(f: seq<Elem>, g: seq<Elem>)
    ensures |PolyMul(f, g)| <= |f| + |g|
  {
    if |f| > 1 { ProductLengthWeak(f[1..], g); }
  }

  lemma UnequalFactors(y: Elem, v: Elem, l: Elem)
    requires Mul(y, l) == Mul(v, l) && y != v
    ensures l == 0
  {
    hide Mul, Mod;
    if l != 0 {
      MulCommutes(y, l);
      MulCommutes(v, l);
      Cancel(l, y, v);
    }
  }

  /** With as many locator unknowns as wrong points, the key equation forces everything to zero. */
  lemma OnlyZero(f: seq<Elem>, xs: Vec, ys: Vec, t: nat, l: seq<Elem>, q: seq<Elem>)
    requires |xs| == |ys| == 3 * t + 1 && |f| <= t + 1 && Distinct(xs)
    requires |Wrong(f, xs, ys)| == |l| <= t && |q| == |xs| - |l|
    requires KeyEquation(l, q, xs, ys)
    ensures AllZero(l) && AllZero(q)
  {
    hide Mul, Mod, PolyMul, Eval;
    var g := PolyMul(f, l);
    ProductLengthWeak(f, l);
    var zs, ws := Points(f, xs, ys, |xs|, true), Wrong(f, xs, ys);
    PointsAre(f, xs, ys, |xs|, true);
    PointsDistinct(f, xs, ys, |xs|, true);
    PointsAre(f, xs, ys, |xs|, false);
    PointsDistinct(f, xs, ys, |xs|, false);
    forall i | 0 <= i < |zs| ensures Eval(q, zs[i]) == Eval(g, zs[i]) {
      assert zs[i] in zs;
      EvalMul(f, l, zs[i]);
    }
    forall i | 0 <= i < |l| ensures Eval(l, ws[i]) == 0 {
      assert ws[i] in ws;
      EvalMul(f, l, ws[i]);
      AgreeEverywhere(q, g, zs, ws[i]);
      var j :| 0 <= j < |xs| && xs[j] == ws[i] && ys[j] != Eval(f, xs[j]);
      UnequalFactors(ys[j], Eval(f, xs[j]), Eval(l, xs[j]));
    }
    TooManyRoots(l, ws);
    forall i | 0 <= i < |q| ensures Eval(q, xs[i]) == 0 {
      EvalAllZero(l, xs[i]);
      MulOneZero(ys[i]);
    }
    TooManyRoots(q, xs);
  }

  /** Without any locator unknowns the system is plain interpolation through all points. */
  lemma NoGuess(xs: Vec, ys: Vec)
    requires |xs| == |ys| && Distinct(xs)
    ensures Nonsingular(System(xs, ys, 0), |xs|)
  {
    hide Kills, System, Mul, Mod;
    forall v: Vec | |v| == |xs| && Kills(System(xs, ys, 0), v) ensures AllZero(v) {
      HomogeneousSystem(xs, ys, 0, v);
      assert v[0..] == v;
      forall i | 0 <= i < |v| ensures Eval(v, xs[i]) == 0 {
        EvalEmpty(v[..0], xs[i]);
        MulOneZero(ys[i]);
      }
      TooManyRoots(v, xs);
    }
  }

  /** The solution at the right guess, coefficient by coefficient. */
  function Answer(f: seq<Elem>, xs: Vec, ys: Vec): (x: Vec)
    requires |xs| == |ys| && |f| + |Wrong(f, xs, ys)| <= |xs|
    requires |f| + 2 * |Wrong(f, xs, ys)| <= |xs|
    ensures |x| == |xs|
  {
    var zs := Wrong(f, xs, ys);
    ProductLength(f, RootPoly(zs));
    RootPoly(zs)[..|zs|] + Padded(PolyMul(f, RootPoly(zs)), |xs| - |zs|)
  }

  lemma AnswerSolves(f: seq<Elem>, xs: Vec, ys: Vec)
    requires |xs| == |ys| && |f| + 2 * |Wrong(f, xs, ys)| <= |xs|
    ensures var e := |Wrong(f, xs, ys)|; Solves(System(xs, ys, e), RightSide(xs, ys, e), Answer(f, xs, ys))
  {
    hide Mul, Mod, PolyMul, Eval, RootPoly, System, RightSide, Solves, Wrong;
    var zs := Wrong(f, xs, ys);
    var loc := RootPoly(zs);
    ProductLength(f, loc);
    var x, q := Answer(f, xs, ys), Padded(PolyMul(f, loc), |xs| - |zs|);
    RootPolyMonic(zs);
    assert x[..|zs|] + [1] == loc && x[|zs|..] == q;
    LocatorSolves(f, xs, ys);
    forall i | 0 <= i < |xs| ensures Mul(ys[i], Eval(loc, xs[i])) == Eval(q, xs[i]) {
      PaddedEval(PolyMul(f, loc), |xs| - |zs|, xs[i]);
    }
    FullSystem(xs, ys, |zs|, x);
  }

  // ---- The decoder ----

  /** The columns below e of a row, and the right-hand side; column e is scratch. */
  method BuildLocatorPart(a: array2<Elem>, i: nat, share: Elem, alpha: Elem, e: nat) returns (bi: Elem)
    requires i < a.Length0 && e < a.Length1
    modifies a
    ensures forall q :: 0 <= q < e ==> a[i, q] == Scaled(share, alpha, q)
    ensures forall p, q :: 0 <= p < a.Length0 && p != i && 0 <= q < a.Length1 ==> a[p, q] == old(a[p, q])
    ensures bi == Scaled(Neg(share), alpha, e)
  {
    hide Mul, Mod, Neg, Power, Scaled;
    bi := Neg(share);
    a[i, 0] := share;
    FirstScaled(share, alpha);
    FirstScaled(Neg(share), alpha);
    for j := 1 to e + 1
      invariant bi == Scaled(Neg(share), alpha, j - 1)
      invariant forall q :: 0 <= q < j ==> a[i, q] == Scaled(share, alpha, q)
      invariant forall p, q :: 0 <= p < a.Length0 && p != i && 0 <= q < a.Length1 ==> a[p, q] == old(a[p, q])
    {
      NextScaled(share, alpha, j);
      NextScaled(Neg(share), alpha, j);
      a[i, j] := Mul(a[i, j - 1], alpha);
      bi := Mul(bi, alpha);
    }
  }

  /** The columns from e on. */
  method BuildQuotientPart(a: array2<Elem>, i: nat, alpha: Elem, e: nat)
    requires i < a.Length0 && e < a.Length1
    modifies a
    ensures forall q :: e <= q < a.Length1 ==> a[i, q] == Neg(Power(alpha, q - e))
    ensures forall p, q :: 0 <= p < a.Length0 && 0 <= q < a.Length1 && (p != i || q < e) ==> a[p, q] == old(a[p, q])
  {
    assert Power(alpha, 0) == 1;
    hide Mul, Mod, Neg, Power;
    a[i, e] := Neg(1);
    for j := e + 1 to a.Length1
      invariant forall q :: e <= q < j ==> a[i, q] == Neg(Power(alpha, q - e))
      invariant forall p, q :: 0 <= p < a.Length0 && 0 <= q < a.Length1 && (p != i || q < e) ==> a[p, q] == old(a[p, q])
    {
      NextNegPower(alpha, j - e);
      a[i, j] := Mul(a[i, j - 1], alpha);
    }
  }

  method BuildRow(a: array2<Elem>, i: nat, share: Elem, alpha: Elem, e: nat) returns (bi: Elem)
    requires i < a.Length0 && e < a.Length1
    modifies a
    ensures forall q :: 0 <= q < a.Length1 ==> a[i, q] == Entry(share, alpha, e, q)
    ensures forall p, q :: 0 <= p < a.Length0 && p != i && 0 <= q < a.Length1 ==> a[p, q] == old(a[p, q])
    ensures bi == Mul(Neg(share), Power(alpha, e))
  {
    hide Mul, Mod, Neg, Power;
    bi := BuildLocatorPart(a, i, share, alpha, e);
    BuildQuotientPart(a, i, alpha, e);
  }

  /** The coefficient matrix and right-hand side for the guess e. */
  method BuildSystem(a: array2<Elem>, shares: Vec, alphas: Vec, e: nat) returns (b: Vec)
    requires a.Length0 == a.Length1 && e < a.Length0 <= |shares| && a.Length0 <= |alphas|
    modifies a
    ensures RowsOf(a) == System(alphas[..a.Length0], shares[..a.Length0], e)
    ensures b == RightSide(alphas[..a.Length0], shares[..a.Length0], e)
  {
    hide Mul, Mod, Neg, Entry, Power;
    var n := a.Length0;
    b := [];
    for i := 0 to n
      invariant |b| == i && forall p :: 0 <= p < i ==> b[p] == Mul(Neg(shares[p]), Power(alphas[p], e))
      invariant forall p, q :: 0 <= p < i && 0 <= q < n ==> a[p, q] == Entry(shares[p], alphas[p], e, q)
    {
      var bi := BuildRow(a, i, shares[i], alphas[i], e);
      b := b + [bi];
    }
    RowsEqual(RowsOf(a), System(alphas[..n], shares[..n], e), n);
  }

  /** What the decoder makes of a solution: the locator with its leading 1, the quotient, or an error. */
  method FinishDecoding(x: Vec, e: nat) returns (r: Result<(seq<Elem>, seq<Elem>), ShamirError>)
    requires e < |x|
    ensures r.Failure? ==> r.error == CannotCorrect
    ensures r.Success? ==>
              Polynomial.Normal(r.value.0) && r.value.1 == x[..e] + [1] &&
              Polynomial.Quotient(Polynomial.Trim(x[e..]), x[..e] + [1], r.value.0, [0])
    ensures forall p: seq<Elem> :: Polynomial.Normal(p) && Polynomial.Quotient(Polynomial.Trim(x[e..]), x[..e] + [1], p, [0])
              ==> r == Success((p, x[..e] + [1]))
  {
    hide Polynomial.Quotient;
    var cE := x[..e + 1][e := 1];
    assert cE == x[..e] + [1];
    var loc := Polynomial.Create(cE);
    assert loc == cE;
    var q := Polynomial.Create(x[e..]);
    var qr := Polynomial.Divide(q, loc);
    var (quot, rem) := qr.value;
    forall p: seq<Elem> | Polynomial.Normal(p) && Polynomial.Quotient(q, loc, p, [0]) ensures quot == p && rem == [0] {
      Polynomial.DivisionUnique(q, loc, quot, rem, p, [0]);
    }
    if Polynomial.IsZero(rem) {
      assert rem == [0];
      return Success((quot, loc));
    }
    return Failure(CannotCorrect);
  }

  /** The polynomial f is close: degree at most t, and at most t of the first 3t+1 shares wrong. */
  ghost predicate Close(f: seq<Elem>, shares: Vec, alphas: Vec, t: nat)
    requires 3 * t + 1 <= |shares| && 3 * t + 1 <= |alphas|
  {
    |f| <= t + 1 && |Wrong(f, alphas[..3 * t + 1], shares[..3 * t + 1])| <= t
  }

  /** The search state after the guesses above e: they were all singular. */
  ghost predicate Exhausted(xs: Vec, ys: Vec, t: nat, e: int)
    requires |xs| == |ys|
  {
    forall g: nat :: e < g <= t ==> !Nonsingular(System(xs, ys, g), |xs|)
  }

  /** The search over e = t, t-1, ..., 0: it stops at the first guess with a nonsingular system, and
      x is then the one solution; x stays zero if every guess fails. */
  method Search(shares: Vec, alphas: Vec, t: nat) returns (x: Vec, e: nat, ghost solved: bool)
    requires 3 * t + 1 <= |shares| && 3 * t + 1 <= |alphas|
    ensures |x| == 3 * t + 1 && e <= t
    ensures var xs, ys := alphas[..3 * t + 1], shares[..3 * t + 1];
            Exhausted(xs, ys, t, if solved then e else -1) &&
            (solved ==> Nonsingular(System(xs, ys, e), |xs|) &&
                        forall v: Vec :: |v| == |xs| ==> (Solves(System(xs, ys, e), RightSide(xs, ys, e), v) <==> v == x))
  {
    hide System, RightSide, Solves, Nonsingular;
    var n := 3 * t + 1;
    var a := new Elem[n, n]((i, j) => 0);
    x := seq(n, i => 0);
    e := t;
    solved := false;
    for k := 0 to t + 1
      invariant |x| == n && e == if k == 0 then t else t - (k - 1)
      invariant Exhausted(alphas[..n], shares[..n], t, t - k)
    {
      e := t - k;
      var b := BuildSystem(a, shares, alphas, e);
      var s := SolveLinearSystem(a, b);
      if s.value.Some? {
        x := s.value.value;
        solved := true;
        break;
      }
    }
  }

  /** Berlekamp-Welch: whenever some polynomial is close, the result is that polynomial in normal
      form together with the monic locator of exactly the wrong points. Conversely a result of
      degree at most t is close. */
  method ReconstructShamirRobust(shares: Vec, alphas: Vec, t: nat) returns (r: Result<(seq<Elem>, seq<Elem>), ShamirError>)
    ensures 3 * t + 1 > |shares| ==> r == Failure(NotEnoughShares)
    ensures 3 * t + 1 <= |shares| && 3 * t + 1 > |alphas| ==> r == Failure(NotEnoughAlphas)
    ensures 3 * t + 1 <= |shares| && 3 * t + 1 <= |alphas| && Distinct(alphas[..3 * t + 1]) ==>
              forall f: seq<Elem> :: Close(f, shares, alphas, t) ==>
                r == Success((Polynomial.Trim(f), RootPoly(Wrong(f, alphas[..3 * t + 1], shares[..3 * t + 1]))))
    ensures 3 * t + 1 <= |shares| && 3 * t + 1 <= |alphas| && Distinct(alphas[..3 * t + 1]) ==>
              r.Success? && |r.value.0| <= t + 1 ==> Close(r.value.0, shares, alphas, t)
    ensures r.Success? ==> Polynomial.Normal(r.value.0)
  {
    hide System, RightSide, Solves, Nonsingular, Wrong, RootPoly, Polynomial.Quotient, Polynomial.Normal, KeyEquation;
    var n := 3 * t + 1;
    if n > |shares| { return Failure(NotEnoughShares); }
    if n > |alphas| { return Failure(NotEnoughAlphas); }
    ghost var xs, ys := alphas[..n], shares[..n];
    var x, e, solved := Search(shares, alphas, t);
    r := FinishDecoding(x, e);
    if Distinct(xs) {
      NoGuess(xs, ys);
      forall f: seq<Elem> | Close(f, shares, alphas, t)
        ensures x[..e] + [1] == RootPoly(Wrong(f, xs, ys))
        ensures Polynomial.Quotient(Polynomial.Trim(x[e..]), x[..e] + [1], Polynomial.Trim(f), [0])
        ensures Polynomial.Normal(Polynomial.Trim(f))
      {
        SearchFinds(f, xs, ys, t, x, e);
      }
      if r.Success? && |r.value.0| <= t + 1 {
        FullSystem(xs, ys, e, x);
        DecodedIsClose(r.value.0, x, xs, ys, e);
      }
    }
  }

  /** What the search finds is the answer for every close polynomial. */
  lemma SearchFinds(f: seq<Elem>, xs: Vec, ys: Vec, t: nat, x: Vec, e: nat)
    requires |xs| == |ys| == |x| == 3 * t + 1 && |f| <= t + 1 && Distinct(xs) && e <= t
    requires |Wrong(f, xs, ys)| <= t
    requires Exhausted(xs, ys, t, e) && Nonsingular(System(xs, ys, e), |xs|)
    requires forall v: Vec :: |v| == |xs| ==> (Solves(System(xs, ys, e), RightSide(xs, ys, e), v) <==> v == x)
    ensures x[..e] + [1] == RootPoly(Wrong(f, xs, ys))
    ensures Polynomial.Quotient(Polynomial.Trim(x[e..]), x[..e] + [1], Polynomial.Trim(f), [0])
  {
    hide System, RightSide, Solves, Nonsingular, Wrong, RootPoly, Answer, Polynomial.Quotient, Polynomial.Trim;
    StopsAtErrors(f, xs, ys, t, e);
    AnswerSolves(f, xs, ys);
    assert x == Answer(f, xs, ys);
    AnswerDecodes(f, xs, ys);
  }

  /** The search stops at e = number of wrong points. */
  lemma StopsAtErrors(f: seq<Elem>, xs: Vec, ys: Vec, t: nat, e: nat)
    requires |xs| == |ys| == 3 * t + 1 && |f| <= t + 1 && Distinct(xs) && e <= t
    requires |Wrong(f, xs, ys)| <= t
    requires Exhausted(xs, ys, t, e) && Nonsingular(System(xs, ys, e), |xs|)
    ensures e == |Wrong(f, xs, ys)|
  {
    hide Nonsingular, System, Wrong;
    RightGuess(f, xs, ys, t);
    if e > |Wrong(f, xs, ys)| { TooManyGuessed(f, xs, ys, t, e); }
  }

  lemma AnswerDecodes(f: seq<Elem>, xs: Vec, ys: Vec)
    requires |xs| == |ys| && |f| + 2 * |Wrong(f, xs, ys)| <= |xs| && |Wrong(f, xs, ys)| < |xs|
    ensures var e, x := |Wrong(f, xs, ys)|, Answer(f, xs, ys);
            x[..e] + [1] == RootPoly(Wrong(f, xs, ys)) &&
            Polynomial.Quotient(Polynomial.Trim(x[e..]), x[..e] + [1], Polynomial.Trim(f), [0])
  {
    hide Mul, Mod, PolyMul, RootPoly, Wrong;
    var zs := Wrong(f, xs, ys);
    var loc := RootPoly(zs);
    var x := Answer(f, xs, ys);
    RootPolyMonic(zs);
    ProductLength(f, loc);
    assert x[..|zs|] + [1] == loc;
    assert x[|zs|..] == Padded(PolyMul(f, loc), |xs| - |zs|);
    var q := Polynomial.Trim(x[|zs|..]);
    Polynomial.TrimSame(x[|zs|..]);
    Polynomial.TrimSame(f);
    forall i: int ensures Polynomial.Coef(q, i) == Add(Polynomial.ProductCoef(Polynomial.Trim(f), loc, i), Polynomial.Coef([0], i)) {
      assert Polynomial.Coef(x[|zs|..], i) == Polynomial.Coef(PolyMul(f, loc), i);
      Polynomial.PolyMulCoef(f, loc, i);
      Polynomial.ProductSame(f, Polynomial.Trim(f), loc, loc, i);
    }
  }

  /** A quotient that comes out can only be wrong where the locator vanishes. */
  lemma DecodedIsClose(p: seq<Elem>, x: Vec, xs: Vec, ys: Vec, e: nat)
    requires |x| == |xs| == |ys| && e < |x| && Distinct(xs)
    requires KeyEquation(x[..e] + [1], x[e..], xs, ys)
    requires Polynomial.Quotient(Polynomial.Trim(x[e..]), x[..e] + [1], p, [0])
    ensures |Wrong(p, xs, ys)| <= e
  {
    hide Mul, Mod, Eval, Polynomial.Quotient;
    var loc, ws := x[..e] + [1], Wrong(p, xs, ys);
    PointsAre(p, xs, ys, |xs|, false);
    PointsDistinct(p, xs, ys, |xs|, false);
    forall i | 0 <= i < |ws| ensures Eval(loc, ws[i]) == 0 {
      assert ws[i] in ws;
      var j :| 0 <= j < |xs| && xs[j] == ws[i] && ys[j] != Eval(p, xs[j]);
      Polynomial.QuotientEval(Polynomial.Trim(x[e..]), loc, p, [0], xs[j]);
      Polynomial.TrimSame(x[e..]);
      Polynomial.SameEval(x[e..], Polynomial.Trim(x[e..]), xs[j]);
      EvalAllZero([0], xs[j]);
      SubZero(Mul(Eval(p, xs[j]), Eval(loc, xs[j])), 0);
      UnequalFactors(ys[j], Eval(p, xs[j]), Eval(loc, xs[j]));
    }
    assert loc[e] == 1;
    if |ws| > e { TooManyRoots(loc, ws); }
  }

  /** The locator's roots are exactly the wrong points. */
  lemma LocatorRoots(f: seq<Elem>, xs: Vec, ys: Vec, x: Elem)
    requires |xs| == |ys|
    ensures var e := RootPoly(Wrong(f, xs, ys));
            e[|e| - 1] == 1 &&
            (Eval(e, x) == 0 <==> exists i :: 0 <= i < |xs| && xs[i] == x && ys[i] != Eval(f, x))
  {
    hide Eval, RootPoly;
    PointsAre(f, xs, ys, |xs|, false);
    RootPolyMonic(Wrong(f, xs, ys));
    RootPolyRoots(Wrong(f, xs, ys), x);
  }

  // ---- The overloads with the canonical evaluation points ----

  method CanonicalAlphas(n: nat) returns (alphas: Vec)
    ensures alphas == ShareXs(n)
  {
    alphas := [];
    for i := 0 to n
      invariant alphas == ShareXs(i)
    {
      alphas := alphas + [ShareX(i)];
    }
  }

  /** Whatever up to t wrong shares among the first 3t+1 are, the secret f(0) comes out. */
  method RecoverSecret(shares: Vec, t: nat) returns (r: Result<Elem, ShamirError>)
    ensures 3 * t + 1 > |shares| ==> r == Failure(NotEnoughShares)
    ensures 3 * t + 1 <= |shares| <= P ==>
              forall f: seq<Elem> :: Close(f, shares, ShareXs(|shares|), t) ==> r == Success(Eval(f, 0))
  {
    hide Wrong, RootPoly, Eval;
    var alphas := CanonicalAlphas(|shares|);
    if 3 * t + 1 <= |shares| <= P {
      ShareXsDistinct(|shares|);
      assert Distinct(alphas[..3 * t + 1]);
    }
    var p := ReconstructShamirRobust(shares, alphas, t);
    if p.Failure? { return Failure(p.error); }
    var v := Polynomial.Evaluate(p.value.0, 0);
    forall f: seq<Elem> | 3 * t + 1 <= |shares| <= P && Close(f, shares, alphas, t) ensures v == Eval(f, 0) {
      Polynomial.TrimSame(f);
      Polynomial.SameEval(f, Polynomial.Trim(f), 0);
    }
    return Success(v);
  }

  /** The shares with some of them replaced. */
  function Altered(shares: Vec, changes: map<nat, Elem>): (r: Vec)
    ensures |r| == |shares|
  {
    seq(|shares|, i requires 0 <= i < |shares| => if i in changes then changes[i] else shares[i])
  }

  /** Only replaced shares can be wrong. */
  lemma {:induction false} WrongAreAltered(f: seq<Elem>, xs: Vec, ys: Vec, places: set<nat>, m: nat)
    requires m <= |xs| == |ys| && forall i: nat :: i < m && i !in places ==> ys[i] == Eval(f, xs[i])
    ensures |Points(f, xs, ys, m, false)| <= |set i | i in places && i < m|
  {
    hide Eval;
    if m > 0 {
      WrongAreAltered(f, xs, ys, places, m - 1);
      var before, now := set i | i in places && i < m - 1, set i | i in places && i < m;
      if m - 1 in places {
        assert now == before + {m - 1};
      } else {
        assert now == before;
      }
    }
  }

  /** Sharing a secret, replacing up to t of the shares by anything and correcting gives the secret. */
  method ShareAlterRecover(secret: Elem, n: nat, t: nat, rnd: Vec, changes: map<nat, Elem>) returns (r: Result<Elem, ShamirError>)
    requires |rnd| == t && 3 * t + 1 <= n <= P && |changes| <= t
    ensures t == 0 ==> r == Failure(ZeroThreshold)
    ensures t > 0 ==> r == Success(secret)
  {
    hide Wrong, Eval;
    var f := CreateShamirSharePolynomial(secret, t, rnd);
    if f.Failure? { return Failure(f.error); }
    SharedSecret(secret, rnd);
    var alphas := CanonicalAlphas(n);
    var shares := CreateShamirShares(f.value, alphas);
    shares := Altered(shares, changes);
    AlteredIsClose(f.value, shares, t, changes);
    r := RecoverSecret(shares, t);
  }

  lemma SharedSecret(secret: Elem, rnd: Vec)
    ensures Polynomial.Trim([secret] + rnd) != [] && |Polynomial.Trim([secret] + rnd)| <= |rnd| + 1
    ensures Eval(Polynomial.Trim([secret] + rnd), 0) == secret
  {
    var f := [secret] + rnd;
    Polynomial.TrimSame(f);
    Polynomial.SameEval(f, Polynomial.Trim(f), 0);
    MulOneZero(Eval(f[1..], 0));
  }

  lemma AlteredIsClose(f: seq<Elem>, shares: Vec, t: nat, changes: map<nat, Elem>)
    requires |f| <= t + 1 && 3 * t + 1 <= |shares| && |changes| <= t
    requires forall i: nat :: i < |shares| && i !in changes ==> shares[i] == Eval(f, ShareX(i))
    ensures Close(f, shares, ShareXs(|shares|), t)
  {
    hide Eval, Points, Mod;
    var m := 3 * t + 1;
    var xs, ys := ShareXs(|shares|)[..m], shares[..m];
    forall i: nat | i < m && i !in changes.Keys ensures ys[i] == Eval(f, xs[i]) { assert xs[i] == ShareX(i); }
    WrongAreAltered(f, xs, ys, changes.Keys, m);
    var places := set i | i in changes.Keys && i < m;
    Contained(places, changes.Keys);
  }

  lemma {:induction false} Contained(a: set<nat>, b: set<nat>)
    requires a <= b
    ensures |a| <= |b|
  {
    assert b == a + (b - a);
  }
}
