/** Polynomials over the field as coefficient sequences, constant term first: evaluation is a
    ring homomorphism, and a polynomial with as many roots as coefficients is zero. */
module Poly {
  import opened Field

  function Eval(f: seq<Elem>, x: Elem): Elem {
    if f == [] then 0 else Add(f[0], Mul(x, Eval(f[1..], x)))
  }

  function PolyAdd(f: seq<Elem>, g: seq<Elem>): (h: seq<Elem>)
    ensures |h| == if |f| < |g| then |g| else |f|
  {
    if f == [] then g
    else if g == [] then f
    else [Add(f[0], g[0])] + PolyAdd(f[1..], g[1..])
  }

  function Scale(c: Elem, f: seq<Elem>): (h: seq<Elem>)
    ensures |h| == |f|
  {
    if f == [] then [] else [Mul(c, f[0])] + Scale(c, f[1..])
  }

  function PolySub(f: seq<Elem>, g: seq<Elem>): (h: seq<Elem>)
    ensures |h| == if |f| < |g| then |g| else |f|
  {
    PolyAdd(f, Scale(Neg(1), g))
  }

  function PolyMul(f: seq<Elem>, g: seq<Elem>): (h: seq<Elem>)
    ensures f != [] && g != [] ==> |h| == |f| + |g| - 1
    ensures f == [] ==> h == []
  {
    if f == [] then []
    else if |f| == 1 then Scale(f[0], g)
    else PolyAdd(Scale(f[0], g), [0] + PolyMul(f[1..], g))
  }

  predicate AllZero(f: seq<Elem>) {
    forall i :: 0 <= i < |f| ==> f[i] == 0
  }

  predicate Distinct(xs: seq<Elem>) {
    forall i, j :: 0 <= i < j < |xs| ==> xs[i] != xs[j]
  }

  // ---- Ring identities used below, one integer identity each ----

  lemma AddStep(a: Elem, b: Elem, x: Elem, u: Elem, v: Elem)
    ensures Add(Add(a, b), Mul(x, Add(u, v))) == Add(Add(a, Mul(x, u)), Add(b, Mul(x, v)))
  {
    hide *;
    Ring(); Canonical(a); Canonical(b); Canonical(x); Canonical(u); Canonical(v);
    assert (a + b) + x * (u + v) == (a + x * u) + (b + x * v);
  }

  lemma ScaleStep(c: Elem, a: Elem, x: Elem, u: Elem)
    ensures Add(Mul(c, a), Mul(x, Mul(c, u))) == Mul(c, Add(a, Mul(x, u)))
  {
    hide *;
    Ring(); Canonical(c); Canonical(a); Canonical(x); Canonical(u);
    assert c * a + x * (c * u) == c * (a + x * u);
  }

  lemma MulStep(a: Elem, g: Elem, x: Elem, m: Elem, u: Elem)
    requires m == Mul(u, g)
    ensures Add(Mul(a, g), Add(0, Mul(x, m))) == Mul(Add(a, Mul(x, u)), g)
  {
    hide *;
    Ring(); Canonical(a); Canonical(g); Canonical(x); Canonical(u); Canonical(0);
    assert a * g + (0 + x * (u * g)) == (a + x * u) * g;
  }

  lemma SynthStep(c: Elem, x: Elem, a: Elem, q: Elem, r: Elem)
    ensures Add(c, Mul(x, Add(Mul(Sub(x, a), q), r)))
         == Add(Mul(Sub(x, a), Add(r, Mul(x, q))), Add(c, Mul(a, r)))
  {
    hide *;
    var d := Sub(x, a);
    SubZero(x, a);
    Distributes(x, Mul(d, q), r);
    Distributes(d, r, Mul(x, q));
    Distributes(r, d, a);
    MulSwap(x, d, q);
    Regroup(c, Mul(x, Mul(d, q)), Mul(d, r), Mul(a, r));
  }

  lemma MulSwap(a: Elem, b: Elem, c: Elem)
    ensures Mul(a, Mul(b, c)) == Mul(b, Mul(a, c))
  {
    hide *;
    MulAssociates(a, b, c);
    MulAssociates(b, a, c);
    MulCommutes(a, b);
  }

  lemma Regroup(a: Elem, b: Elem, c: Elem, d: Elem)
    ensures Add(a, Add(b, Add(c, d))) == Add(Add(c, b), Add(a, d))
  {
  }

  // ---- Evaluation is a homomorphism ----

  lemma {:induction false} EvalAdd(f: seq<Elem>, g: seq<Elem>, x: Elem)
    ensures Eval(PolyAdd(f, g), x) == Add(Eval(f, x), Eval(g, x))
  {
    if f != [] && g != [] {
      EvalAdd(f[1..], g[1..], x);
      AddStep(f[0], g[0], x, Eval(f[1..], x), Eval(g[1..], x));
      var h := PolyAdd(f[1..], g[1..]);
      assert ([Add(f[0], g[0])] + h)[1..] == h;
    } else {
      SubZero(Eval(f, x), 0);
      SubZero(Eval(g, x), 0);
    }
  }

  lemma {:induction false} EvalScale(c: Elem, f: seq<Elem>, x: Elem)
    ensures Eval(Scale(c, f), x) == Mul(c, Eval(f, x))
  {
    if f == [] {
      MulOneZero(c);
    } else {
      EvalScale(c, f[1..], x);
      ScaleStep(c, f[0], x, Eval(f[1..], x));
      assert ([Mul(c, f[0])] + Scale(c, f[1..]))[1..] == Scale(c, f[1..]);
    }
  }

  lemma EvalSub(f: seq<Elem>, g: seq<Elem>, x: Elem)
    ensures Eval(PolySub(f, g), x) == Sub(Eval(f, x), Eval(g, x))
  {
    EvalScale(Neg(1), g, x);
    EvalAdd(f, Scale(Neg(1), g), x);
    MinusOne(Eval(f, x), Eval(g, x));
  }

  lemma MinusOne(a: Elem, b: Elem)
    ensures Add(a, Mul(Neg(1), b)) == Sub(a, b)
  {
    Ring(); Canonical(a); Canonical(b); Canonical(1);
    assert a + (-1) * b == a - b;
  }

  lemma {:induction false} EvalMul(f: seq<Elem>, g: seq<Elem>, x: Elem)
    ensures Eval(PolyMul(f, g), x) == Mul(Eval(f, x), Eval(g, x))
  {
    if f == [] {
      MulOneZero(Eval(g, x));
    } else if |f| == 1 {
      EvalScale(f[0], g, x);
      MulOneZero(x);
      SubZero(f[0], 0);
    } else {
      EvalMul(f[1..], g, x);
      var m := PolyMul(f[1..], g);
      EvalScale(f[0], g, x);
      assert ([0] + m)[1..] == m;
      EvalAdd(Scale(f[0], g), [0] + m, x);
      MulStep(f[0], Eval(g, x), x, Eval(m, x), Eval(f[1..], x));
    }
  }

  lemma {:induction false} EvalAllZero(f: seq<Elem>, x: Elem)
    requires AllZero(f)
    ensures Eval(f, x) == 0
  {
    if f != [] {
      EvalAllZero(f[1..], x);
      MulOneZero(x);
    }
  }

  /** Trailing zero coefficients do not change the value. */
  lemma {:induction false} EvalPadded(f: seq<Elem>, z: seq<Elem>, x: Elem)
    requires AllZero(z)
    ensures Eval(f + z, x) == Eval(f, x)
  {
    if f == [] {
      EvalAllZero(z, x);
      assert f + z == z;
    } else {
      EvalPadded(f[1..], z, x);
      assert (f + z)[1..] == f[1..] + z;
    }
  }

  // ---- Roots ----

  /** Synthetic division by X - a: the quotient. */
  function Synth(f: seq<Elem>, a: Elem): (q: seq<Elem>)
    ensures |q| == if |f| == 0 then 0 else |f| - 1
  {
    if |f| <= 1 then [] else [Eval(f[1..], a)] + Synth(f[1..], a)
  }

  lemma {:induction false} SynthDivides(f: seq<Elem>, a: Elem, x: Elem)
    ensures Eval(f, x) == Add(Mul(Sub(x, a), Eval(Synth(f, a), x)), Eval(f, a))
  {
    if |f| <= 1 {
      MulOneZero(Sub(x, a));
      MulOneZero(x);
      MulOneZero(a);
      SubZero(Eval(f, a), 0);
    } else {
      var g := f[1..];
      SynthDivides(g, a, x);
      SynthStep(f[0], x, a, Eval(Synth(g, a), x), Eval(g, a));
      assert ([Eval(g, a)] + Synth(g, a))[1..] == Synth(g, a);
    }
  }

  lemma {:induction false} SynthZero(f: seq<Elem>, a: Elem)
    requires AllZero(Synth(f, a)) && Eval(f, a) == 0
    ensures AllZero(f)
  {
    if |f| == 1 {
      MulOneZero(a);
    } else if |f| > 1 {
      var q := Synth(f, a);
      assert q[0] == Eval(f[1..], a) && q[1..] == Synth(f[1..], a);
      forall i | 0 <= i < |q[1..]| ensures q[1..][i] == 0 { assert q[1..][i] == q[i + 1]; }
      SynthZero(f[1..], a);
      MulOneZero(a);
      assert f[0] == 0;
      forall i | 0 <= i < |f| ensures f[i] == 0 {
        if i > 0 { assert f[i] == f[1..][i - 1]; }
      }
    }
  }

  /** A polynomial that vanishes on as many distinct points as it has coefficients is zero. */
  lemma {:induction false} TooManyRoots(f: seq<Elem>, xs: seq<Elem>)
    requires |f| <= |xs| && Distinct(xs)
    requires forall i :: 0 <= i < |f| ==> Eval(f, xs[i]) == 0
    ensures AllZero(f)
    decreases |f|
  {
    if f != [] {
      var m := |f| - 1;
      var a := xs[m];
      var q := Synth(f, a);
      forall i | 0 <= i < |q| ensures Eval(q, xs[i]) == 0 {
        SynthDivides(f, a, xs[i]);
        SubZero(Mul(Sub(xs[i], a), Eval(q, xs[i])), 0);
        SubZero(xs[i], a);
        NoZeroDivisors(Sub(xs[i], a), Eval(q, xs[i]));
      }
      TooManyRoots(q, xs);
      SynthZero(f, a);
    }
  }

  /** Two polynomials that agree on enough distinct points agree everywhere. */
  lemma AgreeEverywhere(f: seq<Elem>, g: seq<Elem>, xs: seq<Elem>, x: Elem)
    requires |f| <= |xs| && |g| <= |xs| && Distinct(xs)
    requires forall i :: 0 <= i < |xs| ==> Eval(f, xs[i]) == Eval(g, xs[i])
    ensures Eval(f, x) == Eval(g, x)
  {
    var h := PolySub(f, g);
    forall i | 0 <= i < |h| ensures Eval(h, xs[i]) == 0 {
      EvalSub(f, g, xs[i]);
      SubZero(Eval(f, xs[i]), Eval(g, xs[i]));
    }
    TooManyRoots(h, xs);
    EvalAllZero(h, x);
    EvalSub(f, g, x);
    SubZero(Eval(f, x), Eval(g, x));
  }
}
