/** For which parties and thresholds DN07 is correct: the constructor admits n > 2t, and every
    admitted choice other than n = 2t + 1 has a run that gives an owner a wrong value. */
module DN07Exact {
  import opened Field
  import opened Poly
  import opened EvPoly
  import opened Packed
  import opened Combine
  import opened FIPrep
  import opened Circuits
  import opened Wrappers
  import opened DN07
  import opened DN07Correct
  import Shamir

  // ---- Polynomials with consecutive roots ----

  function PointFrom(a: nat, i: int): Elem { Mod(a + i) }

  /** The points a, a + 1, ..., a + len - 1. */
  function From(a: nat, len: nat): (r: Vec)
    ensures |r| == len
  {
    seq(len, i => PointFrom(a, i))
  }

  lemma LastRoot(zs: Vec, x: Elem)
    requires zs != []
    ensures Eval(Shamir.RootPoly(zs), x) == Mul(Sub(x, zs[|zs| - 1]), Eval(Shamir.RootPoly(zs[..|zs| - 1]), x))
  {
    hide Mul, Mod, PolyMul, Eval;
    var a := zs[|zs| - 1];
    EvalMul([Neg(a), 1], Shamir.RootPoly(zs[..|zs| - 1]), x);
    Shamir.MonicLinear(a, x);
  }

  /** Consecutive roots telescope: the values at 0 and at 1 are as a + len - 1 to a - 1. */
  lemma {:induction false} ConsecutiveRoots(a: nat, len: nat)
    requires a >= 1
    ensures Mul(Eval(Shamir.RootPoly(From(a, len)), 0), Mod(a - 1)) == Mul(Eval(Shamir.RootPoly(From(a, len)), 1), Mod(a - 1 + len))
  {
    hide Mul, Mod, PolyMul, Eval, Shamir.RootPoly, Sub;
    if len == 0 {
      EmptyRoots();
      assert From(a, len) == [];
    } else {
      var zs, b := From(a, len), a - 1 + len;
      ConsecutiveRoots(a, len - 1);
      assert zs[..len - 1] == From(a, len - 1) && zs[len - 1] == Mod(b);
      LastRoot(zs, 0);
      LastRoot(zs, 1);
      var r0, r1 := Eval(Shamir.RootPoly(zs[..len - 1]), 0), Eval(Shamir.RootPoly(zs[..len - 1]), 1);
      Telescope(r0, r1, a - 1, b);
    }
  }

  lemma EmptyRoots()
    ensures forall x: Elem :: Eval(Shamir.RootPoly([]), x) == 1
  {
    forall x: Elem ensures Eval([1], x) == 1 {
      assert [1][1..] == [];
      MulOneZero(x);
      SubZero(1, 0);
    }
  }

  lemma Telescope(r0: Elem, r1: Elem, a: int, b: int)
    requires Mul(r0, Mod(a)) == Mul(r1, Mod(b - 1))
    ensures Mul(Mul(Sub(0, Mod(b)), r0), Mod(a)) == Mul(Mul(Sub(1, Mod(b)), r1), Mod(b))
  {
    hide Mul, Mod, Sub;
    var m, q := Sub(0, Mod(b)), Sub(1, Mod(b));
    SubMod(0, b);
    SubMod(1, b);
    Canonical(0);
    Canonical(1);
    MulAssociates(m, r0, Mod(a));
    MulAssociates(q, r1, Mod(b));
    Signs(b);
    MulMod(-b, b - 1);
    MulMod(1 - b, b);
    MulAssociates(m, r1, Mod(b - 1));
    MulCommutes(m, r1);
    MulAssociates(r1, m, Mod(b - 1));
    MulCommutes(q, r1);
    MulAssociates(r1, q, Mod(b));
    MulAssociates(q, r1, Mod(b));
  }

  lemma Signs(b: int)
    ensures (-b) * (b - 1) == (1 - b) * b
  {
  }

  /** The polynomial of degree len that is 1 at the first share point and 0 at the next len. */
  function Peak(len: nat): (f: seq<Elem>)
    requires len + 1 < P
    ensures |f| == len + 1
  {
    NoRootAt(2, len, 1);
    Scale(Inv(Eval(Shamir.RootPoly(From(2, len)), 1)), Shamir.RootPoly(From(2, len)))
  }

  lemma NoRootAt(a: nat, len: nat, x: nat)
    requires x < a && a + len <= P + x
    ensures Mod(x) !in From(a, len) && Eval(Shamir.RootPoly(From(a, len)), Mod(x)) != 0
    ensures x < 2 ==> Mod(x) == x
  {
    hide Mod, Mul, PolyMul, Eval;
    forall i | 0 <= i < len ensures Mod(x) != From(a, len)[i] { ModDistinct(x, a + i); }
    Shamir.RootPolyRoots(From(a, len), Mod(x));
    if x < 2 { Canonical(x); }
  }

  lemma PeakValues(len: nat)
    requires len + 1 < P
    ensures Eval(Peak(len), SlotX(0)) == Mod(len + 1)
    ensures forall i :: 0 <= i <= len ==> Eval(Peak(len), ShareX(i)) == if i == 0 then 1 else 0
  {
    hide Mod, Mul, PolyMul, Eval, Scale, Shamir.RootPoly, Inv;
    var zs := From(2, len);
    var f := Shamir.RootPoly(zs);
    NoRootAt(2, len, 1);
    var u := Inv(Eval(f, 1));
    Canonical(0);
    Canonical(1);
    EvalScale(u, f, 0);
    EvalScale(u, f, 1);
    ConsecutiveRoots(2, len);
    MulCommutes(u, Eval(f, 1));
    MulAssociates(u, Eval(f, 1), Mod(len + 1));
    MulOneZero(Eval(f, 0));
    MulOneZero(Mod(len + 1));
    forall i | 1 <= i <= len ensures Eval(Peak(len), ShareX(i)) == 0 {
      assert zs[i - 1] == ShareX(i);
      Shamir.RootPolyRoots(zs, ShareX(i));
      EvalScale(u, f, ShareX(i));
      MulOneZero(u);
    }
  }

  /** The first share of 1 with zeros at the last t parties. */
  lemma FirstZeroEndShare(pp: Parties)
    requires pp.Admitted()
    ensures Mul(ZeroEndShares(pp, 1, pp.t + 1)[0], Mod(pp.n)) == Mod(pp.n - pp.t)
  {
    hide Mod, Mul, PolyMul, Eval, Scale, Shamir.RootPoly, Inv, Lagrange;
    var a := pp.n - pp.t + 1;
    var zs := From(a, pp.t);
    var f := Shamir.RootPoly(zs);
    NoRootAt(a, pp.t, 0);
    var u := Inv(Eval(f, 0));
    var g := Scale(u, f);
    Canonical(0);
    Canonical(1);
    EvalScale(u, f, 0);
    EvalScale(u, f, 1);
    MulCommutes(u, Eval(f, 0));
    var xs, ys := ZeroEndXs(pp), [1] + Const(0, pp.t);
    ZeroEndXsDistinct(pp);
    forall i | 0 <= i < |xs| ensures ys[i] == Eval(g, xs[i]) {
      if i > 0 {
        assert zs[i - 1] == xs[i];
        Shamir.RootPolyRoots(zs, xs[i]);
        EvalScale(u, f, xs[i]);
        MulOneZero(u);
      }
    }
    InterpolationExact(xs, ys, g, ShareX(0));
    ConsecutiveRoots(a, pp.t);
    MulAssociates(u, Eval(f, 1), Mod(pp.n));
    MulAssociates(u, Eval(f, 0), Mod(pp.n - pp.t));
    MulOneZero(Mod(pp.n - pp.t));
  }

  // ---- What P1 opens when an input is squared ----

  function Square(a: Elem): Elem { Mul(a, a) }

  /** The shares P1 assembles: parties 0, ..., t square their share of 1 plus their share of the
      mask, the silent parties have squared the mask alone. */
  function Squares(pp: Parties, mask: Vec): (s: Vec)
    requires pp.Admitted() && |mask| == pp.n
    ensures |s| == pp.n
  {
    seq(pp.n, i requires 0 <= i < pp.n =>
      if i <= pp.t then Square(Add(ZeroEndShares(pp, 1, pp.t + 1)[i], mask[i])) else Square(mask[i]))
  }

  function Samples(f: seq<Elem>, n: nat): (s: Vec)
    ensures |s| == n
  {
    seq(n, i requires 0 <= i < n => Eval(f, ShareX(i)))
  }

  lemma SamplesShare(f: seq<Elem>, n: nat, d: nat)
    requires |f| <= d + 1
    ensures IsSharing(Samples(f, n), d, [Eval(f, SlotX(0))])
  {
    assert SharesOf(Samples(f, n), d, [Eval(f, SlotX(0))], f);
  }

  lemma OpensAs(s: Vec)
    requires 0 < |s| <= P
    ensures IsSharing(s, |s| - 1, [ReconstructAt(s, SlotX(0))])
  {
    assert [ReconstructAt(s, SlotX(0))] == Reconstruct(s, 1);
    FullDegreeSharing(s, [ReconstructAt(s, SlotX(0))]);
  }

  lemma SquareOfSum(a: Elem)
    ensures Square(Add(a, 1)) == Add(Add(Square(a), Square(1)), Add(a, a))
    ensures Square(Add(1, a)) == Add(Add(1, Square(a)), Add(a, a))
  {
    hide Mul, Mod, Add, Square;
    Distributes(Add(a, 1), a, 1);
    Distributes(a, a, 1);
    Distributes(1, a, 1);
    MulOneZero(a);
    MulOneZero(1);
    MulOneZero(Add(a, 1));
    SquareTerms(a);
  }

  lemma SquareTerms(a: Elem)
    requires Mul(Add(a, 1), Add(a, 1)) == Add(Mul(Add(a, 1), a), Mul(Add(a, 1), 1))
    requires Mul(Add(a, 1), a) == Add(Mul(a, a), Mul(1, a)) && Mul(1, a) == a && Mul(1, 1) == 1
    requires Mul(Add(a, 1), 1) == Add(a, 1)
    ensures Square(Add(a, 1)) == Add(Add(Square(a), Square(1)), Add(a, a))
    ensures Square(Add(1, a)) == Add(Add(1, Square(a)), Add(a, a))
  {
    hide Mul;
    assert Add(1, a) == Add(a, 1);
    assert Square(a) == Mul(a, a) && Square(1) == 1;
  }

  /** Party by party: the shares with the mask Peak(t) against those without a mask. */
  lemma PeakSquares(pp: Parties, z: Elem)
    requires pp.Admitted() && z == ZeroEndShares(pp, 1, pp.t + 1)[0]
    ensures Squares(pp, Samples(Peak(pp.t), pp.n))
         == VAdd(VAdd(Squares(pp, Const(0, pp.n)), VMul(Samples(Peak(pp.t), pp.n), Samples(Peak(pp.t), pp.n))),
                 VScale(Add(z, z), Samples(Peak(pp.n - 1), pp.n)))
  {
    hide Mod, Mul, Eval, Peak, ZeroEndShares;
    var m, e := Samples(Peak(pp.t), pp.n), Samples(Peak(pp.n - 1), pp.n);
    PeakValues(pp.t);
    PeakValues(pp.n - 1);
    MulOneZero(Add(z, z));
    MulOneZero(0);
    forall i | 0 <= i < pp.n
      ensures Squares(pp, m)[i] == Add(Add(Squares(pp, Const(0, pp.n))[i], Mul(m[i], m[i])), Mul(Add(z, z), e[i]))
    {
      if i == 0 {
        SquareOfSum(z);
        SubZero(z, 0);
      } else if i <= pp.t {
        var zi := ZeroEndShares(pp, 1, pp.t + 1)[i];
        SubZero(zi, 0);
        SubZero(Square(zi), 0);
      } else {
        SubZero(Mul(m[i], m[i]), 0);
      }
    }
  }

  /** One of the two masks makes P1 open something else than the square of 1 plus the mask. */
  lemma OneMaskFails(pp: Parties)
    requires pp.Admitted() && pp.n != 2 * pp.t + 1
    ensures ReconstructAt(Squares(pp, Const(0, pp.n)), SlotX(0)) != Square(Add(1, 0))
         || ReconstructAt(Squares(pp, Samples(Peak(pp.t), pp.n)), SlotX(0)) != Square(Add(1, Mod(pp.t + 1)))
  {
    hide Mod, Mul, Eval, Peak, ZeroEndShares, IsSharing, ReconstructAt, Reconstruct;
    var z := ZeroEndShares(pp, 1, pp.t + 1)[0];
    var s0, m, e := Squares(pp, Const(0, pp.n)), Samples(Peak(pp.t), pp.n), Samples(Peak(pp.n - 1), pp.n);
    var a0, mu, en := ReconstructAt(s0, SlotX(0)), Mod(pp.t + 1), Mod(pp.n);
    PeakSquares(pp, z);
    PeakValues(pp.t);
    PeakValues(pp.n - 1);
    OpensAs(s0);
    SamplesShare(Peak(pp.t), pp.n, pp.t);
    SamplesShare(Peak(pp.n - 1), pp.n, pp.n - 1);
    ProductSharing(m, pp.t, [mu], m, pp.t, [mu]);
    WidenDegree(VMul(m, m), pp.t + pp.t, VMul([mu], [mu]), pp.n - 1);
    SumSharing(s0, pp.n - 1, [a0], VMul(m, m), pp.n - 1, VMul([mu], [mu]));
    ScaledSharing(Add(z, z), e, pp.n - 1, [en]);
    var u, v := VAdd([a0], VMul([mu], [mu])), VScale(Add(z, z), [en]);
    SumSharing(VAdd(s0, VMul(m, m)), pp.n - 1, u, VScale(Add(z, z), e), pp.n - 1, v);
    ReconstructCorrect(Squares(pp, m), pp.n - 1, VAdd(u, v));
    assert VAdd(u, v)[0] == Add(Add(a0, Square(mu)), Mul(Add(z, z), en));
    assert ReconstructAt(Squares(pp, m), SlotX(0)) == Add(Add(a0, Square(mu)), Mul(Add(z, z), en));
    if a0 == Square(Add(1, 0)) && ReconstructAt(Squares(pp, m), SlotX(0)) == Square(Add(1, mu)) {
      FirstZeroEndShare(pp);
      MulOneZero(1);
      SubZero(1, 0);
      SquareOfSum(mu);
      Distributes(en, z, z);
      ModDistinct(pp.t + 1, pp.n - pp.t);
      TwiceEqual(Add(1, Square(mu)), mu, Mod(pp.n - pp.t));
    }
  }

  /** Doubling is injective where 2 < P. */
  lemma TwiceEqual(c: Elem, a: Elem, b: Elem)
    requires Add(c, Add(a, a)) == Add(c, Add(b, b)) && 2 < P
    ensures a == b
  {
    hide *;
    SameTwice(c, a, b);
    if a != b {
      if a < b { Halves(b - a); } else { Halves(a - b); }
    }
  }

  lemma SameTwice(c: Elem, a: Elem, b: Elem)
    requires Add(c, Add(a, a)) == Add(c, Add(b, b))
    ensures 2 * a == 2 * b || 2 * a == 2 * b + P || 2 * b == 2 * a + P
  {
  }

  lemma Halves(d: int)
    requires 0 < d < P && 2 < P
    ensures 2 * d != P
  {
    if 2 * d == P { assert Divides(2, P); }
  }

  // ---- The run ----

  /** A circuit that squares its one input. */
  function SquareCircuit(): Circuit {
    Circuit([InputGate(0), MultGate(0, 0), OutputGate(0, 1)], [0, 0, 0], [[0], []], [[2], []], [[1]], [0])
  }

  ghost predicate IsSquare(c: Circuit) {
    && |c.gates| == 3 && |c.layerOf| == 3 && c.layerOf[1] == 0
    && c.gates[0].InputGate? && c.gates[0].owner == 0
    && c.gates[1].MultGate? && c.gates[1].left == 0 && c.gates[1].right == 0
    && c.gates[2].OutputGate? && c.gates[2].owner == 0 && c.gates[2].left == 1
    && |c.inputs| == 2 && |c.inputs[0]| == 1 && c.inputs[0][0] == 0 && |c.inputs[1]| == 0
    && |c.outputs| == 2 && |c.outputs[0]| == 1 && c.outputs[0][0] == 2 && |c.outputs[1]| == 0
    && |c.mults| == 1 && |c.mults[0]| == 1 && c.mults[0][0] == 1
    && |c.inputOrder| == 1 && c.inputOrder[0] == 0
  }

  lemma SquareWellFormed(c: Circuit, x: map<nat, Elem>)
    requires IsSquare(c) && 0 in x
    ensures WellFormed(c) && WellLayered(c)
    ensures HasInputs(c, x) && Clear(c, x, 2) == Square(x[0])
  {
    hide Mul;
    assert Topological(c);
    assert 0 in c.inputs[0] && 1 in c.mults[0];
    assert Clear(c, x, 0) == x[0];
    assert Clear(c, x, 1) == Square(x[0]);
  }

  lemma SquareLists()
    ensures Flatten(SquareCircuit().inputs) == [0] && Flatten(SquareCircuit().mults) == [1]
  {
    var ss: seq<seq<nat>> := [[0], []];
    assert ss[..1] == [[0]] && [[0]][..0] == [];
    assert Flatten([]) == [];
    assert Flatten([[0]]) == [0];
    assert [[1]][..0] == [];
    assert Flatten([[1]]) == [1];
  }

  lemma SquareValid(x: map<nat, Elem>)
    requires 0 in x
    ensures WellFormed(SquareCircuit()) && WellLayered(SquareCircuit())
    ensures HasInputs(SquareCircuit(), x) && Clear(SquareCircuit(), x, 2) == Square(x[0])
  {
    hide WellFormed, WellLayered, Clear, HasInputs;
    SquareWellFormed(SquareCircuit(), x);
  }

  function Dealer(pp: Parties, d: Dealing, e: int): Dealing {
    if e == 0 then d else Dealing(0, Const(0, pp.t))
  }

  function ZeroDouble(pp: Parties): DoubleDealing {
    DoubleDealing(0, Const(0, pp.t), Const(0, 2 * pp.t))
  }

  /** Only the first dealer shares something else than zeros, once. */
  function Chosen(pp: Parties, d: Dealing): DealerRandomness {
    DealerRandomness([seq(pp.n, e => Dealer(pp, d, e))], [seq(pp.n, e => ZeroDouble(pp))])
  }

  lemma SquareSetup(pp: Parties, d: Dealing)
    requires pp.Admitted() && |d.rnd| == pp.t
    ensures Setup(pp, SquareCircuit(), Chosen(pp, d))
  {
    hide WellFormed, Flatten, SquareCircuit;
    SquareValid(map[0 := 0]);
    SquareLists();
    assert Blocks(1, pp.t) == 1;
  }

  lemma {:induction false} DotFirst(cs: Vec, xs: Vec, m: nat)
    requires 1 <= m <= |cs| && m <= |xs| && cs[0] == 1 && forall i :: 1 <= i < m ==> xs[i] == 0
    ensures Dot(cs, xs, m) == xs[0]
  {
    hide Mod, Mul;
    if m == 1 {
      assert Dot(cs, xs, 0) == 0;
      MulOneZero(xs[0]);
    } else {
      DotFirst(cs, xs, m - 1);
      MulOneZero(cs[m - 1]);
    }
    SubZero(xs[0], 0);
  }

  /** What is extracted first from one block in which only the first dealer dealt. */
  lemma FirstExtracted(t: nat, dealt: seq<seq<Vec>>, n: nat)
    requires DealtShape(dealt, n) && |dealt| == 1 && n > 0 && 0 < Total(1, t)
    requires forall e :: 1 <= e < n ==> dealt[0][e] == Const(0, n)
    ensures ExtractedVec(t, dealt, n, 0) == dealt[0][0]
  {
    hide Dot, Total;
    assert BlockOf(0, t) == 0 && RowOf(0, t) == 0;
    forall i | 0 <= i < n ensures ExtractedVec(t, dealt, n, 0)[i] == dealt[0][0][i] {
      var col := Column(dealt[0], i);
      assert ExtractedVec(t, dealt, n, 0)[i] == Extract(0, col);
      DotFirst(VandermondeColumn(0, n), col, n);
    }
  }

  lemma ZeroDeal(degree: nat, n: nat)
    requires degree < P
    ensures DealAt(0, 0, degree, Const(0, degree), n) == Const(0, n)
  {
    hide Lagrange, Mod;
    var xs, ys := DealAtXs(0, degree), [0] + Const(0, degree);
    DealAtXsDistinct(0, degree);
    forall i | 0 <= i < n ensures DealAt(0, 0, degree, Const(0, degree), n)[i] == 0 {
      InterpolationExact(xs, ys, [], ShareX(i));
    }
  }

  lemma SquareSharings(pp: Parties, d: Dealing)
    requires pp.Admitted() && |d.rnd| == pp.t && Setup(pp, SquareCircuit(), Chosen(pp, d))
    ensures SquareCircuit().gates[0] == InputGate(0) && SquareCircuit().gates[1] == MultGate(0, 0)
    ensures RandVec(pp, SquareCircuit(), Chosen(pp, d), 0) == DealAt(d.secret, 0, pp.t, d.rnd, pp.n)
    ensures LowVec(pp, SquareCircuit(), Chosen(pp, d), 1) == Const(0, pp.n)
    ensures HighVec(pp, SquareCircuit(), Chosen(pp, d), 1) == Const(0, pp.n)
  {
    hide Total, ExtractedVec, DealAt, WellFormed, DealerShape, Flatten;
    var c, r := SquareCircuit(), Chosen(pp, d);
    SquareLists();
    ZeroDeal(pp.t, pp.n);
    ZeroDeal(2 * pp.t, pp.n);
    assert RandIndex(pp, c, r, 0) == 0 && DoubleIndex(pp, c, r, 1) == 0;
    FirstExtracted(pp.t, RandDealt(pp, r.rand), pp.n);
    FirstExtracted(pp.t, LowDealt(pp, r.double), pp.n);
    FirstExtracted(pp.t, HighDealt(pp, r.double), pp.n);
  }

  /** The active parties' shares of the input 1 + secret. */
  function MaskedOne(pp: Parties, mask: Vec): (s: Vec)
    requires pp.Admitted() && |mask| == pp.n
    ensures |s| == pp.t + 1
  {
    seq(pp.t + 1, i requires 0 <= i < pp.t + 1 => Add(ZeroEndShares(pp, 1, pp.t + 1)[i], mask[i]))
  }

  lemma SquareInput(pp: Parties, d: Dealing, mask: Vec, x: map<nat, Elem>)
    requires pp.Admitted() && |d.rnd| == pp.t && Setup(pp, SquareCircuit(), Chosen(pp, d))
    requires mask == DealAt(d.secret, 0, pp.t, d.rnd, pp.n) && x == map[0 := Add(1, d.secret)]
    requires HasInputs(SquareCircuit(), x)
    ensures LearnInputs(pp, SquareCircuit(), Chosen(pp, d), x) == map[0 := MaskedOne(pp, mask)]
  {
    hide Mod, ReconstructAt, ZeroEndShares, RandVec, DealerShape, WellFormed, DealAt, IsSharing;
    var c, r := SquareCircuit(), Chosen(pp, d);
    SquareSharings(pp, d);
    var v := DealAtIsSharing(d.secret, 0, pp.t, d.rnd, pp.n, 1);
    assert v == [d.secret];
    PrefixReconstruct(mask, pp.t, d.secret, pp.t + 1);
    SubZero(1, d.secret);
    assert InputShares(pp, c, r, x, 0) == MaskedOne(pp, mask);
    assert InputIds(c) == {0};
  }

  lemma SquareAssembled(pp: Parties, d: Dealing, mask: Vec, active: map<nat, Vec>)
    requires pp.Admitted() && |d.rnd| == pp.t && Setup(pp, SquareCircuit(), Chosen(pp, d))
    requires mask == DealAt(d.secret, 0, pp.t, d.rnd, pp.n) && active == map[0 := MaskedOne(pp, mask)]
    requires ActiveShape(pp, SquareCircuit(), active)
    ensures SquareCircuit().gates[1] == MultGate(0, 0) && OperandsKnown(SquareCircuit(), active.Keys, 1)
    ensures Assembled(pp, SquareCircuit(), Chosen(pp, d), active, 1, FDRow(pp, SquareCircuit(), Chosen(pp, d), 1)) == Squares(pp, mask)
  {
    hide Mod, ZeroEndShares, RandVec, LowVec, HighVec, DealerShape, WellFormed, Mul, DealAt;
    var c, r := SquareCircuit(), Chosen(pp, d);
    var row := FDRow(pp, c, r, 1);
    SquareSharings(pp, d);
    forall a: Elem ensures Sub(a, 0) == a { SubZero(a, 0); }
    forall i | 0 <= i < pp.n ensures Assembled(pp, c, r, active, 1, row)[i] == Squares(pp, mask)[i] {
      if i <= pp.t {
        assert WireShare(pp, c, r, active, i, 0) == Add(ZeroEndShares(pp, 1, pp.t + 1)[i], mask[i]);
      } else {
        assert row[i - (pp.t + 1)] == FDShare(pp, c, r, i, 1);
        assert SilentShare(pp, c, r, i, 0) == mask[i];
      }
    }
  }

  lemma SquareGate(pp: Parties, d: Dealing, mask: Vec, active: map<nat, Vec>)
    requires pp.Admitted() && |d.rnd| == pp.t && Setup(pp, SquareCircuit(), Chosen(pp, d))
    requires mask == DealAt(d.secret, 0, pp.t, d.rnd, pp.n) && active == map[0 := MaskedOne(pp, mask)]
    requires ActiveShape(pp, SquareCircuit(), active)
    ensures SquareCircuit().gates[1] == MultGate(0, 0) && OperandsKnown(SquareCircuit(), active.Keys, 1)
    ensures MultShares(pp, SquareCircuit(), Chosen(pp, d), active, 1, FDRow(pp, SquareCircuit(), Chosen(pp, d), 1))
         == ZeroEndShares(pp, ReconstructAt(Squares(pp, mask), SlotX(0)), pp.t + 1)
  {
    hide Mod, ReconstructAt, ZeroEndShares, RandVec, LowVec, HighVec, DealerShape, WellFormed, Mul, Assembled, Squares, FDRow, DealAt;
    SquareSharings(pp, d);
    SquareAssembled(pp, d, mask, active);
    forall a: Elem ensures Add(a, 0) == a { SubZero(a, 0); }
  }

  lemma SquareLayer(pp: Parties, d: Dealing, mask: Vec, x: map<nat, Elem>)
    requires pp.Admitted() && |d.rnd| == pp.t && Setup(pp, SquareCircuit(), Chosen(pp, d))
    requires mask == DealAt(d.secret, 0, pp.t, d.rnd, pp.n) && x == map[0 := Add(1, d.secret)]
    requires HasInputs(SquareCircuit(), x)
    ensures RunLayers(pp, SquareCircuit(), Chosen(pp, d), x, 1).Some?
    ensures var active := RunLayers(pp, SquareCircuit(), Chosen(pp, d), x, 1).value.active;
            1 in active && active[1] == ZeroEndShares(pp, ReconstructAt(Squares(pp, mask), SlotX(0)), pp.t + 1)
  {
    hide WellFormed, MultShares, LearnInputs, ReconstructAt, Flatten, DealerShape, FDQueue, FDRow, DealAt, ZeroEndShares, Squares, MaskedOne;
    var c, r := SquareCircuit(), Chosen(pp, d);
    SquareInput(pp, d, mask, x);
    assert RunLayers(pp, c, r, x, 0) == Some(State(map[0 := MaskedOne(pp, mask)], FDQueue(pp, c, r)));
    QueueAligned(pp, c, r, 0, 0);
    OffsetStep(c.mults, 0);
    SquareGate(pp, d, mask, map[0 := MaskedOne(pp, mask)]);
  }

  lemma SquareOutput(pp: Parties, d: Dealing, active: map<nat, Vec>)
    requires pp.Admitted() && Setup(pp, SquareCircuit(), Chosen(pp, d))
    requires ActiveShape(pp, SquareCircuit(), active) && 1 in active
    ensures Known(SquareCircuit(), active.Keys, 2)
    ensures forall i :: 0 <= i <= pp.t ==> WireShare(pp, SquareCircuit(), Chosen(pp, d), active, i, 2) == active[1][i]
  {
    hide WellFormed, DealerShape, MaskShare;
  }

  /** What the owner gets when the input 1 + secret is squared. */
  lemma SquareRun(pp: Parties, d: Dealing, mask: Vec, x: map<nat, Elem>)
    requires pp.Admitted() && |d.rnd| == pp.t
    requires mask == DealAt(d.secret, 0, pp.t, d.rnd, pp.n) && x == map[0 := Add(1, d.secret)]
    ensures Setup(pp, SquareCircuit(), Chosen(pp, d)) && WellLayered(SquareCircuit()) && HasInputs(SquareCircuit(), x)
    ensures Clear(SquareCircuit(), x, 2) == Square(Add(1, d.secret))
    ensures RunProtocol(pp, SquareCircuit(), Chosen(pp, d), x, 0, 0) == Some(ReconstructAt(Squares(pp, mask), SlotX(0)))
  {
    hide WellFormed, WellLayered, ReconstructAt, Clear, Flatten, DealerShape, RunLayers, SilentReady, WireShare, Known, HasInputs,
      Squares, ZeroEndShares, DealAt, IsSharing;
    var c, r := SquareCircuit(), Chosen(pp, d);
    SquareSetup(pp, d);
    SquareValid(x);
    SilentGoesThrough(c);
    SquareLayer(pp, d, mask, x);
    var active := RunLayers(pp, c, r, x, 1).value.active;
    SquareOutput(pp, d, active);
    var s := ReconstructAt(Squares(pp, mask), SlotX(0));
    var firsts := seq(pp.t + 1, i requires 0 <= i < pp.t + 1 => WireShare(pp, c, r, active, i, 2));
    ZeroEndSharing(pp, s);
    PrefixReconstruct(ZeroEndShares(pp, s, pp.n), pp.t, s, pp.t + 1);
    ZeroEndPrefix(pp, s);
    assert firsts == active[1];
  }

  lemma ZeroEndPrefix(pp: Parties, v: Elem)
    requires pp.Admitted()
    ensures ZeroEndShares(pp, v, pp.n)[..pp.t + 1] == ZeroEndShares(pp, v, pp.t + 1)
  {
    hide Lagrange;
  }

  /** The mask Peak(t) is dealt by some randomness. */
  lemma PeakDealt(pp: Parties) returns (d: Dealing)
    requires pp.Admitted()
    ensures |d.rnd| == pp.t && d.secret == Mod(pp.t + 1)
    ensures DealAt(d.secret, 0, pp.t, d.rnd, pp.n) == Samples(Peak(pp.t), pp.n)
  {
    hide Mod, Eval, Lagrange, Peak;
    PeakValues(pp.t);
    d := Dealing(Mod(pp.t + 1), Samples(Peak(pp.t), pp.t));
    var xs, ys := DealAtXs(0, pp.t), [d.secret] + d.rnd;
    DealAtXsDistinct(0, pp.t);
    forall i | 0 <= i < pp.n ensures DealAt(d.secret, 0, pp.t, d.rnd, pp.n)[i] == Eval(Peak(pp.t), ShareX(i)) {
      InterpolationExact(xs, ys, Peak(pp.t), ShareX(i));
    }
  }

  // ---- The exact condition ----

  /** Every run on a well-layered circuit gives every owner its cleartext values. */
  ghost predicate AlwaysCorrect(pp: Parties) {
    forall c, r, x, o, p ::
      Setup(pp, c, r) && HasInputs(c, x) && WellLayered(c) && 0 <= o < |c.outputs| && 0 <= p < |c.outputs[o]| ==>
        RunProtocol(pp, c, r, x, o, p) == Some(Clear(c, x, c.outputs[o][p]))
  }

  lemma CorrectWith(pp: Parties, d: Dealing)
    requires pp.Admitted() && AlwaysCorrect(pp) && |d.rnd| == pp.t
    ensures ReconstructAt(Squares(pp, DealAt(d.secret, 0, pp.t, d.rnd, pp.n)), SlotX(0)) == Square(Add(1, d.secret))
  {
    hide Clear, RunProtocol, Setup, WellLayered, HasInputs, ReconstructAt, DealAt, Squares, Square;
    SquareRun(pp, d, DealAt(d.secret, 0, pp.t, d.rnd, pp.n), map[0 := Add(1, d.secret)]);
    assert SquareCircuit().outputs[0][0] == 2;
  }

  lemma CorrectThen(pp: Parties)
    requires pp.Valid()
    ensures AlwaysCorrect(pp)
  {
    hide Clear, RunProtocol, WellLayered, HasInputs;
    forall c, r, x, o, p |
      Setup(pp, c, r) && HasInputs(c, x) && WellLayered(c) && 0 <= o < |c.outputs| && 0 <= p < |c.outputs[o]|
      ensures RunProtocol(pp, c, r, x, o, p) == Some(Clear(c, x, c.outputs[o][p]))
    {
      DN07IsCorrect(pp, c, r, x, o, p);
    }
  }

  /** Among the parties and thresholds the constructor admits, DN07 is always correct exactly when
      n = 2t + 1. */
  lemma DN07CorrectExactly(pp: Parties)
    requires pp.Admitted()
    ensures AlwaysCorrect(pp) <==> pp.n == 2 * pp.t + 1
  {
    hide Clear, RunProtocol, Setup, WellLayered, HasInputs, ReconstructAt, DealAt, Squares, Square;
    if pp.n == 2 * pp.t + 1 {
      CorrectThen(pp);
    } else if AlwaysCorrect(pp) {
      CorrectWith(pp, Dealing(0, Const(0, pp.t)));
      ZeroDeal(pp.t, pp.n);
      var d := PeakDealt(pp);
      CorrectWith(pp, d);
      OneMaskFails(pp);
    }
  }
}
