/** One batch of k gates: the function-dependent preprocessing of correlator.cc and the online
    multiplication of mult_gate.cc, as computed by one party and as seen across all parties. */
module Batch {
  import opened Field
  import opened Poly
  import opened EvPoly
  import opened Packed
  import opened Combine
  import opened FIPrep
  import opened Triples

  // ---- One party ----

  /** Minus the inner product, as the loop over `shr_delta -= ...` accumulates it. */
  function NegDot(a: Vec, b: Vec, m: nat): Elem
    requires m <= |a| && m <= |b|
  {
    if m == 0 then 0 else Sub(NegDot(a, b, m - 1), Mul(a[m - 1], b[m - 1]))
  }

  /** PrepMultPartiesSendP1, for one of the two factors. */
  function MaskedFactor(e: Vec, shares: Vec, r: Elem, zero: Elem): Elem
    requires |e| == |shares|
  {
    Add(Dot(e, shares, |e|), Add(r, zero))
  }

  /** PrepInputPartiesSendOwner and PrepOutputPartiesSendOwner. */
  function MaskedWires(e: Vec, shares: Vec, zero: Elem): Elem
    requires |e| == |shares|
  {
    Add(Dot(e, shares, |e|), zero)
  }

  /** PrepMultP1ReceivesAndSends and P1Sends: a sharing of degree k - 1, which leaves no choice. */
  function Reshare(pp: Params, secrets: Vec): (s: Vec)
    requires pp.Valid() && |secrets| == pp.k
    ensures |s| == pp.n
  {
    Deal(secrets, pp.k - 1, [], pp.n)
  }

  /** A party's packed shares for one multiplication batch. */
  datatype BatchPrep = BatchPrep(lambdaA: Elem, lambdaB: Elem, delta: Elem)

  /** PrepMultPartiesReceive. */
  function FinishPrep(e: Vec, outShares: Vec, prep: MultPrep, recvA: Elem, recvB: Elem): BatchPrep
    requires |e| == |outShares|
  {
    BatchPrep(
      Sub(recvA, prep.a),
      Sub(recvB, prep.b),
      Add(NegDot(e, outShares, |e|),
          Add(Add(Sub(Sub(Mul(recvA, recvB), Mul(recvA, prep.b)), Mul(recvB, prep.a)), prep.c), prep.o3)))
  }

  /** MultBatch::PartiesSend. */
  function OnlineShare(prep: BatchPrep, muA: Elem, muB: Elem): Elem {
    Add(Add(Add(Mul(muB, prep.lambdaA), Mul(muA, prep.lambdaB)), Mul(muA, muB)), prep.delta)
  }

  // ---- All parties ----

  /** Across parties: us[j] holds the shares of the wire in slot j. */
  function MaskedVec(k: nat, us: seq<Vec>, n: nat, r: Vec, zero: Vec): (s: Vec)
    requires k <= P && |us| == k && Rows(us, n) && |r| == n && |zero| == n
    ensures |s| == n
  {
    seq(n, id requires 0 <= id < n => MaskedFactor(EiShares(k, id), Column(us, id), r[id], zero[id]))
  }

  function MaskedWiresVec(k: nat, us: seq<Vec>, n: nat, zero: Vec): (s: Vec)
    requires k <= P && |us| == k && Rows(us, n) && |zero| == n
    ensures |s| == n
  {
    seq(n, id requires 0 <= id < n => MaskedWires(EiShares(k, id), Column(us, id), zero[id]))
  }

  /** The whole function-dependent preprocessing of a batch. */
  function PrepBatch(pp: Params, v: seq<MultPrep>, left: seq<Vec>, right: seq<Vec>, out: seq<Vec>): (r: seq<BatchPrep>)
    requires pp.Valid() && |v| == pp.n
    requires |left| == |right| == |out| == pp.k && Rows(left, pp.n) && Rows(right, pp.n) && Rows(out, pp.n)
    ensures |r| == pp.n
  {
    var sentA := MaskedVec(pp.k, left, pp.n, ShrA(v), ShrO1(v));
    var sentB := MaskedVec(pp.k, right, pp.n, ShrB(v), ShrO2(v));
    var backA := Reshare(pp, Reconstruct(sentA, pp.k));
    var backB := Reshare(pp, Reconstruct(sentB, pp.k));
    seq(pp.n, id requires 0 <= id < pp.n =>
      FinishPrep(EiShares(pp.k, id), Column(out, id), v[id], backA[id], backB[id]))
  }

  function LambdaA(b: seq<BatchPrep>): (s: Vec) ensures |s| == |b| { seq(|b|, i requires 0 <= i < |b| => b[i].lambdaA) }
  function LambdaB(b: seq<BatchPrep>): (s: Vec) ensures |s| == |b| { seq(|b|, i requires 0 <= i < |b| => b[i].lambdaB) }
  function Delta(b: seq<BatchPrep>): (s: Vec) ensures |s| == |b| { seq(|b|, i requires 0 <= i < |b| => b[i].delta) }

  /** The online protocol of a batch: what P1 reconstructs from the mu's of the operands. */
  function OnlineShares(pp: Params, b: seq<BatchPrep>, muA: Vec, muB: Vec): (s: Vec)
    requires pp.Valid() && |b| == pp.n && |muA| == pp.k && |muB| == pp.k
    ensures |s| == pp.n
  {
    var sentA, sentB := Reshare(pp, muA), Reshare(pp, muB);
    seq(pp.n, id requires 0 <= id < pp.n => OnlineShare(b[id], sentA[id], sentB[id]))
  }

  function OnlineBatch(pp: Params, b: seq<BatchPrep>, muA: Vec, muB: Vec): (mu: Vec)
    requires pp.Valid() && |b| == pp.n && |muA| == pp.k && |muB| == pp.k
    ensures |mu| == pp.k
  {
    Reconstruct(OnlineShares(pp, b, muA, muB), pp.k)
  }

  // ---- Correctness ----

  /** us[j] is a sharing of degree n - k of k copies of lambda[j]. */
  ghost predicate WireSharings(pp: Params, us: seq<Vec>, lambda: Vec) {
    && |us| == |lambda| == pp.k && Rows(us, pp.n)
    && forall j :: 0 <= j < pp.k ==> IsSharing(us[j], pp.n - pp.k, Const(lambda[j], pp.k))
  }

  function Packings(pp: Params, us: seq<Vec>): (s: Vec)
    requires pp.Valid() && |us| == pp.k && Rows(us, pp.n)
    ensures |s| == pp.n
  {
    Pack(pp.k, us, pp.n)
  }

  /** Packing the wires of a batch: degree n - 1, the lambdas slot by slot. */
  lemma WiresPacked(pp: Params, us: seq<Vec>, lambda: Vec)
    requires pp.Valid() && WireSharings(pp, us, lambda)
    ensures IsSharing(Packings(pp, us), pp.n - 1, lambda)
  {
    var ws := seq(pp.k, j requires 0 <= j < pp.k => Const(lambda[j], pp.k));
    PackSharing(pp.k, us, pp.n, pp.n - pp.k, ws);
    assert Diagonal(ws) == lambda;
  }

  lemma ReshareSharing(pp: Params, secrets: Vec)
    requires pp.Valid() && |secrets| == pp.k
    ensures IsSharing(Reshare(pp, secrets), pp.k - 1, secrets)
  {
    DealIsSharing(secrets, pp.k - 1, [], pp.n);
  }

  /** P1 opens lambda + r for each slot. */
  lemma FactorOpened(pp: Params, us: seq<Vec>, lambda: Vec, r: Vec, rv: Vec, zero: Vec)
    requires pp.Valid() && WireSharings(pp, us, lambda) && |r| == |zero| == pp.n && |rv| == pp.k
    requires IsSharing(r, pp.t + pp.k - 1, rv) && IsSharing(zero, pp.n - 1, Const(0, pp.k))
    ensures Reconstruct(MaskedVec(pp.k, us, pp.n, r, zero), pp.k) == VAdd(lambda, rv)
  {
    WiresPacked(pp, us, lambda);
    SumSharing(r, pp.t + pp.k - 1, rv, zero, pp.n - 1, Const(0, pp.k));
    var rest, restv := VAdd(r, zero), VAdd(rv, Const(0, pp.k));
    SumSharing(Packings(pp, us), pp.n - 1, lambda, rest, pp.n - 1, restv);
    assert MaskedVec(pp.k, us, pp.n, r, zero) == VAdd(Packings(pp, us), rest);
    ReconstructCorrect(VAdd(Packings(pp, us), rest), pp.n - 1, VAdd(lambda, restv));
    forall j | 0 <= j < pp.k ensures restv[j] == rv[j] { SubZero(rv[j], 0); }
    assert restv == rv;
  }

  /** Owners of input and output batches open exactly the lambdas. */
  lemma WiresOpened(pp: Params, us: seq<Vec>, lambda: Vec, zero: Vec)
    requires pp.Valid() && WireSharings(pp, us, lambda) && |zero| == pp.n
    requires IsSharing(zero, pp.n - 1, Const(0, pp.k))
    ensures Reconstruct(MaskedWiresVec(pp.k, us, pp.n, zero), pp.k) == lambda
  {
    WiresPacked(pp, us, lambda);
    SumSharing(Packings(pp, us), pp.n - 1, lambda, zero, pp.n - 1, Const(0, pp.k));
    assert MaskedWiresVec(pp.k, us, pp.n, zero) == VAdd(Packings(pp, us), zero);
    ReconstructCorrect(VAdd(Packings(pp, us), zero), pp.n - 1, VAdd(lambda, Const(0, pp.k)));
    forall j | 0 <= j < pp.k ensures Add(lambda[j], 0) == lambda[j] { SubZero(lambda[j], 0); }
    assert VAdd(lambda, Const(0, pp.k)) == lambda;
  }

  lemma {:induction false} NegDotIsNeg(a: Vec, b: Vec, m: nat)
    requires m <= |a| && m <= |b|
    ensures NegDot(a, b, m) == Sub(0, Dot(a, b, m))
  {
    if m > 0 {
      NegDotIsNeg(a, b, m - 1);
    }
  }

  /** The slot identity of the delta: with A = lambda_A + a and B = lambda_B + b opened and
      c = a * b, the linear combination leaves lambda_A * lambda_B - lambda_C. */
  lemma DeltaSlot(la: Elem, lb: Elem, lc: Elem, a: Elem, b: Elem)
    ensures Add(Sub(0, lc),
                Add(Add(Sub(Sub(Mul(Add(la, a), Add(lb, b)), Mul(Add(la, a), b)), Mul(Add(lb, b), a)), Mul(a, b)), 0))
         == Sub(Mul(la, lb), lc)
  {
    hide *;
    var x, y := Add(la, a), Add(lb, b);
    // x*y - x*b = x*lb, and y*a = lb*a + b*a
    SubZero(lb, b);
    Distributes(x, y, b);
    Distributes(lb, la, a);
    Distributes(a, lb, b);
    MulCommutes(lb, a); MulCommutes(b, a); MulCommutes(la, lb);
    DeltaLinear(Mul(la, lb), Mul(lb, a), Mul(a, b), lc);
  }

  lemma DeltaLinear(p: Elem, q: Elem, r: Elem, lc: Elem)
    ensures Add(Sub(0, lc), Add(Add(Sub(Add(p, q), Add(q, r)), r), 0)) == Sub(p, lc)
  {
    SumCancels(p, q, r);
    SubZero(p, 0);
  }

  lemma SumCancels(p: Elem, q: Elem, r: Elem)
    ensures Add(Sub(Add(p, q), Add(q, r)), r) == p
  {
  }

  /** The invariant function-dependent preprocessing establishes: degree t + k - 1 sharings of the
      lambdas of the operands, and a degree n - 1 sharing of lambda_A * lambda_B - lambda_C. */
  ghost predicate BatchReady(pp: Params, r: seq<BatchPrep>, la: Vec, lb: Vec, lc: Vec) {
    && |r| == pp.n && |la| == |lb| == |lc| == pp.k
    && IsSharing(LambdaA(r), pp.t + pp.k - 1, la)
    && IsSharing(LambdaB(r), pp.t + pp.k - 1, lb)
    && IsSharing(Delta(r), pp.n - 1, VSub(VMul(la, lb), lc))
  }

  /** The Beaver combination of the opened values with the triple. */
  function Beaver(xa: Vec, xb: Vec, a: Vec, b: Vec, c: Vec, o: Vec): (r: Vec)
    requires |xa| == |xb| == |a| == |b| == |c| == |o|
    ensures |r| == |xa|
  {
    VAdd(VAdd(VSub(VSub(VMul(xa, xb), VMul(xa, b)), VMul(xb, a)), c), o)
  }

  lemma BeaverSharing(pp: Params, xa: Vec, va: Vec, xb: Vec, vb: Vec, v: seq<MultPrep>, a: Vec, b: Vec)
    requires pp.Valid() && IsTriple(pp, v, a, b) && |xa| == |xb| == pp.n && |va| == |vb| == pp.k
    requires IsSharing(xa, pp.k - 1, va) && IsSharing(xb, pp.k - 1, vb)
    ensures IsSharing(Beaver(xa, xb, ShrA(v), ShrB(v), ShrC(v), ShrO3(v)), pp.n - 1,
                      Beaver(va, vb, a, b, VMul(a, b), Const(0, pp.k)))
  {
    hide IsSharing, VAdd, VSub, VMul, ShrA, ShrB, ShrC, ShrO3;
    var d := pp.t + pp.k - 1;
    var sa, sb, sc, so := ShrA(v), ShrB(v), ShrC(v), ShrO3(v);
    ProductSharing(xa, pp.k - 1, va, xb, pp.k - 1, vb);
    ProductSharing(xa, pp.k - 1, va, sb, d, b);
    ProductSharing(xb, pp.k - 1, vb, sa, d, a);
    WidenDegree(VMul(xa, xb), pp.k - 1 + pp.k - 1, VMul(va, vb), pp.n - 1);
    WidenDegree(sc, d, VMul(a, b), pp.n - 1);
    var s1, v1 := VSub(VMul(xa, xb), VMul(xa, sb)), VSub(VMul(va, vb), VMul(va, b));
    SumSharing(VMul(xa, xb), pp.n - 1, VMul(va, vb), VMul(xa, sb), pp.n - 1, VMul(va, b));
    var s2, v2 := VSub(s1, VMul(xb, sa)), VSub(v1, VMul(vb, a));
    SumSharing(s1, pp.n - 1, v1, VMul(xb, sa), pp.n - 1, VMul(vb, a));
    SumSharing(s2, pp.n - 1, v2, sc, pp.n - 1, VMul(a, b));
    SumSharing(VAdd(s2, sc), pp.n - 1, VAdd(v2, VMul(a, b)), so, pp.n - 1, Const(0, pp.k));
  }

  /** What PrepBatch computes once P1's openings are known, component by component. */
  lemma PrepBatchParts(pp: Params, v: seq<MultPrep>, a: Vec, b: Vec,
                       left: seq<Vec>, la: Vec, right: seq<Vec>, lb: Vec, out: seq<Vec>)
    requires pp.Valid() && IsTriple(pp, v, a, b)
    requires WireSharings(pp, left, la) && WireSharings(pp, right, lb)
    requires |out| == pp.k && Rows(out, pp.n)
    ensures var r := PrepBatch(pp, v, left, right, out);
            var backA, backB := Reshare(pp, VAdd(la, a)), Reshare(pp, VAdd(lb, b));
            && LambdaA(r) == VSub(backA, ShrA(v))
            && LambdaB(r) == VSub(backB, ShrB(v))
            && Delta(r) == VAdd(VSub(Const(0, pp.n), Packings(pp, out)),
                                Beaver(backA, backB, ShrA(v), ShrB(v), ShrC(v), ShrO3(v)))
  {
    hide IsSharing, Reconstruct, Reshare, MaskedVec, EiShares, Dot, NegDot, Mod;
    FactorOpened(pp, left, la, ShrA(v), a, ShrO1(v));
    FactorOpened(pp, right, lb, ShrB(v), b, ShrO2(v));
    var r := PrepBatch(pp, v, left, right, out);
    var backA, backB := Reshare(pp, VAdd(la, a)), Reshare(pp, VAdd(lb, b));
    assert LambdaA(r) == VSub(backA, ShrA(v));
    assert LambdaB(r) == VSub(backB, ShrB(v));
    forall id | 0 <= id < pp.n
      ensures Delta(r)[id] == Add(Sub(0, Packings(pp, out)[id]), Beaver(backA, backB, ShrA(v), ShrB(v), ShrC(v), ShrO3(v))[id])
    {
      NegDotIsNeg(EiShares(pp.k, id), Column(out, id), pp.k);
    }
    assert Delta(r) == VAdd(VSub(Const(0, pp.n), Packings(pp, out)),
                            Beaver(backA, backB, ShrA(v), ShrB(v), ShrC(v), ShrO3(v)));
  }

  lemma DeltaSlots(la: Vec, lb: Vec, lc: Vec, a: Vec, b: Vec)
    requires |la| == |lb| == |lc| == |a| == |b|
    ensures VAdd(VSub(Const(0, |la|), lc), Beaver(VAdd(la, a), VAdd(lb, b), a, b, VMul(a, b), Const(0, |la|)))
         == VSub(VMul(la, lb), lc)
  {
    hide Mod, Mul, Add, Sub;
    var l := VAdd(VSub(Const(0, |la|), lc), Beaver(VAdd(la, a), VAdd(lb, b), a, b, VMul(a, b), Const(0, |la|)));
    forall j | 0 <= j < |la| ensures l[j] == VSub(VMul(la, lb), lc)[j] {
      DeltaSlot(la[j], lb[j], lc[j], a[j], b[j]);
    }
  }

  lemma UnmaskSlots(l: Vec, a: Vec)
    requires |l| == |a|
    ensures VSub(VAdd(l, a), a) == l
  {
    forall j | 0 <= j < |l| ensures VSub(VAdd(l, a), a)[j] == l[j] {
      SubZero(l[j], a[j]);
    }
  }

  /** Function-dependent preprocessing is correct for every batch. */
  lemma PrepBatchCorrect(pp: Params, v: seq<MultPrep>, a: Vec, b: Vec,
                         left: seq<Vec>, la: Vec, right: seq<Vec>, lb: Vec, out: seq<Vec>, lc: Vec)
    requires pp.Valid() && IsTriple(pp, v, a, b)
    requires WireSharings(pp, left, la) && WireSharings(pp, right, lb) && WireSharings(pp, out, lc)
    ensures BatchReady(pp, PrepBatch(pp, v, left, right, out), la, lb, lc)
  {
    hide IsSharing, Reconstruct, Reshare, PrepBatch, LambdaA, LambdaB, Delta, Packings, Beaver, VAdd, VSub, VMul,
      ShrA, ShrB, ShrC, ShrO1, ShrO2, ShrO3;
    PrepBatchParts(pp, v, a, b, left, la, right, lb, out);
    var xa, xb := VAdd(la, a), VAdd(lb, b);
    var backA, backB := Reshare(pp, xa), Reshare(pp, xb);
    ReshareSharing(pp, xa);
    ReshareSharing(pp, xb);
    SumSharing(backA, pp.k - 1, xa, ShrA(v), pp.t + pp.k - 1, a);
    SumSharing(backB, pp.k - 1, xb, ShrB(v), pp.t + pp.k - 1, b);
    UnmaskSlots(la, a);
    UnmaskSlots(lb, b);
    WiresPacked(pp, out, lc);
    ZeroSharing(pp.n, pp.k, pp.n - 1);
    SumSharing(Const(0, pp.n), pp.n - 1, Const(0, pp.k), Packings(pp, out), pp.n - 1, lc);
    BeaverSharing(pp, backA, xa, backB, xb, v, a, b);
    var negOut, negLc := VSub(Const(0, pp.n), Packings(pp, out)), VSub(Const(0, pp.k), lc);
    SumSharing(negOut, pp.n - 1, negLc,
               Beaver(backA, backB, ShrA(v), ShrB(v), ShrC(v), ShrO3(v)), pp.n - 1,
               Beaver(xa, xb, a, b, VMul(a, b), Const(0, pp.k)));
    DeltaSlots(la, lb, lc, a, b);
  }

  // ---- Online ----

  /** The slot identity of the online phase. */
  lemma OnlineSlot(ma: Elem, mb: Elem, la: Elem, lb: Elem, lc: Elem)
    ensures Add(Add(Add(Mul(mb, la), Mul(ma, lb)), Mul(ma, mb)), Sub(Mul(la, lb), lc))
         == Sub(Mul(Add(ma, la), Add(mb, lb)), lc)
  {
    hide *;
    Ring();
    Canonical(ma); Canonical(mb); Canonical(la); Canonical(lb); Canonical(lc);
    assert mb * la + ma * lb + ma * mb + (la * lb - lc) == (ma + la) * (mb + lb) - lc;
  }

  /** mu of the products: the values times each other, minus lambda_C. */
  function ProductMu(muA: Vec, la: Vec, muB: Vec, lb: Vec, lc: Vec): (mu: Vec)
    requires |muA| == |la| == |muB| == |lb| == |lc|
    ensures |mu| == |muA|
  {
    VSub(VMul(VAdd(muA, la), VAdd(muB, lb)), lc)
  }

  lemma OnlineSlots(muA: Vec, la: Vec, muB: Vec, lb: Vec, lc: Vec)
    requires |muA| == |la| == |muB| == |lb| == |lc|
    ensures VAdd(VAdd(VAdd(VMul(muB, la), VMul(muA, lb)), VMul(muA, muB)), VSub(VMul(la, lb), lc))
         == ProductMu(muA, la, muB, lb, lc)
  {
    hide Mod, Mul, Add, Sub;
    var l := VAdd(VAdd(VAdd(VMul(muB, la), VMul(muA, lb)), VMul(muA, muB)), VSub(VMul(la, lb), lc));
    forall j | 0 <= j < |muA| ensures l[j] == ProductMu(muA, la, muB, lb, lc)[j] {
      OnlineSlot(muA[j], muB[j], la[j], lb[j], lc[j]);
    }
  }

  /** The online protocol of a batch gives P1 the mu's of the products, in every slot. */
  lemma OnlineBatchCorrect(pp: Params, b: seq<BatchPrep>, la: Vec, lb: Vec, lc: Vec, muA: Vec, muB: Vec)
    requires pp.Valid() && BatchReady(pp, b, la, lb, lc) && |muA| == |muB| == pp.k
    ensures OnlineBatch(pp, b, muA, muB) == ProductMu(muA, la, muB, lb, lc)
  {
    hide IsSharing, Reshare, Reconstruct, Mod, Mul, Add, Sub;
    var d := pp.t + pp.k - 1;
    var sa, sb := Reshare(pp, muA), Reshare(pp, muB);
    var xa, xb, xd := LambdaA(b), LambdaB(b), Delta(b);
    ReshareSharing(pp, muA);
    ReshareSharing(pp, muB);
    ProductSharing(sb, pp.k - 1, muB, xa, d, la);
    ProductSharing(sa, pp.k - 1, muA, xb, d, lb);
    ProductSharing(sa, pp.k - 1, muA, sb, pp.k - 1, muB);
    WidenDegree(VMul(sa, sb), pp.k - 1 + pp.k - 1, VMul(muA, muB), pp.n - 1);
    var s1, v1 := VAdd(VMul(sb, xa), VMul(sa, xb)), VAdd(VMul(muB, la), VMul(muA, lb));
    SumSharing(VMul(sb, xa), pp.n - 1, VMul(muB, la), VMul(sa, xb), pp.n - 1, VMul(muA, lb));
    var s2, v2 := VAdd(s1, VMul(sa, sb)), VAdd(v1, VMul(muA, muB));
    SumSharing(s1, pp.n - 1, v1, VMul(sa, sb), pp.n - 1, VMul(muA, muB));
    SumSharing(s2, pp.n - 1, v2, xd, pp.n - 1, VSub(VMul(la, lb), lc));
    assert OnlineShares(pp, b, muA, muB) == VAdd(s2, xd);
    OnlineSlots(muA, la, muB, lb, lc);
    ReconstructCorrect(VAdd(s2, xd), pp.n - 1, ProductMu(muA, la, muB, lb, lc));
  }
}
