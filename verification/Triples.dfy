/** The product rounds of the function-independent preprocessing (fi_prep.cc:52-116, 221-298):
    packed multiplication triples, with the shortcut by which parties 0..t-1 receive nothing and
    take 0 as their share of the opened value. */
module Triples {
  import opened Field
  import opened Poly
  import opened EvPoly
  import opened Packed
  import opened Combine
  import opened FIPrep

  /** MultBatchFIPrep: one party's shares for one multiplication batch. */
  datatype MultPrep = MultPrep(a: Elem, b: Elem, c: Elem, o1: Elem, o2: Elem, o3: Elem)

  /** What one party holds once it has received all dealings. */
  datatype Held = Held(ind: Vec, unpacked: seq<Vec>, zero: Vec, zeroProd: seq<Vec>)

  predicate HeldShape(k: nat, sz: Sizes, h: Held) {
    && |h.ind| >= sz.inds
    && |h.unpacked| == k && (forall p :: 0 <= p < k ==> |h.unpacked[p]| >= 3 * sz.mults)
    && |h.zero| >= 3 * sz.mults + sz.ios
    && |h.zeroProd| == k && (forall p :: 0 <= p < k ==> |h.zeroProd[p]| >= sz.mults)
  }

  // ---- One party ----

  /** The party's shares numbered x, one per slot. The first third are the left factors, the
      second the right factors, the last the masks. */
  function UnpackedAt(h: Held, k: nat, sz: Sizes, x: nat): (r: Vec)
    requires HeldShape(k, sz, h) && x < 3 * sz.mults
    ensures |r| == k
  {
    seq(k, p requires 0 <= p < k => h.unpacked[p][x])
  }

  function FactorA(h: Held, k: nat, sz: Sizes, i: nat): (r: Vec)
    requires HeldShape(k, sz, h) && i < sz.mults
    ensures |r| == k
  {
    UnpackedAt(h, k, sz, i)
  }

  function FactorB(h: Held, k: nat, sz: Sizes, i: nat): (r: Vec)
    requires HeldShape(k, sz, h) && i < sz.mults
    ensures |r| == k
  {
    UnpackedAt(h, k, sz, sz.mults + i)
  }

  function Masks(h: Held, k: nat, sz: Sizes, i: nat): (r: Vec)
    requires HeldShape(k, sz, h) && i < sz.mults
    ensures |r| == k
  {
    UnpackedAt(h, k, sz, 2 * sz.mults + i)
  }

  /** What a party sends to P1 for slot p of batch i. */
  function ProductShare(h: Held, k: nat, sz: Sizes, p: nat, i: nat): Elem
    requires HeldShape(k, sz, h) && i < sz.mults && p < k
  {
    Add(Add(Mul(FactorA(h, k, sz, i)[p], FactorB(h, k, sz, i)[p]), Masks(h, k, sz, i)[p]), h.zeroProd[p][i])
  }

  /** P1 opens the value in slot p and shares it again with degree t and shares 0 at 1..t. */
  function OpenedShares(pp: Params, recv: Vec, p: nat): (s: Vec)
    requires pp.Valid() && |recv| == pp.n && p < pp.k
    ensures |s| == pp.n
  {
    DealAt(ReconstructAt(recv, SlotX(p)), p, pp.t, Const(0, pp.t), pp.n)
  }

  /** The share a party takes: received only by parties t, ..., n - 1. */
  function TakenShare(pp: Params, id: nat, sent: Vec): Elem
    requires id < |sent|
  {
    if id >= pp.t then sent[id] else 0
  }

  /** The triple and zero shares of batch i, given the share taken for each slot. */
  function PrepOf(k: nat, sz: Sizes, id: nat, h: Held, i: nat, taken: Vec): MultPrep
    requires HeldShape(k, sz, h) && i < sz.mults && |taken| == k && k <= P
  {
    var e := EiShares(k, id);
    var m := sz.mults;
    MultPrep(
      Dot(e, FactorA(h, k, sz, i), k),
      Dot(e, FactorB(h, k, sz, i), k),
      Dot(e, VSub(taken, Masks(h, k, sz, i)), k),
      h.zero[i], h.zero[m + i], h.zero[2 * m + i])
  }

  /** The shares of zero left for input and output batches. The `else` in GenZeroPartiesReceive
      belongs to the third test only, so the first two thirds are filed here as well. */
  function IOZeros(sz: Sizes, zero: Vec): (r: Vec)
    requires |zero| >= 3 * sz.mults + sz.ios
    ensures |r| >= sz.ios
  {
    zero[..2 * sz.mults] + zero[3 * sz.mults..]
  }

  // ---- All parties ----

  lemma AllBlocksCover(pp: Params, sz: Sizes)
    ensures sz.inds <= Total(Blocks(sz.inds, pp.t), pp.t)
    ensures 3 * sz.mults <= Total(Blocks(3 * sz.mults, pp.t), pp.t)
    ensures 3 * sz.mults + sz.ios <= Total(Blocks(3 * sz.mults + sz.ios, pp.t), pp.t)
    ensures sz.mults <= Total(Blocks(sz.mults, pp.t), pp.t)
  {
    BlocksCover(sz.inds, pp.t);
    BlocksCover(3 * sz.mults, pp.t);
    BlocksCover(3 * sz.mults + sz.ios, pp.t);
    BlocksCover(sz.mults, pp.t);
  }

  function HeldBy(pp: Params, sz: Sizes, r: Randomness, id: nat): (h: Held)
    requires pp.Valid() && RandomnessShape(pp, sz, r) && id < pp.n
    ensures HeldShape(pp.k, sz, h)
  {
    AllBlocksCover(pp, sz);
    var n, t := pp.n, pp.t;
    Held(Extracted(t, Received(IndDealt(pp, r.ind), n, id)),
         seq(pp.k, p requires 0 <= p < pp.k => Extracted(t, Received(UnpackedDealt(pp, p, r.unpacked[p]), n, id))),
         Extracted(t, Received(ZeroDealt(pp, r.zero), n, id)),
         seq(pp.k, p requires 0 <= p < pp.k => Extracted(t, Received(ZeroAtDealt(pp, p, r.zeroProd[p]), n, id))))
  }

  /** What P1 receives for slot p of batch i. */
  function ProductsSent(pp: Params, sz: Sizes, r: Randomness, p: nat, i: nat): (s: Vec)
    requires pp.Valid() && RandomnessShape(pp, sz, r) && i < sz.mults && p < pp.k
    ensures |s| == pp.n
  {
    seq(pp.n, id requires 0 <= id < pp.n => ProductShare(HeldBy(pp, sz, r, id), pp.k, sz, p, i))
  }

  /** The shares party `id` takes for the slots of batch i. */
  function TakenBy(pp: Params, sz: Sizes, r: Randomness, id: nat, i: nat): (s: Vec)
    requires pp.Valid() && RandomnessShape(pp, sz, r) && i < sz.mults && id < pp.n
    ensures |s| == pp.k
  {
    seq(pp.k, p requires 0 <= p < pp.k => TakenShare(pp, id, OpenedShares(pp, ProductsSent(pp, sz, r, p, i), p)))
  }

  function PrepBy(pp: Params, sz: Sizes, r: Randomness, id: nat, i: nat): MultPrep
    requires pp.Valid() && RandomnessShape(pp, sz, r) && i < sz.mults && id < pp.n
  {
    PrepOf(pp.k, sz, id, HeldBy(pp, sz, r, id), i, TakenBy(pp, sz, r, id, i))
  }

  /** The preprocessing of batch i of all parties. */
  function PrepVec(pp: Params, sz: Sizes, r: Randomness, i: nat): (v: seq<MultPrep>)
    requires pp.Valid() && RandomnessShape(pp, sz, r) && i < sz.mults
    ensures |v| == pp.n
  {
    seq(pp.n, id requires 0 <= id < pp.n => PrepBy(pp, sz, r, id, i))
  }

  function ShrA(v: seq<MultPrep>): (s: Vec) ensures |s| == |v| { seq(|v|, i requires 0 <= i < |v| => v[i].a) }
  function ShrB(v: seq<MultPrep>): (s: Vec) ensures |s| == |v| { seq(|v|, i requires 0 <= i < |v| => v[i].b) }
  function ShrC(v: seq<MultPrep>): (s: Vec) ensures |s| == |v| { seq(|v|, i requires 0 <= i < |v| => v[i].c) }
  function ShrO1(v: seq<MultPrep>): (s: Vec) ensures |s| == |v| { seq(|v|, i requires 0 <= i < |v| => v[i].o1) }
  function ShrO2(v: seq<MultPrep>): (s: Vec) ensures |s| == |v| { seq(|v|, i requires 0 <= i < |v| => v[i].o2) }
  function ShrO3(v: seq<MultPrep>): (s: Vec) ensures |s| == |v| { seq(|v|, i requires 0 <= i < |v| => v[i].o3) }

  /** The secret in slot p of the x-th unpacked sharing for slot p. */
  function SlotSecrets(pp: Params, sz: Sizes, r: Randomness, x: nat): (v: Vec)
    requires pp.Valid() && RandomnessShape(pp, sz, r) && x < 3 * sz.mults
    ensures |v| == pp.k
  {
    AllBlocksCover(pp, sz);
    seq(pp.k, p requires 0 <= p < pp.k => IndSecret(pp, r.unpacked[p], x))
  }

  // ---- The product rounds ----

  /** The opened sharing: degree t, the opened value in slot p, and 0 at the first t parties, so
      the shares taken are exactly the shares dealt. */
  lemma OpenedSharing(pp: Params, recv: Vec, p: nat) returns (w: Vec)
    requires pp.Valid() && |recv| == pp.n && p < pp.k
    ensures |w| == pp.k && w[p] == ReconstructAt(recv, SlotX(p))
    ensures IsSharing(OpenedShares(pp, recv, p), pp.t, w)
    ensures forall id :: 0 <= id < pp.n ==> TakenShare(pp, id, OpenedShares(pp, recv, p)) == OpenedShares(pp, recv, p)[id]
  {
    var secret := ReconstructAt(recv, SlotX(p));
    w := DealAtIsSharing(secret, p, pp.t, Const(0, pp.t), pp.n, pp.k);
    var xs, ys := DealAtXs(p, pp.t), [secret] + Const(0, pp.t);
    DealAtXsDistinct(p, pp.t);
    var f := LagrangeIsPolynomial(xs, ys);
    forall id | 0 <= id < pp.t ensures OpenedShares(pp, recv, p)[id] == 0 {
      assert xs[id + 1] == ShareX(id) && ys[id + 1] == 0;
    }
  }

  lemma MaskedProduct(a: Elem, b: Elem, m: Elem)
    ensures Sub(Add(Add(Mul(a, b), m), 0), m) == Mul(a, b)
  {
    SubZero(Add(Mul(a, b), m), 0);
    SubZero(Mul(a, b), m);
  }

  /** Slot p of batch i after opening: a sharing of degree t whose slot p is the product. */
  lemma ProductSharingAt(pp: Params, sz: Sizes, r: Randomness, p: nat, i: nat) returns (w: Vec)
    requires pp.Valid() && RandomnessShape(pp, sz, r) && i < sz.mults && p < pp.k
    ensures |w| == pp.k
    ensures w[p] == Mul(SlotSecrets(pp, sz, r, i)[p], SlotSecrets(pp, sz, r, sz.mults + i)[p])
    ensures IsSharing(ProductVec(pp, sz, r, p, i), pp.t, w)
  {
    hide Mod, Lagrange, IsSharing, Eval, Mul, Add, Sub, Extract, Total, Blocks, BlockOf, RowOf, IndSecret, ReconstructAt, DealAt, Extracted;
    AllBlocksCover(pp, sz);
    var n, t, k, m := pp.n, pp.t, pp.k, sz.mults;
    var ds := r.unpacked[p];
    var dealt := UnpackedDealt(pp, p, ds);
    var wa := UnpackedSharing(pp, p, ds, i);
    var wb := UnpackedSharing(pp, p, ds, m + i);
    var wm := UnpackedSharing(pp, p, ds, 2 * m + i);
    var wz := ZeroAtSharings(pp, p, r.zeroProd[p], i);
    var va, vb := ExtractedVec(t, dealt, n, i), ExtractedVec(t, dealt, n, m + i);
    var vm, vz := ExtractedVec(t, dealt, n, 2 * m + i), ExtractedVec(t, ZeroAtDealt(pp, p, r.zeroProd[p]), n, i);
    ProductSharing(va, t, wa, vb, t, wb);
    SumSharing(VMul(va, vb), t + t, VMul(wa, wb), vm, t, wm);
    SumSharing(VAdd(VMul(va, vb), vm), t + t, VAdd(VMul(wa, wb), wm), vz, n - 1, wz);
    var sent := ProductsSent(pp, sz, r, p, i);
    var ws := VAdd(VAdd(VMul(wa, wb), wm), wz);
    assert sent == VAdd(VAdd(VMul(va, vb), vm), vz);
    ReconstructCorrect(sent, n - 1, ws);
    var wo := OpenedSharing(pp, sent, p);
    SumSharing(OpenedShares(pp, sent, p), t, wo, vm, t, wm);
    w := VSub(wo, wm);
    MaskedProduct(wa[p], wb[p], wm[p]);
    assert ProductVec(pp, sz, r, p, i) == VSub(OpenedShares(pp, sent, p), vm);
  }

  /** The shares GenProdPartiesReceive collects for slot p of batch i, across parties. */
  function ProductVec(pp: Params, sz: Sizes, r: Randomness, p: nat, i: nat): (v: Vec)
    requires pp.Valid() && RandomnessShape(pp, sz, r) && i < sz.mults && p < pp.k
    ensures |v| == pp.n
  {
    seq(pp.n, id requires 0 <= id < pp.n =>
      Sub(TakenBy(pp, sz, r, id, i)[p], Masks(HeldBy(pp, sz, r, id), pp.k, sz, i)[p]))
  }

  /** Packing the unpacked sharings numbered x: degree t + k - 1, the secrets slot by slot. */
  lemma PackedFactor(pp: Params, sz: Sizes, r: Randomness, x: nat, s: Vec)
    requires pp.Valid() && RandomnessShape(pp, sz, r) && x < 3 * sz.mults && |s| == pp.n
    requires forall id :: 0 <= id < pp.n ==>
      s[id] == Dot(EiShares(pp.k, id), UnpackedAt(HeldBy(pp, sz, r, id), pp.k, sz, x), pp.k)
    ensures IsSharing(s, pp.t + pp.k - 1, SlotSecrets(pp, sz, r, x))
  {
    hide Mod, Lagrange, IsSharing, Eval, Extract, Total, Blocks, BlockOf, RowOf, IndSecret, DealAt, Dot, EiShares, Extracted;
    AllBlocksCover(pp, sz);
    var n, t, k := pp.n, pp.t, pp.k;
    var us := seq(k, p requires 0 <= p < k => ExtractedVec(t, UnpackedDealt(pp, p, r.unpacked[p]), n, x));
    var ws: seq<Vec> := [];
    for q := 0 to k
      invariant |ws| == q && Rows(ws, k)
      invariant forall p :: 0 <= p < q ==> IsSharing(us[p], t, ws[p]) && ws[p][p] == IndSecret(pp, r.unpacked[p], x)
    {
      var w := UnpackedSharing(pp, q, r.unpacked[q], x);
      ws := ws + [w];
    }
    PackSharing(k, us, n, t, ws);
    assert Diagonal(ws) == SlotSecrets(pp, sz, r, x);
    forall id | 0 <= id < n ensures s[id] == Pack(k, us, n)[id] {
      var col := UnpackedAt(HeldBy(pp, sz, r, id), k, sz, x);
      forall p | 0 <= p < k ensures Column(us, id)[p] == col[p] { }
      assert Column(us, id) == col;
    }
    assert s == Pack(k, us, n);
  }

  lemma PackedProduct(pp: Params, sz: Sizes, r: Randomness, i: nat)
    requires pp.Valid() && RandomnessShape(pp, sz, r) && i < sz.mults
    ensures IsSharing(ShrC(PrepVec(pp, sz, r, i)), pp.t + pp.k - 1,
                      VMul(SlotSecrets(pp, sz, r, i), SlotSecrets(pp, sz, r, sz.mults + i)))
  {
    hide Mod, Lagrange, IsSharing, Eval, Extract, Total, Blocks, BlockOf, RowOf, IndSecret, DealAt, Dot, EiShares,
      HeldBy, TakenBy, Masks, FactorA, FactorB, Mul, Sub, SlotSecrets;
    var n, t, k := pp.n, pp.t, pp.k;
    var a, b := SlotSecrets(pp, sz, r, i), SlotSecrets(pp, sz, r, sz.mults + i);
    var us := seq(k, p requires 0 <= p < k => ProductVec(pp, sz, r, p, i));
    var ws: seq<Vec> := [];
    for q := 0 to k
      invariant |ws| == q && Rows(ws, k)
      invariant forall p :: 0 <= p < q ==> IsSharing(us[p], t, ws[p]) && ws[p][p] == Mul(a[p], b[p])
    {
      var w := ProductSharingAt(pp, sz, r, q, i);
      ws := ws + [w];
    }
    PackSharing(k, us, n, t, ws);
    assert Diagonal(ws) == VMul(a, b);
    var s := ShrC(PrepVec(pp, sz, r, i));
    forall id | 0 <= id < n ensures s[id] == Pack(k, us, n)[id] {
      assert Column(us, id) == VSub(TakenBy(pp, sz, r, id, i), Masks(HeldBy(pp, sz, r, id), k, sz, i));
    }
    assert s == Pack(k, us, n);
  }

  /** The shares of batch i are a packed multiplication triple with three masks of zero: a, b and
      a * b with degree t + k - 1, zeros with degree n - 1. */
  ghost predicate IsTriple(pp: Params, v: seq<MultPrep>, a: Vec, b: Vec) {
    && |v| == pp.n && |a| == pp.k && |b| == pp.k
    && IsSharing(ShrA(v), pp.t + pp.k - 1, a)
    && IsSharing(ShrB(v), pp.t + pp.k - 1, b)
    && IsSharing(ShrC(v), pp.t + pp.k - 1, VMul(a, b))
    && IsSharing(ShrO1(v), pp.n - 1, Const(0, pp.k))
    && IsSharing(ShrO2(v), pp.n - 1, Const(0, pp.k))
    && IsSharing(ShrO3(v), pp.n - 1, Const(0, pp.k))
  }

  lemma FactorsCorrect(pp: Params, sz: Sizes, r: Randomness, i: nat)
    requires pp.Valid() && RandomnessShape(pp, sz, r) && i < sz.mults
    ensures IsSharing(ShrA(PrepVec(pp, sz, r, i)), pp.t + pp.k - 1, SlotSecrets(pp, sz, r, i))
    ensures IsSharing(ShrB(PrepVec(pp, sz, r, i)), pp.t + pp.k - 1, SlotSecrets(pp, sz, r, sz.mults + i))
  {
    hide IsSharing, Dot, EiShares, TakenBy, HeldBy, UnpackedAt, SlotSecrets;
    PackedFactor(pp, sz, r, i, ShrA(PrepVec(pp, sz, r, i)));
    PackedFactor(pp, sz, r, sz.mults + i, ShrB(PrepVec(pp, sz, r, i)));
  }

  lemma ZerosCorrect(pp: Params, sz: Sizes, r: Randomness, i: nat)
    requires pp.Valid() && RandomnessShape(pp, sz, r) && i < sz.mults
    ensures IsSharing(ShrO1(PrepVec(pp, sz, r, i)), pp.n - 1, Const(0, pp.k))
    ensures IsSharing(ShrO2(PrepVec(pp, sz, r, i)), pp.n - 1, Const(0, pp.k))
    ensures IsSharing(ShrO3(PrepVec(pp, sz, r, i)), pp.n - 1, Const(0, pp.k))
  {
    hide IsSharing, Dot, EiShares, TakenBy, HeldBy, FactorA, FactorB, Masks, Total, Blocks;
    AllBlocksCover(pp, sz);
    var v, m := PrepVec(pp, sz, r, i), sz.mults;
    ZeroSlice(pp, sz, r, i, ShrO1(v));
    ZeroSlice(pp, sz, r, m + i, ShrO2(v));
    ZeroSlice(pp, sz, r, 2 * m + i, ShrO3(v));
  }

  /** Function-independent preprocessing is correct: for all randomness of all dealers, every
      multiplication batch gets a packed triple of the extracted secrets. */
  lemma TriplesCorrect(pp: Params, sz: Sizes, r: Randomness, i: nat)
    requires pp.Valid() && RandomnessShape(pp, sz, r) && i < sz.mults
    ensures IsTriple(pp, PrepVec(pp, sz, r, i), SlotSecrets(pp, sz, r, i), SlotSecrets(pp, sz, r, sz.mults + i))
  {
    hide IsSharing, PrepVec, SlotSecrets, ShrA, ShrB, ShrC, ShrO1, ShrO2, ShrO3;
    FactorsCorrect(pp, sz, r, i);
    PackedProduct(pp, sz, r, i);
    ZerosCorrect(pp, sz, r, i);
  }

  lemma ZeroSlice(pp: Params, sz: Sizes, r: Randomness, x: nat, s: Vec)
    requires pp.Valid() && RandomnessShape(pp, sz, r) && |s| == pp.n
    requires x < Total(|r.zero|, pp.t)
    requires forall id :: 0 <= id < pp.n ==> x < |HeldBy(pp, sz, r, id).zero| && s[id] == HeldBy(pp, sz, r, id).zero[x]
    ensures IsSharing(s, pp.n - 1, Const(0, pp.k))
  {
    ZeroSharings(pp, r.zero, x);
    assert s == ExtractedVec(pp.t, ZeroDealt(pp, r.zero), pp.n, x);
  }

  /** The masks filed for input and output batches are sharings of zeros as well. */
  lemma IOZerosCorrect(pp: Params, sz: Sizes, r: Randomness, x: nat, s: Vec)
    requires pp.Valid() && RandomnessShape(pp, sz, r) && x < sz.ios && |s| == pp.n
    requires forall id :: 0 <= id < pp.n ==> s[id] == IOZeros(sz, HeldBy(pp, sz, r, id).zero)[x]
    ensures IsSharing(s, pp.n - 1, Const(0, pp.k))
  {
    AllBlocksCover(pp, sz);
    var y := if x < 2 * sz.mults then x else x + sz.mults;
    ZeroSlice(pp, sz, r, y, s);
  }

  /** The x-th individual sharing across parties. */
  lemma IndividualCorrect(pp: Params, sz: Sizes, r: Randomness, x: nat, s: Vec)
    requires pp.Valid() && RandomnessShape(pp, sz, r) && x < sz.inds && |s| == pp.n
    requires forall id :: 0 <= id < pp.n ==> s[id] == HeldBy(pp, sz, r, id).ind[x]
    ensures x < Total(|r.ind|, pp.t)
    ensures IsSharing(s, pp.n - pp.k, Const(IndSecret(pp, r.ind, x), pp.k))
  {
    AllBlocksCover(pp, sz);
    IndividualSharing(pp, r.ind, x);
    assert s == ExtractedVec(pp.t, IndDealt(pp, r.ind), pp.n, x);
  }
}
