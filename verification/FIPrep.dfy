/** Function-independent preprocessing (fi_prep.cc): what each party computes from the messages
    it gets, and, looking across all parties, what the results are sharings of. */
module FIPrep {
  import opened Field
  import opened Poly
  import opened EvPoly
  import opened Packed
  import opened Combine

  /** The fixed parameters of a run: number of parties, threshold and packing factor. */
  class Params {
    const n: nat
    const t: nat
    const k: nat

    constructor (n: nat, t: nat, k: nat)
      ensures this.n == n && this.t == t && this.k == k
    {
      this.n, this.t, this.k := n, t, k;
    }

    /** The two conditions SetThreshold checks, and room for n + k distinct points in the field. */
    predicate Valid() {
      k >= 1 && n == t + 2 * (k - 1) + 1 && n > 2 * t && n + k <= P
    }
  }

  /** Each block of n dealings yields t + 1 extracted sharings. */
  function Blocks(amount: nat, t: nat): nat {
    (amount + t) / (t + 1)
  }

  /** How many values `blocks` blocks yield. */
  function Total(blocks: nat, t: nat): nat {
    blocks * (t + 1)
  }

  /** The block, and the row within it, of the x-th extracted value. */
  function BlockOf(x: nat, t: nat): nat {
    x / (t + 1)
  }

  function RowOf(x: nat, t: nat): nat {
    x % (t + 1)
  }

  lemma BlocksCover(amount: nat, t: nat)
    ensures amount <= Total(Blocks(amount, t), t)
  {
    var b := Blocks(amount, t);
    assert amount + t == b * (t + 1) + (amount + t) % (t + 1);
  }

  lemma BlockIndex(x: nat, blocks: nat, t: nat)
    requires x < Total(blocks, t)
    ensures BlockOf(x, t) < blocks && RowOf(x, t) <= t
  {
    var m := t + 1;
    assert (x / m) * m <= x;
    MulOrder(blocks, x / m, m);
  }

  // ---- One party's extraction ----

  /** All values a party extracts from the blocks it received, in order. */
  function Extracted(t: nat, recv: seq<Vec>): (r: Vec)
    ensures |r| == Total(|recv|, t)
  {
    seq(Total(|recv|, t), x requires 0 <= x < Total(|recv|, t) =>
      BlockIndex(x, |recv|, t);
      Extract(RowOf(x, t), recv[BlockOf(x, t)]))
  }

  // ---- Across all parties ----

  /** dealt[b][d] is the share vector dealer d hands out in block b. */
  predicate DealtShape(dealt: seq<seq<Vec>>, n: nat) {
    forall b :: 0 <= b < |dealt| ==> |dealt[b]| == n && Rows(dealt[b], n)
  }

  /** What party `id` receives: in each block one share from every dealer. */
  function Received(dealt: seq<seq<Vec>>, n: nat, id: nat): (r: seq<Vec>)
    requires DealtShape(dealt, n) && id < n
    ensures |r| == |dealt|
  {
    seq(|dealt|, b requires 0 <= b < |dealt| => Column(dealt[b], id))
  }

  /** The x-th extracted value of every party. */
  function ExtractedVec(t: nat, dealt: seq<seq<Vec>>, n: nat, x: nat): (r: Vec)
    requires DealtShape(dealt, n) && x < Total(|dealt|, t)
    ensures |r| == n
  {
    seq(n, id requires 0 <= id < n => Extracted(t, Received(dealt, n, id))[x])
  }

  /** s has degree at most d; it then shares exactly what it reconstructs to. */
  ghost predicate HasDegree(s: Vec, d: int, k: nat) {
    |s| <= P && IsSharing(s, d, Reconstruct(s, k))
  }

  lemma DegreeOfSharing(s: Vec, d: int, v: Vec)
    requires IsSharing(s, d, v) && d < |s| <= P
    ensures HasDegree(s, d, |v|) && Reconstruct(s, |v|) == v
  {
    ReconstructCorrect(s, d, v);
  }

  ghost predicate DealtDegree(dealt: seq<seq<Vec>>, n: nat, d: int, k: nat) {
    DealtShape(dealt, n) && n <= P &&
    forall b, e :: 0 <= b < |dealt| && 0 <= e < n ==> HasDegree(dealt[b][e], d, k)
  }

  /** Slot j of what the dealers of one block shared. */
  function DealtSlot(rows: seq<Vec>, n: nat, j: nat): (r: Vec)
    requires Rows(rows, n) && n <= P
    ensures |r| == |rows|
  {
    seq(|rows|, e requires 0 <= e < |rows| => ReconstructAt(rows[e], SlotX(j)))
  }

  /** Slot by slot, the r-th value extracted from the dealers' secrets. */
  function ExtractedSecrets(rows: seq<Vec>, n: nat, k: nat, r: nat): (v: Vec)
    requires Rows(rows, n) && n <= P
    ensures |v| == k
  {
    seq(k, j requires 0 <= j < k => Extract(r, DealtSlot(rows, n, j)))
  }

  function Secrets(rows: seq<Vec>, n: nat, k: nat): (r: seq<Vec>)
    requires Rows(rows, n) && n <= P
    ensures |r| == |rows| && Rows(r, k)
  {
    seq(|rows|, e requires 0 <= e < |rows| => Reconstruct(rows[e], k))
  }

  /** The x-th extracted sharing keeps the dealers' degree, and its slots hold what is extracted
      from the dealers' slots. */
  lemma ExtractedSharing(t: nat, dealt: seq<seq<Vec>>, n: nat, d: nat, k: nat, x: nat)
    requires DealtDegree(dealt, n, d, k) && x < Total(|dealt|, t)
    ensures BlockOf(x, t) < |dealt|
    ensures IsSharing(ExtractedVec(t, dealt, n, x), d,
                      ExtractedSecrets(dealt[BlockOf(x, t)], n, k, RowOf(x, t)))
  {
    hide Total, BlockOf, RowOf, Mod;
    BlockIndex(x, |dealt|, t);
    var b, r := BlockOf(x, t), RowOf(x, t);
    var rows := dealt[b];
    var vs := Secrets(rows, n, k);
    forall e | 0 <= e < |rows| ensures IsSharing(rows[e], d, vs[e]) {
      assert HasDegree(dealt[b][e], d, k);
    }
    ExtractSharing(r, rows, n, d, vs, k);
    assert ExtractedVec(t, dealt, n, x) == ExtractAll(r, rows, n);
    forall j | 0 <= j < k ensures Column(vs, j) == DealtSlot(rows, n, j) {
      forall e | 0 <= e < |rows| ensures vs[e][j] == DealtSlot(rows, n, j)[e] { }
    }
    assert ExtractAll(r, vs, k) == ExtractedSecrets(rows, n, k, r);
  }

  // ---- The dealings ----

  /** A dealer's choices for one block: the secret and the values at the remaining points. */
  datatype Dealing = Dealing(secret: Elem, rnd: Vec)

  /** How many individual sharings, multiplication batches and input/output batches are needed. */
  datatype Sizes = Sizes(inds: nat, mults: nat, ios: nat)

  /** Everything the dealers sample, indexed by block and dealer, and by slot first where there is
      one run of blocks per slot. */
  datatype Randomness = Randomness(
    ind: seq<seq<Dealing>>,
    unpacked: seq<seq<seq<Dealing>>>,
    zero: seq<seq<Vec>>,
    zeroProd: seq<seq<seq<Vec>>>)

  /** GenIndShrs: k copies of one secret, degree n - k. */
  function IndShares(pp: Params, d: Dealing): (s: Vec)
    requires pp.Valid() && |d.rnd| == pp.n + 1 - 2 * pp.k
    ensures |s| == pp.n
  {
    Deal(Const(d.secret, pp.k), pp.n - pp.k, d.rnd, pp.n)
  }

  /** GenUnpackedShr: one secret in slot p, degree t. */
  function UnpackedShares(pp: Params, p: nat, d: Dealing): (s: Vec)
    requires pp.Valid() && p < pp.k && |d.rnd| == pp.t
    ensures |s| == pp.n
  {
    DealAt(d.secret, p, pp.t, d.rnd, pp.n)
  }

  /** GenZero: zeros in all k slots, degree n - 1. */
  function ZeroShares(pp: Params, rnd: Vec): (s: Vec)
    requires pp.Valid() && |rnd| == pp.n - pp.k
    ensures |s| == pp.n
  {
    Deal(Const(0, pp.k), pp.n - 1, rnd, pp.n)
  }

  /** GenZeroForProd: zero in slot p, degree n - 1. */
  function ZeroAtShares(pp: Params, p: nat, rnd: Vec): (s: Vec)
    requires pp.Valid() && p < pp.k && |rnd| == pp.n - 1
    ensures |s| == pp.n
  {
    DealAt(0, p, pp.n - 1, rnd, pp.n)
  }

  predicate DealingsShape(ds: seq<seq<Dealing>>, blocks: nat, n: nat, len: int) {
    |ds| == blocks && forall b :: 0 <= b < blocks ==>
      |ds[b]| == n && forall e :: 0 <= e < n ==> |ds[b][e].rnd| == len
  }

  predicate RndShape(rs: seq<seq<Vec>>, blocks: nat, n: nat, len: int) {
    |rs| == blocks && forall b :: 0 <= b < blocks ==>
      |rs[b]| == n && forall e :: 0 <= e < n ==> |rs[b][e]| == len
  }

  predicate RandomnessShape(pp: Params, sz: Sizes, r: Randomness)
    requires pp.Valid()
  {
    && DealingsShape(r.ind, Blocks(sz.inds, pp.t), pp.n, pp.n + 1 - 2 * pp.k)
    && |r.unpacked| == pp.k
    && (forall p :: 0 <= p < pp.k ==> DealingsShape(r.unpacked[p], Blocks(3 * sz.mults, pp.t), pp.n, pp.t))
    && RndShape(r.zero, Blocks(3 * sz.mults + sz.ios, pp.t), pp.n, pp.n - pp.k)
    && |r.zeroProd| == pp.k
    && (forall p :: 0 <= p < pp.k ==> RndShape(r.zeroProd[p], Blocks(sz.mults, pp.t), pp.n, pp.n - 1))
  }

  function IndDealt(pp: Params, ds: seq<seq<Dealing>>): (r: seq<seq<Vec>>)
    requires pp.Valid() && DealingsShape(ds, |ds|, pp.n, pp.n + 1 - 2 * pp.k)
    ensures |r| == |ds| && DealtShape(r, pp.n)
  {
    seq(|ds|, b requires 0 <= b < |ds| =>
      seq(pp.n, e requires 0 <= e < pp.n => IndShares(pp, ds[b][e])))
  }

  function UnpackedDealt(pp: Params, p: nat, ds: seq<seq<Dealing>>): (r: seq<seq<Vec>>)
    requires pp.Valid() && p < pp.k && DealingsShape(ds, |ds|, pp.n, pp.t)
    ensures |r| == |ds| && DealtShape(r, pp.n)
  {
    seq(|ds|, b requires 0 <= b < |ds| =>
      seq(pp.n, e requires 0 <= e < pp.n => UnpackedShares(pp, p, ds[b][e])))
  }

  function ZeroDealt(pp: Params, rs: seq<seq<Vec>>): (r: seq<seq<Vec>>)
    requires pp.Valid() && RndShape(rs, |rs|, pp.n, pp.n - pp.k)
    ensures |r| == |rs| && DealtShape(r, pp.n)
  {
    seq(|rs|, b requires 0 <= b < |rs| =>
      seq(pp.n, e requires 0 <= e < pp.n => ZeroShares(pp, rs[b][e])))
  }

  function ZeroAtDealt(pp: Params, p: nat, rs: seq<seq<Vec>>): (r: seq<seq<Vec>>)
    requires pp.Valid() && p < pp.k && RndShape(rs, |rs|, pp.n, pp.n - 1)
    ensures |r| == |rs| && DealtShape(r, pp.n)
  {
    seq(|rs|, b requires 0 <= b < |rs| =>
      seq(pp.n, e requires 0 <= e < pp.n => ZeroAtShares(pp, p, rs[b][e])))
  }

  function DealerSecrets(row: seq<Dealing>): (r: Vec)
    ensures |r| == |row|
  {
    seq(|row|, e requires 0 <= e < |row| => row[e].secret)
  }

  /** The secret the x-th individual sharing carries in every slot. */
  function IndSecret(pp: Params, ds: seq<seq<Dealing>>, x: nat): Elem
    requires x < Total(|ds|, pp.t)
  {
    BlockIndex(x, |ds|, pp.t);
    Extract(RowOf(x, pp.t), DealerSecrets(ds[BlockOf(x, pp.t)]))
  }

  // ---- What the extracted sharings are sharings of ----

  lemma IndSharesSharing(pp: Params, d: Dealing)
    requires pp.Valid() && |d.rnd| == pp.n + 1 - 2 * pp.k
    ensures HasDegree(IndShares(pp, d), pp.n - pp.k, pp.k)
    ensures Reconstruct(IndShares(pp, d), pp.k) == Const(d.secret, pp.k)
  {
    DealIsSharing(Const(d.secret, pp.k), pp.n - pp.k, d.rnd, pp.n);
    DegreeOfSharing(IndShares(pp, d), pp.n - pp.k, Const(d.secret, pp.k));
  }

  /** Individual sharings: degree n - k, the same secret in all k slots. */
  lemma IndividualSharing(pp: Params, ds: seq<seq<Dealing>>, x: nat)
    requires pp.Valid() && DealingsShape(ds, |ds|, pp.n, pp.n + 1 - 2 * pp.k)
    requires x < Total(|ds|, pp.t)
    ensures IsSharing(ExtractedVec(pp.t, IndDealt(pp, ds), pp.n, x), pp.n - pp.k, Const(IndSecret(pp, ds, x), pp.k))
  {
    var n, k := pp.n, pp.k;
    var dealt := IndDealt(pp, ds);
    forall b, e | 0 <= b < |ds| && 0 <= e < n
      ensures HasDegree(dealt[b][e], n - k, k)
      ensures Reconstruct(dealt[b][e], k) == Const(ds[b][e].secret, k)
    {
      IndSharesSharing(pp, ds[b][e]);
    }
    ExtractedSharing(pp.t, dealt, n, n - k, k, x);
    BlockIndex(x, |ds|, pp.t);
    var b, r := BlockOf(x, pp.t), RowOf(x, pp.t);
    var secrets := DealerSecrets(ds[b]);
    forall j | 0 <= j < k ensures ExtractedSecrets(dealt[b], n, k, r)[j] == IndSecret(pp, ds, x) {
      forall e | 0 <= e < n ensures DealtSlot(dealt[b], n, j)[e] == secrets[e] {
        assert Reconstruct(dealt[b][e], k)[j] == ds[b][e].secret;
      }
      assert DealtSlot(dealt[b], n, j) == secrets;
    }
    assert ExtractedSecrets(dealt[b], n, k, r) == Const(IndSecret(pp, ds, x), k);
  }

  /** Sharings for packing: degree t, with the extracted secret in slot p. */
  lemma UnpackedSharing(pp: Params, p: nat, ds: seq<seq<Dealing>>, x: nat) returns (w: Vec)
    requires pp.Valid() && p < pp.k && DealingsShape(ds, |ds|, pp.n, pp.t)
    requires x < Total(|ds|, pp.t)
    ensures |w| == pp.k && w[p] == IndSecret(pp, ds, x)
    ensures IsSharing(ExtractedVec(pp.t, UnpackedDealt(pp, p, ds), pp.n, x), pp.t, w)
  {
    var n, k := pp.n, pp.k;
    var dealt := UnpackedDealt(pp, p, ds);
    forall b, e | 0 <= b < |ds| && 0 <= e < n
      ensures HasDegree(dealt[b][e], pp.t, k)
      ensures Reconstruct(dealt[b][e], k)[p] == ds[b][e].secret
    {
      var v := DealAtIsSharing(ds[b][e].secret, p, pp.t, ds[b][e].rnd, n, k);
      DegreeOfSharing(dealt[b][e], pp.t, v);
    }
    ExtractedSharing(pp.t, dealt, n, pp.t, k, x);
    BlockIndex(x, |ds|, pp.t);
    var b := BlockOf(x, pp.t);
    w := ExtractedSecrets(dealt[b], n, k, RowOf(x, pp.t));
    var secrets := DealerSecrets(ds[b]);
    forall e | 0 <= e < n ensures DealtSlot(dealt[b], n, p)[e] == secrets[e] {
      assert Reconstruct(dealt[b][e], k)[p] == ds[b][e].secret;
    }
    assert DealtSlot(dealt[b], n, p) == secrets;
  }

  /** Zero sharings: degree n - 1, zero in every slot. */
  lemma ZeroSharings(pp: Params, rs: seq<seq<Vec>>, x: nat)
    requires pp.Valid() && RndShape(rs, |rs|, pp.n, pp.n - pp.k) && x < Total(|rs|, pp.t)
    ensures IsSharing(ExtractedVec(pp.t, ZeroDealt(pp, rs), pp.n, x), pp.n - 1, Const(0, pp.k))
  {
    hide Total, BlockOf, RowOf, Mod;
    var n, k := pp.n, pp.k;
    var dealt := ZeroDealt(pp, rs);
    forall b, e | 0 <= b < |rs| && 0 <= e < n
      ensures HasDegree(dealt[b][e], n - 1, k)
      ensures Reconstruct(dealt[b][e], k) == Const(0, k)
    {
      DealIsSharing(Const(0, k), n - 1, rs[b][e], n);
      DegreeOfSharing(dealt[b][e], n - 1, Const(0, k));
    }
    ExtractedSharing(pp.t, dealt, n, n - 1, k, x);
    BlockIndex(x, |rs|, pp.t);
    var b, r := BlockOf(x, pp.t), RowOf(x, pp.t);
    forall j | 0 <= j < k ensures ExtractedSecrets(dealt[b], n, k, r)[j] == 0 {
      var slot := DealtSlot(dealt[b], n, j);
      forall e | 0 <= e < n ensures slot[e] == 0 {
        assert Reconstruct(dealt[b][e], k)[j] == 0;
      }
      DotZero(VandermondeColumn(r, n), slot, n);
    }
    assert ExtractedSecrets(dealt[b], n, k, r) == Const(0, k);
  }

  /** Zero sharings for a product in slot p: degree n - 1, zero in slot p. */
  lemma ZeroAtSharings(pp: Params, p: nat, rs: seq<seq<Vec>>, x: nat) returns (w: Vec)
    requires pp.Valid() && p < pp.k && RndShape(rs, |rs|, pp.n, pp.n - 1) && x < Total(|rs|, pp.t)
    ensures |w| == pp.k && w[p] == 0
    ensures IsSharing(ExtractedVec(pp.t, ZeroAtDealt(pp, p, rs), pp.n, x), pp.n - 1, w)
  {
    hide Total, BlockOf, RowOf, Mod;
    var n, k := pp.n, pp.k;
    var dealt := ZeroAtDealt(pp, p, rs);
    forall b, e | 0 <= b < |rs| && 0 <= e < n
      ensures HasDegree(dealt[b][e], n - 1, k)
      ensures Reconstruct(dealt[b][e], k)[p] == 0
    {
      var v := DealAtIsSharing(0, p, n - 1, rs[b][e], n, k);
      DegreeOfSharing(dealt[b][e], n - 1, v);
    }
    ExtractedSharing(pp.t, dealt, n, n - 1, k, x);
    BlockIndex(x, |rs|, pp.t);
    var b, r := BlockOf(x, pp.t), RowOf(x, pp.t);
    w := ExtractedSecrets(dealt[b], n, k, r);
    var slot := DealtSlot(dealt[b], n, p);
    forall e | 0 <= e < n ensures slot[e] == 0 {
      assert Reconstruct(dealt[b][e], k)[p] == 0;
    }
    DotZero(VandermondeColumn(r, n), slot, n);
  }
}
