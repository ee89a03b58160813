/** The two linear combinations of sharings that both protocols are built from: combining k
    sharings with the shares of the unit vectors (packing), and combining the sharings of all
    dealers with a column of the Vandermonde matrix (randomness extraction). */
module Combine {
  import opened Field
  import opened Poly
  import opened EvPoly
  import opened Packed

  // ---- Inner products as the loops accumulate them ----

  /** The first m terms of the inner product. */
  function Dot(a: Vec, b: Vec, m: nat): Elem
    requires m <= |a| && m <= |b|
  {
    if m == 0 then 0 else Add(Dot(a, b, m - 1), Mul(a[m - 1], b[m - 1]))
  }

  function Column(rows: seq<Vec>, i: nat): (c: Vec)
    requires forall d :: 0 <= d < |rows| ==> i < |rows[d]|
    ensures |c| == |rows|
  {
    seq(|rows|, d requires 0 <= d < |rows| => rows[d][i])
  }

  /** A list of rows that all have length n. */
  predicate Rows(rows: seq<Vec>, n: nat) {
    forall d :: 0 <= d < |rows| ==> |rows[d]| == n
  }

  // ---- Shares of the unit vectors ----

  /** The product PrecomputeEi accumulates for e_i at party `id`, over the first m values of j. */
  function EiProduct(i: nat, id: nat, m: nat): Elem
    requires i < P && m <= P
  {
    if m == 0 then 1
    else if m - 1 == i then EiProduct(i, id, m - 1)
    else
      EiDenominator(i, m - 1);
      Mul(EiProduct(i, id, m - 1), Div(Add(Mod(id + 1), Mod(m - 1)), Sub(Mod(m - 1), Mod(i))))
  }

  lemma EiDenominator(i: nat, j: nat)
    requires i < P && j < P && i != j
    ensures Sub(Mod(j), Mod(i)) != 0
  {
    if i < j { ModDistinct(i, j); } else { ModDistinct(j, i); }
    SubZero(Mod(j), Mod(i));
  }

  /** mSharesOfEi of party `id`: its shares of e_0, ..., e_{k-1}. */
  function EiShares(k: nat, id: nat): (r: Vec)
    requires k <= P
    ensures |r| == k
  {
    seq(k, i requires 0 <= i < k => EiProduct(i, id, k))
  }

  lemma SlotXsDistinct(k: nat)
    requires k <= P
    ensures Distinct(SlotXs(k))
  {
    forall i, j | 0 <= i < j < k ensures SlotX(i) != SlotX(j) {
      ModDistinct(-j, -i);
    }
  }

  lemma {:induction false} EiIsBasis(k: nat, i: nat, id: nat, m: nat)
    requires i < k <= P && m <= k
    ensures Distinct(SlotXs(k)) && EiProduct(i, id, m) == Basis(SlotXs(k), i, ShareX(id), m)
  {
    hide Mod, Mul, Add, Sub, Inv;
    SlotXsDistinct(k);
    if m > 0 {
      EiIsBasis(k, i, id, m - 1);
      if m - 1 != i {
        var j := m - 1;
        EiDenominator(i, j);
        var a: int, b: int := i, j;
        assert SlotXs(k)[j] == Mod(-b) && SlotXs(k)[i] == Mod(-a);
        SubNegated(id + 1, j);
        SubMod(-a, -b);
        SubMod(j, i);
      }
    }
  }

  lemma SubNegated(x: int, j: int)
    ensures Sub(Mod(x), Mod(-j)) == Add(Mod(x), Mod(j))
  {
    hide *;
    SubMod(x, -j);
    AddMod(x, j);
  }

  function Unit(k: nat, i: nat): Vec { seq(k, j => if j == i then 1 else 0) }

  /** The parties' shares of e_i form a sharing of degree k - 1 of the i-th unit vector. */
  lemma EiSharing(k: nat, i: nat, n: nat)
    requires i < k <= P
    ensures IsSharing(seq(n, id requires 0 <= id < n => EiShares(k, id)[i]), k - 1, Unit(k, i))
  {
    SlotXsDistinct(k);
    var xs := SlotXs(k);
    var f := BasisPoly(xs, i, k);
    var s := seq(n, id requires 0 <= id < n => EiShares(k, id)[i]);
    forall id | 0 <= id < n ensures s[id] == Eval(f, ShareX(id)) {
      EiIsBasis(k, i, id, k);
      BasisPolyEval(xs, i, k, ShareX(id));
    }
    forall j | 0 <= j < k ensures Unit(k, i)[j] == Eval(f, SlotX(j)) {
      BasisPolyEval(xs, i, k, SlotX(j));
      BasisAtPoint(xs, i, j, k);
    }
    assert SharesOf(s, k - 1, Unit(k, i), f);
  }

  // ---- Packing ----

  /** Party-wise packing of the sharings us[0..m]: sum of e_j times us[j]. */
  function PackPartial(k: nat, us: seq<Vec>, n: nat, m: nat): (r: Vec)
    requires k <= P && |us| == k && Rows(us, n) && m <= k
    ensures |r| == n
  {
    seq(n, id requires 0 <= id < n => Dot(EiShares(k, id), Column(us, id), m))
  }

  function Pack(k: nat, us: seq<Vec>, n: nat): (r: Vec)
    requires k <= P && |us| == k && Rows(us, n)
    ensures |r| == n
  {
    PackPartial(k, us, n, k)
  }

  /** Slot j of the packed vector is slot j of the j-th one. */
  function Diagonal(ws: seq<Vec>): (r: Vec)
    requires Rows(ws, |ws|)
    ensures |r| == |ws|
  {
    seq(|ws|, j requires 0 <= j < |ws| => ws[j][j])
  }

  function DiagonalUpTo(ws: seq<Vec>, m: nat): (r: Vec)
    requires Rows(ws, |ws|)
    ensures |r| == |ws|
  {
    seq(|ws|, j requires 0 <= j < |ws| => if j < m then ws[j][j] else 0)
  }

  ghost predicate AllSharings(us: seq<Vec>, d: int, ws: seq<Vec>) {
    |us| == |ws| && forall j :: 0 <= j < |us| ==> IsSharing(us[j], d, ws[j])
  }

  lemma {:induction false} PackPartialSharing(k: nat, us: seq<Vec>, n: nat, d: nat, ws: seq<Vec>, m: nat)
    requires 0 < k <= P && |us| == k && Rows(us, n) && Rows(ws, k) && m <= k
    requires AllSharings(us, d, ws)
    ensures IsSharing(PackPartial(k, us, n, m), k - 1 + d, DiagonalUpTo(ws, m))
  {
    var out := DiagonalUpTo(ws, m);
    if m == 0 {
      ZeroSharing(n, k, k - 1 + d);
      assert PackPartial(k, us, n, 0) == Const(0, n);
      assert out == Const(0, k);
    } else {
      var i := m - 1;
      PackPartialSharing(k, us, n, d, ws, i);
      var acc := DiagonalUpTo(ws, i);
      EiSharing(k, i, n);
      var e := seq(n, id requires 0 <= id < n => EiShares(k, id)[i]);
      ProductSharing(e, k - 1, Unit(k, i), us[i], d, ws[i]);
      SumSharing(PackPartial(k, us, n, i), k - 1 + d, acc, VMul(e, us[i]), k - 1 + d, VMul(Unit(k, i), ws[i]));
      assert PackPartial(k, us, n, m) == VAdd(PackPartial(k, us, n, i), VMul(e, us[i]));
      forall j | 0 <= j < k ensures out[j] == VAdd(acc, VMul(Unit(k, i), ws[i]))[j] {
        MulOneZero(ws[i][j]);
        SubZero(acc[j], 0);
        SubZero(ws[i][j], 0);
      }
      assert out == VAdd(acc, VMul(Unit(k, i), ws[i]));
    }
  }

  /** Packing k sharings of degree d gives a sharing of degree d + k - 1 of their diagonal. */
  lemma PackSharing(k: nat, us: seq<Vec>, n: nat, d: nat, ws: seq<Vec>)
    requires 0 < k <= P && |us| == k && Rows(us, n) && Rows(ws, k)
    requires AllSharings(us, d, ws)
    ensures IsSharing(Pack(k, us, n), k - 1 + d, Diagonal(ws))
  {
    PackPartialSharing(k, us, n, d, ws, k);
    assert DiagonalUpTo(ws, k) == Diagonal(ws);
  }

  // ---- Extraction ----

  /** Entry (i, j) of the Vandermonde matrix: i to the power j. */
  function VPow(i: nat, j: nat): Elem {
    if j == 0 then 1 else Mul(VPow(i, j - 1), Mod(i))
  }

  function VandermondeColumn(j: nat, n: nat): (r: Vec)
    ensures |r| == n
  {
    seq(n, i requires 0 <= i < n => VPow(i, j))
  }

  /** One extracted value from what the n dealers sent. */
  function Extract(j: nat, recv: Vec): Elem {
    Dot(VandermondeColumn(j, |recv|), recv, |recv|)
  }

  function LinComb(cs: Vec, rows: seq<Vec>, n: nat, m: nat): (r: Vec)
    requires |cs| == |rows| && Rows(rows, n) && m <= |rows|
    ensures |r| == n
  {
    seq(n, i requires 0 <= i < n => Dot(cs, Column(rows, i), m))
  }

  lemma {:induction false} LinCombSharing(cs: Vec, rows: seq<Vec>, n: nat, d: nat, vs: seq<Vec>, k: nat, m: nat)
    requires |cs| == |rows| && Rows(rows, n) && Rows(vs, k) && m <= |rows|
    requires AllSharings(rows, d, vs)
    ensures IsSharing(LinComb(cs, rows, n, m), d, LinComb(cs, vs, k, m))
  {
    if m == 0 {
      ZeroSharing(n, k, d);
      assert LinComb(cs, rows, n, 0) == Const(0, n);
      assert LinComb(cs, vs, k, 0) == Const(0, k);
    } else {
      var i := m - 1;
      LinCombSharing(cs, rows, n, d, vs, k, i);
      ScaledSharing(cs[i], rows[i], d, vs[i]);
      SumSharing(LinComb(cs, rows, n, i), d, LinComb(cs, vs, k, i), VScale(cs[i], rows[i]), d, VScale(cs[i], vs[i]));
      assert LinComb(cs, rows, n, m) == VAdd(LinComb(cs, rows, n, i), VScale(cs[i], rows[i]));
      assert LinComb(cs, vs, k, m) == VAdd(LinComb(cs, vs, k, i), VScale(cs[i], vs[i]));
    }
  }

  /** Extraction applied by every party to its own column. */
  function ExtractAll(j: nat, rows: seq<Vec>, n: nat): (r: Vec)
    requires Rows(rows, n)
    ensures |r| == n
  {
    seq(n, i requires 0 <= i < n => Extract(j, Column(rows, i)))
  }

  /** The parties extract a sharing of the value extracted from the dealers' secrets. */
  lemma ExtractSharing(j: nat, rows: seq<Vec>, n: nat, d: nat, vs: seq<Vec>, k: nat)
    requires Rows(rows, n) && Rows(vs, k) && AllSharings(rows, d, vs)
    ensures IsSharing(ExtractAll(j, rows, n), d, ExtractAll(j, vs, k))
  {
    var cs := VandermondeColumn(j, |rows|);
    LinCombSharing(cs, rows, n, d, vs, k, |rows|);
    assert ExtractAll(j, rows, n) == LinComb(cs, rows, n, |rows|);
    assert ExtractAll(j, vs, k) == LinComb(cs, vs, k, |rows|);
  }

  lemma {:induction false} DotZero(cs: Vec, xs: Vec, m: nat)
    requires m <= |cs| && m <= |xs| && forall i :: 0 <= i < m ==> xs[i] == 0
    ensures Dot(cs, xs, m) == 0
  {
    if m > 0 {
      DotZero(cs, xs, m - 1);
      MulOneZero(cs[m - 1]);
    }
  }

  // ---- The loops ----

  /** PrecomputeEi. */
  method PrecomputeEi(batchSize: nat, id: nat) returns (r: Vec)
    requires batchSize <= P
    ensures r == EiShares(batchSize, id)
  {
    hide Mod, Mul, Add, Sub, Inv;
    r := [];
    for i := 0 to batchSize
      invariant |r| == i && forall a :: 0 <= a < i ==> r[a] == EiProduct(a, id, batchSize)
    {
      var shr: Elem := 1;
      for j := 0 to batchSize
        invariant shr == EiProduct(i, id, j)
      {
        if j == i { continue; }
        EiDenominator(i, j);
        shr := Mul(shr, Div(Add(Mod(id + 1), Mod(j)), Sub(Mod(j), Mod(i))));
      }
      r := r + [shr];
    }
    assert r == EiShares(batchSize, id);
  }

  /** PrecomputeVandermonde: parties rows, threshold + 1 columns. */
  method PrecomputeVandermonde(parties: nat, threshold: nat) returns (v: seq<Vec>)
    ensures IsVandermonde(v, parties, threshold)
  {
    hide Mod, Mul;
    v := [];
    for i := 0 to parties
      invariant |v| == i && Rows(v, threshold + 1)
      invariant forall a, b :: 0 <= a < i && 0 <= b <= threshold ==> v[a][b] == VPow(a, b)
    {
      var row: Vec := [];
      var entry: Elem := 1;
      for j := 0 to threshold + 1
        invariant |row| == j && entry == VPow(i, j)
        invariant forall b :: 0 <= b < j ==> row[b] == VPow(i, b)
      {
        row := row + [entry];
        entry := Mul(entry, Mod(i));
      }
      v := v + [row];
    }
  }

  /** The matrix PrecomputeVandermonde makes. */
  predicate IsVandermonde(v: seq<Vec>, parties: nat, threshold: nat) {
    && |v| == parties && Rows(v, threshold + 1)
    && forall i, j :: 0 <= i < parties && 0 <= j <= threshold ==> v[i][j] == VPow(i, j)
  }

  /** One extracted value: the inner product with a column of the matrix. */
  method ExtractOne(vandermonde: seq<Vec>, recv: Vec, threshold: nat, r: nat) returns (shr: Elem)
    requires IsVandermonde(vandermonde, |recv|, threshold) && r <= threshold
    ensures shr == Extract(r, recv)
  {
    hide Mul, Add, Mod;
    shr := 0;
    for j := 0 to |recv|
      invariant shr == Dot(VandermondeColumn(r, |recv|), recv, j)
    {
      shr := Add(shr, Mul(vandermonde[j][r], recv[j]));
    }
  }

  /** The threshold + 1 values extracted from one block. */
  method ExtractBlock(vandermonde: seq<Vec>, recv: Vec, threshold: nat) returns (out: Vec)
    requires IsVandermonde(vandermonde, |recv|, threshold)
    ensures out == seq(threshold + 1, r requires 0 <= r < threshold + 1 => Extract(r, recv))
  {
    hide Extract, IsVandermonde;
    out := [];
    for r := 0 to threshold + 1
      invariant |out| == r && forall q :: 0 <= q < r ==> out[q] == Extract(q, recv)
    {
      var shr := ExtractOne(vandermonde, recv, threshold, r);
      out := out + [shr];
    }
  }
}
