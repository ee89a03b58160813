/** Packed Shamir sharings (packed.h): secrets at 0, -1, -2, ... and shares at 1, 2, ..., n. */
module Packed {
  import opened Field
  import opened Poly
  import opened EvPoly
  import opened Wrappers

  type Vec = seq<Elem>

  /** The evaluation point of party i's share. */
  function ShareX(i: int): Elem { Mod(i + 1) }

  /** The evaluation point of slot j. */
  function SlotX(j: int): Elem { Mod(-j) }

  function ShareXs(n: nat): Vec { seq(n, i => ShareX(i)) }

  function SlotXs(k: nat): Vec { seq(k, j => SlotX(j)) }

  // ---- Vector operations, the party-wise view of local computation ----

  function VAdd(s: Vec, t: Vec): (r: Vec)
    requires |s| == |t|
    ensures |r| == |s|
  {
    seq(|s|, i requires 0 <= i < |s| => Add(s[i], t[i]))
  }

  function VSub(s: Vec, t: Vec): (r: Vec)
    requires |s| == |t|
    ensures |r| == |s|
  {
    seq(|s|, i requires 0 <= i < |s| => Sub(s[i], t[i]))
  }

  function VMul(s: Vec, t: Vec): (r: Vec)
    requires |s| == |t|
    ensures |r| == |s|
  {
    seq(|s|, i requires 0 <= i < |s| => Mul(s[i], t[i]))
  }

  function VScale(c: Elem, s: Vec): (r: Vec)
    ensures |r| == |s|
  {
    seq(|s|, i requires 0 <= i < |s| => Mul(c, s[i]))
  }

  function Const(c: Elem, n: nat): (r: Vec)
    ensures |r| == n
  {
    seq(n, i => c)
  }

  // ---- Sharings ----

  ghost predicate OnPoly(s: Vec, f: seq<Elem>) {
    forall i :: 0 <= i < |s| ==> s[i] == Eval(f, ShareX(i))
  }

  ghost predicate Packs(f: seq<Elem>, v: Vec) {
    forall j :: 0 <= j < |v| ==> v[j] == Eval(f, SlotX(j))
  }

  ghost predicate SharesOf(s: Vec, d: int, v: Vec, f: seq<Elem>) {
    |f| <= d + 1 && OnPoly(s, f) && Packs(f, v)
  }

  /** s is a sharing of degree at most d of the vector v. */
  ghost predicate IsSharing(s: Vec, d: int, v: Vec) {
    exists f: seq<Elem> :: SharesOf(s, d, v, f)
  }

  /** Share-wise sums, differences, products and multiples share the slot-wise ones; degrees of
      sums are the larger, degrees of products add up. */
  lemma SumSharing(s: Vec, d: int, v: Vec, t: Vec, e: int, w: Vec)
    requires |s| == |t| && |v| == |w|
    requires IsSharing(s, d, v) && IsSharing(t, e, w)
    ensures IsSharing(VAdd(s, t), if d < e then e else d, VAdd(v, w))
    ensures IsSharing(VSub(s, t), if d < e then e else d, VSub(v, w))
  {
    var m := if d < e then e else d;
    var f: seq<Elem> :| SharesOf(s, d, v, f);
    var g: seq<Elem> :| SharesOf(t, e, w, g);
    forall x: Elem
      ensures Eval(PolyAdd(f, g), x) == Add(Eval(f, x), Eval(g, x))
      ensures Eval(PolySub(f, g), x) == Sub(Eval(f, x), Eval(g, x))
    {
      EvalAdd(f, g, x);
      EvalSub(f, g, x);
    }
    assert SharesOf(VAdd(s, t), m, VAdd(v, w), PolyAdd(f, g));
    assert SharesOf(VSub(s, t), m, VSub(v, w), PolySub(f, g));
  }

  lemma ProductSharing(s: Vec, d: nat, v: Vec, t: Vec, e: nat, w: Vec)
    requires |s| == |t| && |v| == |w|
    requires IsSharing(s, d, v) && IsSharing(t, e, w)
    ensures IsSharing(VMul(s, t), d + e, VMul(v, w))
  {
    var f: seq<Elem> :| SharesOf(s, d, v, f);
    var g: seq<Elem> :| SharesOf(t, e, w, g);
    forall x: Elem ensures Eval(PolyMul(f, g), x) == Mul(Eval(f, x), Eval(g, x)) {
      EvalMul(f, g, x);
    }
    if g == [] {
      EmptyFactor(f, g, s, t, v, w, d + e);
    } else {
      assert SharesOf(VMul(s, t), d + e, VMul(v, w), PolyMul(f, g));
    }
  }

  lemma EmptyFactor(f: seq<Elem>, g: seq<Elem>, s: Vec, t: Vec, v: Vec, w: Vec, d: nat)
    requires g == [] && |s| == |t| && |v| == |w|
    requires OnPoly(s, f) && OnPoly(t, g) && Packs(f, v) && Packs(g, w)
    ensures IsSharing(VMul(s, t), d, VMul(v, w))
  {
    forall a: Elem ensures Mul(a, 0) == 0 { MulOneZero(a); }
    assert SharesOf(VMul(s, t), d, VMul(v, w), []);
  }

  lemma ScaledSharing(c: Elem, s: Vec, d: int, v: Vec)
    requires IsSharing(s, d, v)
    ensures IsSharing(VScale(c, s), d, VScale(c, v))
  {
    var f: seq<Elem> :| SharesOf(s, d, v, f);
    forall x: Elem ensures Eval(Scale(c, f), x) == Mul(c, Eval(f, x)) {
      EvalScale(c, f, x);
    }
    assert SharesOf(VScale(c, s), d, VScale(c, v), Scale(c, f));
  }

  lemma WidenDegree(s: Vec, d: int, v: Vec, e: int)
    requires IsSharing(s, d, v) && d <= e
    ensures IsSharing(s, e, v)
  {
    var f: seq<Elem> :| SharesOf(s, d, v, f);
    assert SharesOf(s, e, v, f);
  }

  lemma ConstSharing(c: Elem, n: nat, k: nat)
    ensures IsSharing(Const(c, n), 0, Const(c, k))
  {
    forall x: Elem ensures Eval([c], x) == c {
      MulOneZero(x);
      SubZero(c, 0);
    }
    assert SharesOf(Const(c, n), 0, Const(c, k), [c]);
  }

  /** The zero vector of shares is a sharing of zeros (of any degree). */
  lemma ZeroSharing(n: nat, k: nat, d: nat)
    ensures IsSharing(Const(0, n), d, Const(0, k))
  {
    ConstSharing(0, n, k);
    WidenDegree(Const(0, n), 0, Const(0, k), d);
  }

  // ---- Reconstruction ----

  lemma ShareXsDistinct(n: nat)
    requires n <= P
    ensures Distinct(ShareXs(n))
  {
    forall i, j | 0 <= i < j < n ensures ShareX(i) != ShareX(j) {
      ModDistinct(i + 1, j + 1);
    }
  }

  /** SecretsFromSharesAndLength: the secrets in slots 0..k-1 of the polynomial through all shares. */
  function Reconstruct(s: Vec, k: nat): (v: Vec)
    requires |s| <= P
    ensures |v| == k
  {
    ShareXsDistinct(|s|);
    seq(k, j requires 0 <= j < k => Lagrange(ShareXs(|s|), s, SlotX(j)))
  }

  /** SecretFromPointAndShares. */
  function ReconstructAt(s: Vec, x: Elem): Elem
    requires |s| <= P
  {
    ShareXsDistinct(|s|);
    Lagrange(ShareXs(|s|), s, x)
  }

  /** Reconstruction returns what was shared whenever the degree is below the number of shares. */
  lemma ReconstructCorrect(s: Vec, d: int, v: Vec)
    requires IsSharing(s, d, v) && d < |s| <= P
    ensures Reconstruct(s, |v|) == v
    ensures forall j :: 0 <= j < |v| ==> ReconstructAt(s, SlotX(j)) == v[j]
  {
    ShareXsDistinct(|s|);
    var f: seq<Elem> :| SharesOf(s, d, v, f);
    forall j | 0 <= j < |v| ensures Lagrange(ShareXs(|s|), s, SlotX(j)) == v[j] {
      InterpolationExact(ShareXs(|s|), s, f, SlotX(j));
    }
  }

  /** Every vector of n shares is a sharing of degree n - 1, of exactly what it reconstructs to. */
  lemma FullDegreeSharing(s: Vec, v: Vec)
    requires 0 < |s| <= P
    ensures IsSharing(s, |s| - 1, v) <==> v == Reconstruct(s, |v|)
  {
    ShareXsDistinct(|s|);
    if v == Reconstruct(s, |v|) {
      var f := LagrangeIsPolynomial(ShareXs(|s|), s);
      assert SharesOf(s, |s| - 1, v, f);
    }
    if IsSharing(s, |s| - 1, v) {
      ReconstructCorrect(s, |s| - 1, v);
    }
  }

  // ---- Dealing ----

  /** The points of a dealt polynomial: m slots, then as many share points as the degree needs. */
  function DealXs(m: nat, degree: nat): Vec
    requires m <= degree + 1
  {
    SlotXs(m) + ShareXs(degree + 1 - m)
  }

  lemma DealXsDistinct(m: nat, degree: nat)
    requires m <= degree + 1 <= P
    ensures Distinct(DealXs(m, degree))
  {
    forall i, j | 0 <= i < j < degree + 1 ensures DealXs(m, degree)[i] != DealXs(m, degree)[j] {
      if j < m {
        ModDistinct(-j, -i);
      } else if i < m {
        ModDistinct(-i, j - m + 1);
      } else {
        ModDistinct(i - m + 1, j - m + 1);
      }
    }
  }

  /** The points of a polynomial dealt with a single secret at slot `slot`. */
  function DealAtXs(slot: nat, degree: nat): Vec {
    [SlotX(slot)] + ShareXs(degree)
  }

  lemma DealAtXsDistinct(slot: nat, degree: nat)
    requires slot + degree < P
    ensures Distinct(DealAtXs(slot, degree))
  {
    var xs := DealAtXs(slot, degree);
    forall i, j | 0 <= i < j < |xs| ensures xs[i] != xs[j] {
      if i == 0 {
        var m: int := slot;
        ModDistinct(-m, j);
      } else {
        ModDistinct(i, j);
      }
    }
  }

  /** The shares of the polynomial through (xs, ys). */
  function SharesThrough(xs: Vec, ys: Vec, n: nat): (s: Vec)
    requires Distinct(xs) && |xs| == |ys|
    ensures |s| == n
  {
    seq(n, i => Lagrange(xs, ys, ShareX(i)))
  }

  /** Shares of a vector of secrets with the given randomness (EvPolyFromSecretsAndDegree, then
      SharesFromEvPoly). */
  function Deal(secrets: Vec, degree: nat, rnd: Vec, n: nat): (s: Vec)
    requires |secrets| + |rnd| == degree + 1 <= P
    ensures |s| == n
  {
    DealXsDistinct(|secrets|, degree);
    SharesThrough(DealXs(|secrets|, degree), secrets + rnd, n)
  }

  /** Shares with one secret at one slot (EvPolyFromSecretAndPointAndDegree). */
  function DealAt(secret: Elem, slot: nat, degree: nat, rnd: Vec, n: nat): (s: Vec)
    requires |rnd| == degree && slot + degree < P
    ensures |s| == n
  {
    DealAtXsDistinct(slot, degree);
    SharesThrough(DealAtXs(slot, degree), [secret] + rnd, n)
  }

  /** Dealing covers exactly the sharings: s is a degree-d sharing of the secrets if and only if
      some randomness deals it. */
  lemma DealExact(secrets: Vec, degree: nat, s: Vec)
    requires |secrets| <= degree + 1 <= P
    ensures IsSharing(s, degree, secrets) <==>
            exists rnd: Vec :: |rnd| == degree + 1 - |secrets| && s == Deal(secrets, degree, rnd, |s|)
  {
    if IsSharing(s, degree, secrets) {
      var rnd := RandomnessOf(secrets, degree, s);
    }
    if exists rnd: Vec :: |rnd| == degree + 1 - |secrets| && s == Deal(secrets, degree, rnd, |s|) {
      var rnd: Vec :| |rnd| == degree + 1 - |secrets| && s == Deal(secrets, degree, rnd, |s|);
      DealIsSharing(secrets, degree, rnd, |s|);
    }
  }

  lemma RandomnessOf(secrets: Vec, degree: nat, s: Vec) returns (rnd: Vec)
    requires |secrets| <= degree + 1 <= P && IsSharing(s, degree, secrets)
    ensures |rnd| == degree + 1 - |secrets| && s == Deal(secrets, degree, rnd, |s|)
  {
    var f: seq<Elem> :| SharesOf(s, degree, secrets, f);
    var m := |secrets|;
    var xs := DealXs(m, degree);
    DealXsDistinct(m, degree);
    rnd := seq(degree + 1 - m, i => Eval(f, ShareX(i)));
    var ys := secrets + rnd;
    forall i | 0 <= i < |s| ensures s[i] == Lagrange(xs, ys, ShareX(i)) {
      InterpolationExact(xs, ys, f, ShareX(i));
    }
  }

  lemma DealIsSharing(secrets: Vec, degree: nat, rnd: Vec, n: nat)
    requires |secrets| + |rnd| == degree + 1 <= P
    ensures IsSharing(Deal(secrets, degree, rnd, n), degree, secrets)
  {
    var m := |secrets|;
    var xs := DealXs(m, degree);
    DealXsDistinct(m, degree);
    var f := LagrangeIsPolynomial(xs, secrets + rnd);
    forall j | 0 <= j < m ensures secrets[j] == Eval(f, SlotX(j)) {
      assert xs[j] == SlotX(j);
    }
    assert SharesOf(Deal(secrets, degree, rnd, n), degree, secrets, f);
  }

  /** A polynomial dealt at one slot shares some vector with the secret in that slot. */
  lemma DealAtIsSharing(secret: Elem, slot: nat, degree: nat, rnd: Vec, n: nat, k: nat) returns (v: Vec)
    requires |rnd| == degree && slot + degree < P && slot < k
    ensures |v| == k && v[slot] == secret
    ensures IsSharing(DealAt(secret, slot, degree, rnd, n), degree, v)
  {
    var xs := DealAtXs(slot, degree);
    DealAtXsDistinct(slot, degree);
    var f := LagrangeIsPolynomial(xs, [secret] + rnd);
    assert xs[0] == SlotX(slot);
    v := seq(k, j => Eval(f, SlotX(j)));
    assert SharesOf(DealAt(secret, slot, degree, rnd, n), degree, v, f);
  }

  // ---- The functions of packed.h ----

  /** EvPolyFromSecretsAndPoints: the randomness fills the points after the secrets. */
  method EvPolyFromSecretsAndPoints(secrets: Vec, xPoints: Vec, rnd: Vec) returns (r: Option<EvPolynomial>)
    requires |secrets| <= |xPoints| ==> |rnd| == |xPoints| - |secrets|
    ensures r.Some? <==> |secrets| <= |xPoints| && xPoints != []
    ensures r.Some? ==> r.value == EvPolynomial(xPoints, secrets + rnd)
  {
    if |secrets| > |xPoints| { return None; }
    var nSecrets := |secrets|;
    var yPoints := seq(|xPoints|, i requires 0 <= i < |xPoints| => if i >= nSecrets then rnd[i - nSecrets] else 0);
    for i := 0 to nSecrets
      invariant |yPoints| == |xPoints|
      invariant forall m :: 0 <= m < i ==> yPoints[m] == secrets[m]
      invariant forall m :: nSecrets <= m < |xPoints| ==> yPoints[m] == rnd[m - nSecrets]
    {
      yPoints := yPoints[i := secrets[i]];
    }
    assert yPoints == secrets + rnd;
    r := FromPoints(xPoints, yPoints);
  }

  /** EvPolyFromSecretsAndDegree. */
  method EvPolyFromSecretsAndDegree(secrets: Vec, degree: nat, rnd: Vec) returns (p: EvPolynomial)
    requires |secrets| + |rnd| == degree + 1
    ensures p == EvPolynomial(DealXs(|secrets|, degree), secrets + rnd)
  {
    var xPoints: Vec := [];
    for i := 0 to |secrets|
      invariant |xPoints| == i && forall m :: 0 <= m < i ==> xPoints[m] == SlotX(m)
    {
      xPoints := xPoints + [SlotX(i)];
    }
    for i := 0 to degree + 1 - |secrets|
      invariant |xPoints| == |secrets| + i
      invariant forall m :: 0 <= m < |secrets| + i ==> xPoints[m] == DealXs(|secrets|, degree)[m]
    {
      xPoints := xPoints + [ShareX(i)];
    }
    assert xPoints == DealXs(|secrets|, degree);
    var r := EvPolyFromSecretsAndPoints(secrets, xPoints, rnd);
    p := r.value;
  }

  /** EvPolyFromSecretAndPointAndDegree. */
  method EvPolyFromSecretAndPoint(secret: Elem, x: Elem, degree: nat, rnd: Vec) returns (p: EvPolynomial)
    requires |rnd| == degree
    ensures p == EvPolynomial([x] + ShareXs(degree), [secret] + rnd)
  {
    var xPoints: Vec := [x];
    for i := 0 to degree
      invariant xPoints == [x] + ShareXs(i)
    {
      xPoints := xPoints + [ShareX(i)];
    }
    var r := EvPolyFromSecretsAndPoints([secret], xPoints, rnd);
    p := r.value;
  }

  /** SharesFromEvPoly. */
  method SharesFromEvPoly(p: EvPolynomial, nShares: nat) returns (s: Vec)
    requires p.Valid() && Distinct(p.xs)
    ensures s == SharesThrough(p.xs, p.ys, nShares)
  {
    var xs: Vec := [];
    for i := 0 to nShares
      invariant xs == ShareXs(i)
    {
      xs := xs + [ShareX(i)];
    }
    var r := EvaluateAll(p, xs);
    s := r.value;
  }

  method EvPolyFromShares(shares: Vec) returns (r: Option<EvPolynomial>)
    ensures r.Some? <==> shares != []
    ensures r.Some? ==> r.value == EvPolynomial(ShareXs(|shares|), shares)
  {
    var xPoints: Vec := [];
    for i := 0 to |shares|
      invariant xPoints == ShareXs(i)
    {
      xPoints := xPoints + [ShareX(i)];
    }
    r := FromPoints(xPoints, shares);
  }

  /** SecretsFromSharesAndLength. */
  method SecretsFromSharesAndLength(shares: Vec, length: nat) returns (v: Vec)
    requires 0 < |shares| <= P
    ensures v == Reconstruct(shares, length)
  {
    var xSecrets: Vec := [];
    for i := 0 to length
      invariant xSecrets == SlotXs(i)
    {
      xSecrets := xSecrets + [SlotX(i)];
    }
    var p := EvPolyFromShares(shares);
    ShareXsDistinct(|shares|);
    var r := EvaluateAll(p.value, xSecrets);
    v := r.value;
  }

  /** SecretFromPointAndShares. */
  method SecretFromPointAndShares(xSecret: Elem, shares: Vec) returns (v: Elem)
    requires 0 < |shares| <= P
    ensures v == ReconstructAt(shares, xSecret)
  {
    var p := EvPolyFromShares(shares);
    ShareXsDistinct(|shares|);
    var r := Evaluate(p.value, xSecret);
    v := r.value;
  }
}
