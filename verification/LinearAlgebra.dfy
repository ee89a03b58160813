/** Gauss-Jordan elimination and linear systems over the field (la.h). Matrices are arrays updated
    in place; the specification works on their rows. */
module LinearAlgebra {
  import opened Field
  import opened Poly
  import opened Packed
  import opened Combine
  import opened Wrappers

  type Matrix = seq<Vec>

  /** The contents of a matrix, row by row. */
  ghost function RowsOf(a: array2<Elem>): (s: Matrix)
    reads a
    ensures |s| == a.Length0 && Rows(s, a.Length1)
    ensures forall i, j :: 0 <= i < a.Length0 && 0 <= j < a.Length1 ==> s[i][j] == a[i, j]
  {
    seq(a.Length0, i requires 0 <= i < a.Length0 reads a =>
      seq(a.Length1, j requires 0 <= j < a.Length1 reads a => a[i, j]))
  }

  // ---- Row operations ----

  function ScaleRow(v: Vec, c: Elem): (r: Vec)
    ensures |r| == |v|
  {
    seq(|v|, j requires 0 <= j < |v| => Mul(v[j], c))
  }

  function AddScaled(v: Vec, w: Vec, c: Elem): (r: Vec)
    requires |v| == |w|
    ensures |r| == |v|
  {
    seq(|v|, j requires 0 <= j < |v| => Add(v[j], Mul(w[j], c)))
  }

  method SwapRows(a: array2<Elem>, k: nat, h: nat)
    requires k < a.Length0 && h < a.Length0
    modifies a
    ensures RowsOf(a) == old(RowsOf(a))[k := old(RowsOf(a))[h]][h := old(RowsOf(a))[k]]
  {
    ghost var s := RowsOf(a);
    if k != h {
      for i := 0 to a.Length1
        invariant forall j :: 0 <= j < i ==> a[k, j] == s[h][j] && a[h, j] == s[k][j]
        invariant forall p, j :: 0 <= p < a.Length0 && 0 <= j < a.Length1 && (j >= i || (p != k && p != h)) ==> a[p, j] == s[p][j]
      {
        var temp := a[h, i];
        a[h, i] := a[k, i];
        a[k, i] := temp;
      }
    }
    RowsEqual(RowsOf(a), s[k := s[h]][h := s[k]], a.Length1);
  }

  lemma RowsEqual(s: Matrix, t: Matrix, m: nat)
    requires |s| == |t| && Rows(s, m) && Rows(t, m)
    requires forall i, j :: 0 <= i < |s| && 0 <= j < m ==> s[i][j] == t[i][j]
    ensures s == t
  {
    forall i | 0 <= i < |s| ensures s[i] == t[i] { }
  }

  method MultiplyRow(a: array2<Elem>, row: nat, m: Elem)
    requires row < a.Length0
    modifies a
    ensures RowsOf(a) == old(RowsOf(a))[row := ScaleRow(old(RowsOf(a))[row], m)]
  {
    hide Mul;
    ghost var s := RowsOf(a);
    for j := 0 to a.Length1
      invariant forall q :: 0 <= q < j ==> a[row, q] == Mul(s[row][q], m)
      invariant forall p, q :: 0 <= p < a.Length0 && 0 <= q < a.Length1 && (q >= j || p != row) ==> a[p, q] == s[p][q]
    {
      a[row, j] := Mul(a[row, j], m);
    }
    RowsEqual(RowsOf(a), s[row := ScaleRow(s[row], m)], a.Length1);
  }

  method AddRows(a: array2<Elem>, dst: nat, op: nat, m: Elem)
    requires dst < a.Length0 && op < a.Length0
    modifies a
    ensures RowsOf(a) == old(RowsOf(a))[dst := AddScaled(old(RowsOf(a))[dst], old(RowsOf(a))[op], m)]
  {
    hide Mul, Add;
    ghost var s := RowsOf(a);
    for j := 0 to a.Length1
      invariant forall q :: 0 <= q < j ==> a[dst, q] == Add(s[dst][q], Mul(s[op][q], m))
      invariant forall p, q :: 0 <= p < a.Length0 && 0 <= q < a.Length1 && (q >= j || p != dst) ==> a[p, q] == s[p][q]
    {
      a[dst, j] := Add(a[dst, j], Mul(a[op, j], m));
    }
    RowsEqual(RowsOf(a), s[dst := AddScaled(s[dst], s[op], m)], a.Length1);
  }

  // ---- Solutions of the homogeneous system ----

  /** v is orthogonal to every row. */
  ghost predicate Kills(s: Matrix, v: Vec) {
    Rows(s, |v|) && forall i :: 0 <= i < |s| ==> Dot(s[i], v, |v|) == 0
  }

  ghost predicate SameKernel(s: Matrix, t: Matrix, m: nat) {
    forall v: Vec :: |v| == m ==> (Kills(s, v) <==> Kills(t, v))
  }

  lemma {:induction false} DotScale(a: Vec, c: Elem, v: Vec, m: nat)
    requires m <= |a| && m <= |v|
    ensures Dot(ScaleRow(a, c), v, m) == Mul(Dot(a, v, m), c)
  {
    hide Mul, Mod, Add;
    if m == 0 {
      MulOneZero(c);
    } else {
      DotScale(a, c, v, m - 1);
      Distributes(c, Dot(a, v, m - 1), Mul(a[m - 1], v[m - 1]));
      ScaledTerm(a[m - 1], c, v[m - 1]);
    }
  }

  lemma ScaledTerm(a: Elem, c: Elem, v: Elem)
    ensures Mul(Mul(a, c), v) == Mul(Mul(a, v), c)
  {
    hide *;
    MulAssociates(a, c, v);
    MulAssociates(a, v, c);
    MulCommutes(c, v);
  }

  lemma {:induction false} DotAddScaled(a: Vec, b: Vec, c: Elem, v: Vec, m: nat)
    requires |a| == |b| && m <= |a| && m <= |v|
    ensures Dot(AddScaled(a, b, c), v, m) == Add(Dot(a, v, m), Mul(Dot(b, v, m), c))
  {
    hide Mul, Mod, Add;
    if m == 0 {
      MulOneZero(c);
      SubZero(0, 0);
    } else {
      DotAddScaled(a, b, c, v, m - 1);
      var x, y, z := a[m - 1], b[m - 1], v[m - 1];
      Distributes(z, x, Mul(y, c));
      ScaledTerm(y, c, z);
      Distributes(c, Dot(b, v, m - 1), Mul(y, z));
      Regrouped(Dot(a, v, m - 1), Mul(Dot(b, v, m - 1), c), Mul(x, z), Mul(Mul(y, z), c));
    }
  }

  lemma Regrouped(a: Elem, b: Elem, x: Elem, y: Elem)
    ensures Add(Add(a, b), Add(x, y)) == Add(Add(a, x), Add(b, y))
  {
  }

  lemma SwapKeepsKernel(s: Matrix, k: nat, h: nat, v: Vec)
    requires k < |s| && h < |s|
    ensures Kills(s[k := s[h]][h := s[k]], v) <==> Kills(s, v)
  {
    hide Dot;
    var t := s[k := s[h]][h := s[k]];
    assert t[k := t[h]][h := t[k]] == s;
    assert forall i :: 0 <= i < |s| ==> t[i] == if i == h then s[k] else if i == k then s[h] else s[i];
    assert forall i :: 0 <= i < |s| ==> s[i] == if i == h then t[k] else if i == k then t[h] else t[i];
  }

  lemma ScaleKeepsKernel(s: Matrix, row: nat, c: Elem, v: Vec)
    requires row < |s| && c != 0
    ensures Kills(s[row := ScaleRow(s[row], c)], v) <==> Kills(s, v)
  {
    hide Dot, Mul, Mod, ScaleRow;
    var t := s[row := ScaleRow(s[row], c)];
    if |s[row]| == |v| {
      DotScale(s[row], c, v, |v|);
      NoZeroDivisors(Dot(s[row], v, |v|), c);
      assert forall i :: 0 <= i < |s| && i != row ==> t[i] == s[i];
      assert t[row] == ScaleRow(s[row], c);
    } else {
      assert |t[row]| == |s[row]|;
    }
  }

  lemma AddKeepsKernel(s: Matrix, dst: nat, op: nat, c: Elem, v: Vec)
    requires dst < |s| && op < |s| && dst != op && |s[dst]| == |s[op]|
    ensures Kills(s[dst := AddScaled(s[dst], s[op], c)], v) <==> Kills(s, v)
  {
    hide Dot, Mul, Mod, AddScaled;
    var t := s[dst := AddScaled(s[dst], s[op], c)];
    if |s[dst]| == |v| {
      DotAddScaled(s[dst], s[op], c, v, |v|);
      MulOneZero(c);
      SubZero(Dot(s[dst], v, |v|), 0);
      assert forall i :: 0 <= i < |s| && i != dst ==> t[i] == s[i];
      assert t[dst] == AddScaled(s[dst], s[op], c) && t[op] == s[op];
    } else {
      assert |t[dst]| == |s[dst]|;
    }
  }

  // ---- Reduced row echelon form ----

  /** The first |piv| rows have their leading 1 in the columns piv, which increase and contain no
      other nonzero entry; the remaining rows are zero in the first c columns. */
  ghost predicate EchelonUpTo(s: Matrix, m: nat, piv: seq<nat>, c: nat) {
    && Rows(s, m) && c <= m && |piv| <= |s|
    && (forall i :: 0 <= i < |piv| ==> piv[i] < c)
    && (forall i, j :: 0 <= i < j < |piv| ==> piv[i] < piv[j])
    && (forall i :: 0 <= i < |piv| ==> s[i][piv[i]] == 1)
    && (forall i, k :: 0 <= i < |piv| && 0 <= k < |s| && k != i ==> s[k][piv[i]] == 0)
    && (forall i, j :: 0 <= i < |piv| && 0 <= j < piv[i] ==> s[i][j] == 0)
    && (forall i, j :: |piv| <= i < |s| && 0 <= j < c ==> s[i][j] == 0)
  }

  ghost predicate ReducedEchelon(s: Matrix, m: nat) {
    exists piv: seq<nat> :: EchelonUpTo(s, m, piv, m)
  }

  lemma EchelonSwap(s: Matrix, m: nat, piv: seq<nat>, c: nat, k: nat, h: nat)
    requires EchelonUpTo(s, m, piv, c) && |piv| <= k < |s| && |piv| <= h < |s|
    ensures EchelonUpTo(s[k := s[h]][h := s[k]], m, piv, c)
  {
  }

  lemma EchelonScale(s: Matrix, m: nat, piv: seq<nat>, c: nat, row: nat, x: Elem)
    requires EchelonUpTo(s, m, piv, c) && |piv| <= row < |s|
    ensures EchelonUpTo(s[row := ScaleRow(s[row], x)], m, piv, c)
  {
    hide Mul, Mod;
    MulOneZero(x);
  }

  /** Adding a multiple of row |piv|, which is zero in the first c columns, changes nothing there. */
  lemma EchelonAdd(s: Matrix, m: nat, piv: seq<nat>, c: nat, dst: nat, x: Elem)
    requires EchelonUpTo(s, m, piv, c) && |piv| < |s| && dst < |s| && dst != |piv|
    ensures EchelonUpTo(s[dst := AddScaled(s[dst], s[|piv|], x)], m, piv, c)
  {
    hide Mul, Mod, Add, EchelonUpTo;
    var r := |piv|;
    EchelonZeroRow(s, m, piv, c);
    var t := s[dst := AddScaled(s[dst], s[r], x)];
    forall j | 0 <= j < c ensures t[dst][j] == s[dst][j] {
      UntouchedEntry(s[dst][j], x);
    }
    EchelonDependsOnPrefix(s, t, m, piv, c);
  }

  lemma EchelonZeroRow(s: Matrix, m: nat, piv: seq<nat>, c: nat)
    requires EchelonUpTo(s, m, piv, c) && |piv| < |s|
    ensures Rows(s, m) && c <= m && forall j :: 0 <= j < c ==> s[|piv|][j] == 0
  {
  }

  lemma EchelonDependsOnPrefix(s: Matrix, t: Matrix, m: nat, piv: seq<nat>, c: nat)
    requires EchelonUpTo(s, m, piv, c) && |s| == |t| && Rows(t, m)
    requires forall i, j :: 0 <= i < |s| && 0 <= j < c ==> t[i][j] == s[i][j]
    ensures EchelonUpTo(t, m, piv, c)
  {
  }

  lemma EchelonExtend(s: Matrix, m: nat, piv: seq<nat>, c: nat)
    requires EchelonUpTo(s, m, piv, c) && c < m && |piv| < |s|
    requires s[|piv|][c] == 1 && forall k :: 0 <= k < |s| && k != |piv| ==> s[k][c] == 0
    ensures EchelonUpTo(s, m, piv + [c], c + 1)
  {
  }

  lemma ClearedEntry(x: Elem)
    ensures Add(x, Mul(1, Neg(x))) == 0
  {
    hide Mod, Mul;
    MulOneZero(Neg(x));
  }

  lemma UntouchedEntry(x: Elem, c: Elem)
    ensures Add(x, Mul(0, c)) == x
  {
    hide Mod, Mul;
    MulOneZero(c);
  }

  lemma KernelSteps(s: Matrix, t: Matrix, u: Matrix, m: nat)
    requires SameKernel(s, t, m) && SameKernel(t, u, m)
    ensures SameKernel(s, u, m)
  {
    hide Kills;
  }

  /** Bring the pivot row up to row r and scale its leading entry to 1. */
  method BringUpPivot(a: array2<Elem>, ghost piv: seq<nat>, pivot: nat, r: nat, c: nat)
    requires c < a.Length1 && r == |piv| <= pivot < a.Length0 && a[pivot, c] != 0
    requires EchelonUpTo(RowsOf(a), a.Length1, piv, c)
    modifies a
    ensures EchelonUpTo(RowsOf(a), a.Length1, piv, c) && a[r, c] == 1
    ensures SameKernel(RowsOf(a), old(RowsOf(a)), a.Length1)
  {
    hide Mul, Mod, Kills, EchelonUpTo, Inv;
    ghost var s0 := RowsOf(a);
    SwapRows(a, pivot, r);
    ghost var s1 := RowsOf(a);
    EchelonSwap(s0, a.Length1, piv, c, pivot, r);
    assert s1[r][c] == s0[pivot][c];
    var pv := Inv(a[r, c]);
    MultiplyRow(a, r, pv);
    EchelonScale(s1, a.Length1, piv, c, r, pv);
    assert RowsOf(a)[r][c] == Mul(s1[r][c], pv);
    NonzeroInverse(s1[r][c]);
    forall v: Vec | |v| == a.Length1 ensures Kills(RowsOf(a), v) <==> Kills(s0, v) {
      SwapKeepsKernel(s0, pivot, r, v);
      ScaleKeepsKernel(s1, r, pv, v);
    }
  }

  lemma NonzeroInverse(x: Elem)
    requires x != 0
    ensures Inv(x) != 0 && Mul(x, Inv(x)) == 1
  {
    hide Mod, Mul;
    MulOneZero(x);
  }

  /** Subtract multiples of row r from all others so that column c is zero there. */
  method ClearColumn(a: array2<Elem>, ghost piv: seq<nat>, r: nat, c: nat)
    requires c < a.Length1 && r == |piv| < a.Length0 && a[r, c] == 1
    requires EchelonUpTo(RowsOf(a), a.Length1, piv, c)
    modifies a
    ensures EchelonUpTo(RowsOf(a), a.Length1, piv + [c], c + 1)
    ensures SameKernel(RowsOf(a), old(RowsOf(a)), a.Length1)
  {
    hide Mul, Mod, Add, Neg, Kills, EchelonUpTo;
    ghost var s0 := RowsOf(a);
    for k := 0 to a.Length0
      invariant EchelonUpTo(RowsOf(a), a.Length1, piv, c) && a[r, c] == 1
      invariant forall p :: 0 <= p < k && p != r ==> a[p, c] == 0
      invariant SameKernel(RowsOf(a), s0, a.Length1)
    {
      if k == r { continue; }
      var t := a[k, c];
      if t != 0 {
        ghost var s := RowsOf(a);
        AddRows(a, k, r, Neg(t));
        EchelonAdd(s, a.Length1, piv, c, k, Neg(t));
        ClearedEntry(t);
        assert RowsOf(a)[k][c] == Add(s[k][c], Mul(s[r][c], Neg(t)));
        assert forall p :: 0 <= p < a.Length0 && p != k ==> RowsOf(a)[p] == s[p];
        assert forall p :: 0 <= p < a.Length0 && p != k ==> a[p, c] == RowsOf(a)[p][c] == s[p][c];
        forall v: Vec | |v| == a.Length1 ensures Kills(RowsOf(a), v) <==> Kills(s, v) {
          AddKeepsKernel(s, k, r, Neg(t), v);
        }
        KernelSteps(RowsOf(a), s, s0, a.Length1);
      }
    }
    EchelonExtend(RowsOf(a), a.Length1, piv, c);
  }

  /** RowReduceInPlace: the result is in reduced row echelon form and has the same solutions. */
  method RowReduceInPlace(a: array2<Elem>)
    modifies a
    ensures ReducedEchelon(RowsOf(a), a.Length1)
    ensures SameKernel(RowsOf(a), old(RowsOf(a)), a.Length1)
  {
    hide Kills, EchelonUpTo;
    var n, m := a.Length0, a.Length1;
    ghost var s0 := RowsOf(a);
    var r, c := 0, 0;
    ghost var piv: seq<nat> := [];
    EchelonStart(s0, m);
    while r < n && c < m
      invariant 0 <= r <= n && 0 <= c <= m && |piv| == r
      invariant EchelonUpTo(RowsOf(a), m, piv, c)
      invariant SameKernel(RowsOf(a), s0, m)
      decreases m - c
    {
      var pivot := r;
      while pivot < n && a[pivot, c] == 0
        invariant r <= pivot <= n
        invariant forall p :: r <= p < pivot ==> a[p, c] == 0
      {
        pivot := pivot + 1;
      }
      if pivot == n {
        EchelonSkip(RowsOf(a), m, piv, c);
        c := c + 1;
      } else {
        ghost var s := RowsOf(a);
        BringUpPivot(a, piv, pivot, r, c);
        KernelSteps(RowsOf(a), s, s0, m);
        s := RowsOf(a);
        ClearColumn(a, piv, r, c);
        KernelSteps(RowsOf(a), s, s0, m);
        piv := piv + [c];
        r := r + 1;
        c := c + 1;
      }
    }
    EchelonDone(RowsOf(a), m, piv, c);
  }

  lemma EchelonStart(s: Matrix, m: nat)
    requires Rows(s, m)
    ensures EchelonUpTo(s, m, [], 0)
  {
  }

  lemma EchelonSkip(s: Matrix, m: nat, piv: seq<nat>, c: nat)
    requires EchelonUpTo(s, m, piv, c) && c < m && forall p :: |piv| <= p < |s| ==> s[p][c] == 0
    ensures EchelonUpTo(s, m, piv, c + 1)
  {
  }

  lemma EchelonDone(s: Matrix, m: nat, piv: seq<nat>, c: nat)
    requires EchelonUpTo(s, m, piv, c) && (c == m || |piv| == |s|)
    ensures ReducedEchelon(s, m)
  {
    assert EchelonUpTo(s, m, piv, m);
  }

  // ---- Solutions ----

  /** The row is zero in all but the last column. */
  predicate LeftZero(row: Vec)
    requires |row| > 0
  {
    forall j :: 0 <= j < |row| - 1 ==> row[j] == 0
  }

  /** HasSolution on an augmented matrix. */
  method HasSolution(a: array2<Elem>, uniqueOnly: bool) returns (r: bool)
    requires a.Length1 > 0
    ensures uniqueOnly ==> (r <==> forall i :: 0 <= i < a.Length0 ==> !LeftZero(RowsOf(a)[i]))
    ensures !uniqueOnly ==>
              (r <==> forall i :: 0 <= i < a.Length0 ==> LeftZero(RowsOf(a)[i]) ==> a[i, a.Length1 - 1] == 0)
  {
    var n, m := a.Length0, a.Length1;
    for i := 0 to n
      invariant uniqueOnly ==> forall p :: 0 <= p < i ==> !LeftZero(RowsOf(a)[p])
      invariant !uniqueOnly ==> forall p :: 0 <= p < i ==> LeftZero(RowsOf(a)[p]) ==> a[p, m - 1] == 0
    {
      var allZero := true;
      for j := 0 to m - 1
        invariant allZero <==> forall q :: 0 <= q < j ==> a[i, q] == 0
      {
        allZero := allZero && a[i, j] == 0;
      }
      assert allZero <==> LeftZero(RowsOf(a)[i]);
      if uniqueOnly {
        if allZero { return false; }
      } else {
        if allZero && a[i, m - 1] != 0 { return false; }
      }
    }
    return true;
  }

  lemma {:induction false} DotSingle(a: Vec, b: Vec, m: nat, p: nat)
    requires m <= |a| && m <= |b| && p < |a| && p < |b|
    requires forall j :: 0 <= j < m && j != p ==> a[j] == 0 || b[j] == 0
    ensures Dot(a, b, m) == if p < m then Mul(a[p], b[p]) else 0
  {
    hide Mul, Mod;
    if m > 0 {
      DotSingle(a, b, m - 1, p);
      MulOneZero(a[m - 1]);
      MulOneZero(b[m - 1]);
    }
  }

  lemma {:induction false} DotPair(a: Vec, b: Vec, m: nat, p: nat, q: nat)
    requires m <= |a| && m <= |b| && p < |a| && p < |b| && q < |a| && q < |b| && p != q
    requires forall j :: 0 <= j < m && j != p && j != q ==> a[j] == 0 || b[j] == 0
    ensures Dot(a, b, m) == Add(if p < m then Mul(a[p], b[p]) else 0, if q < m then Mul(a[q], b[q]) else 0)
  {
    hide Mul, Mod;
    if m == 0 {
      SubZero(0, 0);
    } else {
      DotPair(a, b, m - 1, p, q);
      MulOneZero(a[m - 1]);
      MulOneZero(b[m - 1]);
    }
  }

  /** A x = b, for the rows of the augmented matrix [A | b]. */
  ghost predicate SolvesAugmented(s: Matrix, x: Vec) {
    Rows(s, |x| + 1) && forall i :: 0 <= i < |s| ==> Dot(s[i], x, |x|) == s[i][|x|]
  }

  lemma {:induction false} DotPrefix(a: Vec, b: Vec, c: Vec, m: nat)
    requires m <= |a| && m <= |b| && m <= |c| && b[..m] == c[..m]
    ensures Dot(a, b, m) == Dot(a, c, m)
  {
    if m > 0 {
      assert b[m - 1] == b[..m][m - 1] == c[..m][m - 1] == c[m - 1];
      assert b[..m - 1] == b[..m][..m - 1] && c[..m - 1] == c[..m][..m - 1];
      DotPrefix(a, b, c, m - 1);
    }
  }

  /** x solves the augmented system exactly when [x; -1] is orthogonal to its rows. */
  lemma SolutionAsKernel(s: Matrix, x: Vec)
    ensures SolvesAugmented(s, x) <==> Kills(s, x + [Neg(1)])
  {
    hide Mul, Mod, Add, Sub, Neg;
    var v := x + [Neg(1)];
    if Rows(s, |x| + 1) {
      forall i | 0 <= i < |s|
        ensures Dot(s[i], v, |v|) == Sub(Dot(s[i], x, |x|), s[i][|x|])
        ensures Dot(s[i], v, |v|) == 0 <==> Dot(s[i], x, |x|) == s[i][|x|]
      {
        assert v[..|x|] == x == x[..|x|];
        DotPrefix(s[i], v, x, |x|);
        MulCommutes(s[i][|x|], Neg(1));
        MinusOne(Dot(s[i], x, |x|), s[i][|x|]);
        SubZero(Dot(s[i], x, |x|), s[i][|x|]);
      }
    }
  }

  /** Same kernel, same solutions. */
  lemma SameSolutions(s: Matrix, t: Matrix, x: Vec)
    requires SameKernel(s, t, |x| + 1)
    ensures SolvesAugmented(s, x) <==> SolvesAugmented(t, x)
  {
    hide Kills, SolvesAugmented;
    SolutionAsKernel(s, x);
    SolutionAsKernel(t, x);
  }

  /** In echelon form, consistency is what HasSolution tests: no row is zero on the left only. */
  lemma ConsistentExactly(s: Matrix, m: nat)
    requires m > 0 && ReducedEchelon(s, m)
    ensures Rows(s, m)
    ensures (exists x: Vec :: |x| == m - 1 && SolvesAugmented(s, x)) <==>
            (forall i :: 0 <= i < |s| ==> LeftZero(s[i]) ==> s[i][m - 1] == 0)
  {
    var piv: seq<nat> :| EchelonUpTo(s, m, piv, m);
    if exists x: Vec :: |x| == m - 1 && SolvesAugmented(s, x) {
      var x: Vec :| |x| == m - 1 && SolvesAugmented(s, x);
      forall i | 0 <= i < |s| && LeftZero(s[i]) ensures s[i][m - 1] == 0 {
        ZeroDot(s[i], x, m - 1);
      }
    }
    if forall i :: 0 <= i < |s| ==> LeftZero(s[i]) ==> s[i][m - 1] == 0 {
      var x := PivotSolution(s, m, piv);
      assert |x| == m - 1 && SolvesAugmented(s, x);
    }
  }

  lemma {:induction false} ZeroDot(a: Vec, b: Vec, m: nat)
    requires m <= |a| && m <= |b| && forall j :: 0 <= j < m ==> a[j] == 0
    ensures Dot(a, b, m) == 0
  {
    hide Mul, Mod;
    if m > 0 {
      ZeroDot(a, b, m - 1);
      MulOneZero(b[m - 1]);
    }
  }

  /** Put the last column on the pivot variables and zero on the free ones. */
  lemma PivotSolution(s: Matrix, m: nat, piv: seq<nat>) returns (x: Vec)
    requires m > 0 && EchelonUpTo(s, m, piv, m)
    requires forall i :: 0 <= i < |s| ==> LeftZero(s[i]) ==> s[i][m - 1] == 0
    ensures |x| == m - 1 && SolvesAugmented(s, x)
  {
    hide Mul, Mod, Dot;
    forall i | 0 <= i < |piv| ensures piv[i] < m - 1 {
      var row := s[i];
      assert LeftZero(row) ==> row[m - 1] == 0;
    }
    x := [];
    for j := 0 to m - 1
      invariant |x| == j
      invariant forall i :: 0 <= i < |piv| && piv[i] < j ==> x[piv[i]] == s[i][m - 1]
      invariant forall q :: 0 <= q < j && q !in piv ==> x[q] == 0
    {
      if j in piv {
        var i :| 0 <= i < |piv| && piv[i] == j;
        x := x + [s[i][m - 1]];
      } else {
        x := x + [0];
      }
    }
    forall i | 0 <= i < |s| ensures Dot(s[i], x, |x|) == s[i][|x|] {
      if i < |piv| {
        forall j | 0 <= j < m - 1 && j != piv[i] ensures s[i][j] == 0 || x[j] == 0 {
          if j in piv { var k :| 0 <= k < |piv| && piv[k] == j; assert s[i][piv[k]] == 0; }
        }
        DotSingle(s[i], x, m - 1, piv[i]);
        MulOneZero(x[piv[i]]);
      } else {
        ZeroDot(s[i], x, m - 1);
        assert LeftZero(s[i]);
      }
    }
  }

  // ---- Square systems ----

  /** Only the zero vector is mapped to zero. */
  ghost predicate Nonsingular(s: Matrix, n: nat) {
    forall v: Vec :: |v| == n && Kills(s, v) ==> AllZero(v)
  }

  ghost predicate Identity(s: Matrix, n: nat) {
    |s| == n && Rows(s, n + 1) &&
    forall i, j :: 0 <= i < n && 0 <= j < n ==> s[i][j] == if i == j then 1 else 0
  }

  /** The first column that is not the pivot column of the row with the same number. */
  lemma FirstGap(piv: seq<nat>, n: nat) returns (c: nat)
    requires forall i, j :: 0 <= i < j < |piv| ==> piv[i] < piv[j]
    ensures c <= n && c <= |piv| && forall j :: 0 <= j < c ==> piv[j] == j
    ensures c < n ==> c == |piv| || piv[c] > c
  {
    c := 0;
    while c < n && c < |piv| && piv[c] == c
      invariant c <= n && c <= |piv| && forall j :: 0 <= j < c ==> piv[j] == j
    {
      c := c + 1;
    }
    assert 0 < c < |piv| ==> piv[c - 1] < piv[c];
  }

  lemma {:induction false} PivotsGrow(piv: seq<nat>, c: nat, k: nat)
    requires c <= k < |piv| && forall i, j :: 0 <= i < j < |piv| ==> piv[i] < piv[j]
    ensures piv[k] >= piv[c] + (k - c)
  {
    if c < k { PivotsGrow(piv, c, k - 1); }
  }

  /** With n rows and n + 1 columns, a reduced matrix either is [I | x], or its last row is zero
      on the left; in the second case a nonzero vector is orthogonal to all left parts. */
  lemma SquareCases(s: Matrix, n: nat) returns (c: nat, v: Vec)
    requires |s| == n && ReducedEchelon(s, n + 1)
    ensures Rows(s, n + 1) && c <= n
    ensures c == n ==> Identity(s, n)
    ensures c < n ==> LeftZero(s[n - 1]) && |v| == n && v[c] == 1 && Kills(s, v + [0])
  {
    hide EchelonUpTo, Dot;
    var piv: seq<nat> :| EchelonUpTo(s, n + 1, piv, n + 1);
    EchelonBasics(s, n + 1, piv);
    c := FirstGap(piv, n);
    v := [];
    UnitColumns(s, n, piv, c);
    if c < n {
      LastRowLeftZero(s, n, piv, c);
      v := NullVector(s, n, c);
      forall i | 0 <= i < n ensures Dot(s[i], v + [0], n + 1) == 0 {
        if i >= c { GapRow(s, n, piv, c, i); }
        NullRow(s, n, c, v, i);
      }
    }
  }

  lemma EchelonBasics(s: Matrix, m: nat, piv: seq<nat>)
    requires EchelonUpTo(s, m, piv, m)
    ensures Rows(s, m) && |piv| <= |s| && forall i, j :: 0 <= i < j < |piv| ==> piv[i] < piv[j]
  {
  }

  lemma UnitColumns(s: Matrix, n: nat, piv: seq<nat>, c: nat)
    requires EchelonUpTo(s, n + 1, piv, n + 1) && c <= |piv| && c <= n
    requires forall j :: 0 <= j < c ==> piv[j] == j
    ensures Rows(s, n + 1)
    ensures forall i, j :: 0 <= i < |s| && 0 <= j < c ==> s[i][j] == if i == j then 1 else 0
  {
    forall i, j | 0 <= i < |s| && 0 <= j < c ensures s[i][j] == if i == j then 1 else 0 {
      assert piv[j] == j;
    }
  }

  lemma LastRowLeftZero(s: Matrix, n: nat, piv: seq<nat>, c: nat)
    requires |s| == n && EchelonUpTo(s, n + 1, piv, n + 1)
    requires c < n && c <= |piv| && (c == |piv| || piv[c] > c)
    ensures LeftZero(s[n - 1])
  {
    if |piv| == n { PivotsGrow(piv, c, n - 1); }
  }

  /** Rows from the gap on are zero up to and including the gap's column. */
  lemma GapRow(s: Matrix, n: nat, piv: seq<nat>, c: nat, i: nat)
    requires |s| == n && EchelonUpTo(s, n + 1, piv, n + 1)
    requires c <= i < n && c <= |piv| && (c == |piv| || piv[c] > c)
    ensures forall j :: 0 <= j <= c ==> s[i][j] == 0
  {
    if i < |piv| { PivotsGrow(piv, c, i); }
  }

  function NullVector(s: Matrix, n: nat, c: nat): (v: Vec)
    requires c < n <= |s| && Rows(s, n + 1)
    ensures |v| == n
  {
    seq(n, j requires 0 <= j < n => if j == c then 1 else if j < c then Neg(s[j][c]) else 0)
  }

  lemma NullRow(s: Matrix, n: nat, c: nat, v: Vec, i: nat)
    requires c < n <= |s| && Rows(s, n + 1) && i < n && v == NullVector(s, n, c)
    requires i < c ==> forall j :: 0 <= j < c ==> s[i][j] == if i == j then 1 else 0
    requires i >= c ==> forall j :: 0 <= j <= c ==> s[i][j] == 0
    ensures Dot(s[i], v + [0], n + 1) == 0
  {
    hide Dot, Mul, Mod;
    if i < c {
      DotPair(s[i], v + [0], n + 1, i, c);
      MulOneZero(Neg(s[i][c]));
      MulOneZero(s[i][c]);
    } else {
      DotSingle(s[i], v + [0], n + 1, c);
      MulOneZero(1);
    }
  }

  /** The augmented matrix [A | b]. */
  function Augment(a: Matrix, b: Vec): (s: Matrix)
    requires |a| == |b|
    ensures |s| == |a|
  {
    seq(|a|, i requires 0 <= i < |a| => a[i] + [b[i]])
  }

  ghost predicate Solves(a: Matrix, b: Vec, x: Vec) {
    |a| == |b| && Rows(a, |x|) && forall i :: 0 <= i < |a| ==> Dot(a[i], x, |x|) == b[i]
  }

  lemma {:induction false} DotLeft(a: Vec, t: Elem, v: Vec, w: Elem, m: nat)
    requires m <= |a| && m <= |v|
    ensures Dot(a + [t], v + [w], m) == Dot(a, v, m)
  {
    if m > 0 { DotLeft(a, t, v, w, m - 1); }
  }

  lemma {:induction false} DotFirst(a: Vec, t: Elem, v: Vec, m: nat)
    requires m <= |a| && m <= |v|
    ensures Dot(a + [t], v, m) == Dot(a, v, m)
  {
    if m > 0 { DotFirst(a, t, v, m - 1); }
  }

  lemma SolvesIsAugmented(a: Matrix, b: Vec, x: Vec)
    requires |a| == |b| && Rows(a, |x|)
    ensures Solves(a, b, x) <==> SolvesAugmented(Augment(a, b), x)
  {
    hide Dot;
    forall i | 0 <= i < |a| ensures Dot(Augment(a, b)[i], x, |x|) == Dot(a[i], x, |x|) {
      DotFirst(a[i], b[i], x, |x|);
    }
    assert forall i :: 0 <= i < |a| ==> Augment(a, b)[i][|x|] == b[i];
  }

  lemma KillsLeft(a: Matrix, b: Vec, v: Vec)
    requires |a| == |b| && Rows(a, |v|)
    ensures Kills(a, v) <==> Kills(Augment(a, b), v + [0])
  {
    hide Mul, Mod;
    forall i | 0 <= i < |a| ensures Dot(Augment(a, b)[i], v + [0], |v| + 1) == Dot(a[i], v, |v|) {
      DotLeft(a[i], b[i], v, 0, |v|);
      MulOneZero(b[i]);
      SubZero(Dot(a[i], v, |v|), 0);
    }
    assert |v + [0]| == |v| + 1;
  }

  lemma IdentityRow(s: Matrix, n: nat, x: Vec, i: nat)
    requires Identity(s, n) && n <= |x| && i < n
    ensures Dot(s[i], x, n) == x[i]
  {
    hide Dot, Mul, Mod;
    if |x| == n {
      DotSingle(s[i], x, n, i);
    } else {
      DotSingle(s[i], x, n, i);
    }
    MulOneZero(x[i]);
  }

  /** Reducing [A | b] decides a square system: no left-zero row exactly when A is nonsingular,
      and then the last column is the one solution. */
  lemma SquareDecided(a: Matrix, b: Vec, s: Matrix, n: nat)
    requires |a| == |b| == |s| == n && Rows(a, n)
    requires ReducedEchelon(s, n + 1) && SameKernel(s, Augment(a, b), n + 1)
    ensures Rows(s, n + 1)
    ensures Nonsingular(a, n) <==> forall i :: 0 <= i < n ==> !LeftZero(s[i])
    ensures Nonsingular(a, n) ==> Identity(s, n)
    ensures Identity(s, n) ==> forall x: Vec :: |x| == n ==> (Solves(a, b, x) <==> x == LastColumn(s, n))
  {
    hide Dot, Kills, SolvesAugmented, EchelonUpTo;
    var c, v := SquareCases(s, n);
    if c < n {
      KillsLeft(a, b, v);
      assert Kills(a, v) && !AllZero(v);
      assert !Nonsingular(a, n);
    } else {
      IdentityNonsingular(a, b, s, n);
      assert forall i :: 0 <= i < n ==> s[i][i] == 1;
    }
    if Identity(s, n) {
      forall x: Vec | |x| == n ensures Solves(a, b, x) <==> x == LastColumn(s, n) {
        SolvesIsAugmented(a, b, x);
        SameSolutions(s, Augment(a, b), x);
        IdentitySolution(s, n, x);
      }
    }
  }

  function LastColumn(s: Matrix, n: nat): (x: Vec)
    requires |s| == n && Rows(s, n + 1)
    ensures |x| == n
  {
    seq(n, i requires 0 <= i < n => s[i][n])
  }

  lemma IdentitySolution(s: Matrix, n: nat, x: Vec)
    requires Identity(s, n) && |x| == n
    ensures SolvesAugmented(s, x) <==> x == LastColumn(s, n)
  {
    hide Dot;
    forall i | 0 <= i < n ensures Dot(s[i], x, n) == x[i] {
      IdentityRow(s, n, x, i);
    }
    if SolvesAugmented(s, x) {
      assert forall i :: 0 <= i < n ==> x[i] == s[i][n];
    }
  }

  lemma IdentityNonsingular(a: Matrix, b: Vec, s: Matrix, n: nat)
    requires |a| == |b| == |s| == n && Rows(a, n)
    requires Identity(s, n) && SameKernel(s, Augment(a, b), n + 1)
    ensures Nonsingular(a, n)
  {
    hide Dot, Mul, Mod, SameKernel;
    forall v: Vec | |v| == n && Kills(a, v) ensures AllZero(v) {
      KillsLeft(a, b, v);
      var w := v + [0];
      assert |w| == n + 1 && Kills(s, w) by { KernelAt(s, Augment(a, b), w); }
      forall i | 0 <= i < n ensures v[i] == 0 {
        IdentityRow(s, n, w, i);
        DotStep(s[i], w, n);
        MulOneZero(s[i][n]);
        SubZero(w[i], 0);
      }
    }
  }

  lemma DotStep(a: Vec, b: Vec, m: nat)
    requires m < |a| && m < |b|
    ensures Dot(a, b, m + 1) == Add(Dot(a, b, m), Mul(a[m], b[m]))
  {
  }

  lemma KernelAt(s: Matrix, t: Matrix, v: Vec)
    requires SameKernel(s, t, |v|)
    ensures Kills(s, v) <==> Kills(t, v)
  {
  }

  // ---- Reading off the solution ----

  /** GetPivotInColumn: the lowest nonzero entry of the column, unless something stands to its
      left (the entry immediately to its left is not looked at); -1 if there is none. */
  method GetPivotInColumn(a: array2<Elem>, col: nat) returns (p: int)
    requires col < a.Length1
    ensures -1 <= p < a.Length0
    ensures p >= 0 ==> a[p, col] != 0 && forall k :: 0 <= k < col - 1 ==> a[p, k] == 0
    ensures p >= 0 ==> forall i :: p < i < a.Length0 ==> a[i, col] == 0
    ensures p == -1 ==> forall i :: 0 <= i < a.Length0 && a[i, col] != 0 ==>
              exists q, k :: i <= q < a.Length0 && 0 <= k < col - 1 && a[q, col] != 0 && a[q, k] != 0
  {
    var i := a.Length0;
    while i > 0
      invariant 0 <= i <= a.Length0
      invariant forall q :: i <= q < a.Length0 ==> a[q, col] == 0
    {
      i := i - 1;
      if a[i, col] != 0 {
        for k := 0 to if col == 0 then 0 else col - 1
          invariant forall q :: 0 <= q < k ==> a[i, q] == 0
        {
          if a[i, k] != 0 { return -1; }
        }
        return i;
      }
    }
    return -1;
  }

  /** FindFirstNonZeroRow: the lowest row that is not zero, or -1 (the wrapped-around counter). */
  method FindFirstNonZeroRow(a: array2<Elem>) returns (r: int)
    ensures -1 <= r < a.Length0
    ensures r >= 0 ==> !AllZero(RowsOf(a)[r])
    ensures forall i :: r < i < a.Length0 ==> AllZero(RowsOf(a)[i])
  {
    r := a.Length0 - 1;
    while r >= 0
      invariant -1 <= r < a.Length0
      invariant forall i :: r < i < a.Length0 ==> AllZero(RowsOf(a)[i])
    {
      var nonZero := false;
      for j := 0 to a.Length1
        invariant nonZero <==> exists q :: 0 <= q < j && a[r, q] != 0
      {
        if a[r, j] != 0 {
          nonZero := true;
          assert RowsOf(a)[r][j] != 0;
          break;
        }
      }
      if nonZero { break; }
      assert AllZero(RowsOf(a)[r]);
      r := r - 1;
    }
  }

  /** ExtractSolution on an augmented square matrix: all reads are in range, and a reduced matrix
      of full rank gives its last column. */
  method ExtractSolution(a: array2<Elem>) returns (x: Vec)
    requires a.Length1 == a.Length0 + 1
    ensures |x| == a.Length0
    ensures Identity(RowsOf(a), a.Length0) ==> x == LastColumn(RowsOf(a), a.Length0)
  {
    hide Mul, Mod;
    var n, m := a.Length0, a.Length1;
    x := seq(m - 1, j => 0);
    var i := FindFirstNonZeroRow(a);
    ghost var full := Identity(RowsOf(a), n);
    assert full ==> forall p, q :: 0 <= p < n && 0 <= q < n ==> a[p, q] == if p == q then 1 else 0 by {
      assert forall p, q :: 0 <= p < n && 0 <= q < n ==> a[p, q] == RowsOf(a)[p][q];
    }
    assert full && n > 0 ==> a[n - 1, n - 1] == RowsOf(a)[n - 1][n - 1] == 1;
    var c := m - 2 - (n - i - 1);
    while c >= 0
      invariant -1 <= c <= i < n && |x| == n
      invariant full ==> i == c && forall q :: c < q < n ==> x[q] == a[q, n]
    {
      var p := GetPivotInColumn(a, c);
      assert full ==> a[c, c] == 1 && p == c;
      if p == -1 {
        x := x[c := 1];
      } else {
        var sum: Elem := 0;
        for j := p + 1 to n
          invariant full ==> sum == 0
        {
          MulOneZero(x[j]);
          sum := Add(sum, Mul(a[i, j], x[j]));
        }
        x := x[c := Sub(a[i, m - 1], sum)];
        SubZero(a[i, m - 1], 0);
        i := i - 1;
      }
      c := c - 1;
    }
  }

  /** CreateAugmentedMatrix for a column vector. */
  method CreateAugmentedMatrix(a: array2<Elem>, b: Vec) returns (aug: array2<Elem>)
    requires |b| == a.Length0
    ensures fresh(aug) && aug.Length0 == a.Length0 && aug.Length1 == a.Length1 + 1
    ensures RowsOf(aug) == Augment(RowsOf(a), b)
  {
    var n, m := a.Length0, a.Length1;
    aug := new Elem[n, m + 1];
    for i := 0 to n
      invariant forall p, q :: 0 <= p < i && 0 <= q <= m ==> aug[p, q] == if q < m then a[p, q] else b[p]
    {
      for j := 0 to m
        invariant forall p, q :: 0 <= p < i && 0 <= q <= m ==> aug[p, q] == if q < m then a[p, q] else b[p]
        invariant forall q :: 0 <= q < j ==> aug[i, q] == a[i, q]
      {
        aug[i, j] := a[i, j];
      }
      for j := m to m + 1
        invariant forall p, q :: 0 <= p < i && 0 <= q <= m ==> aug[p, q] == if q < m then a[p, q] else b[p]
        invariant forall q :: 0 <= q < j ==> aug[i, q] == if q < m then a[i, q] else b[i]
      {
        aug[i, j] := b[i];
      }
    }
    RowsEqual(RowsOf(aug), Augment(RowsOf(a), b), m + 1);
  }

  datatype SystemError = Malformed

  /** SolveLinearSystem on a square matrix: an error for the wrong number of right-hand sides,
      None exactly for a singular matrix, and otherwise the one solution. */
  method SolveLinearSystem(a: array2<Elem>, b: Vec) returns (r: Result<Option<Vec>, SystemError>)
    requires a.Length0 == a.Length1
    ensures r.Failure? <==> |b| != a.Length0
    ensures r.Success? ==> (r.value.Some? <==> Nonsingular(RowsOf(a), a.Length0))
    ensures r.Success? && r.value.Some? ==> |r.value.value| == a.Length0
    ensures r.Success? && r.value.Some? ==>
              forall x: Vec :: |x| == a.Length0 ==> (Solves(RowsOf(a), b, x) <==> x == r.value.value)
  {
    hide Kills, EchelonUpTo, LeftZero, Solves, Identity, Augment, LastColumn;
    if a.Length0 != |b| { return Failure(Malformed); }
    var n := a.Length0;
    var aug := CreateAugmentedMatrix(a, b);
    RowReduceInPlace(aug);
    SquareDecided(RowsOf(a), b, RowsOf(aug), n);
    var unique := HasSolution(aug, true);
    if !unique { return Success(None); }
    var x := ExtractSolution(aug);
    return Success(Some(x));
  }
}
