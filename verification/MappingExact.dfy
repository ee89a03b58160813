/** When TurboPack reads every wire right: exactly on the circuits whose read wires miss nothing in
    mMapIndShrs. For any other circuit some dealer's choice makes a read wrong; a smallest circuit
    with an addition that reads an output gate then gives its owner a wrong value. */
module MappingExact {
  import opened Field
  import opened Poly
  import opened Packed
  import opened Combine
  import opened FIPrep
  import opened Triples
  import opened Circuits
  import opened Mapping
  import opened TurboPack
  import opened Online
  import opened Wrappers
  import Shamir

  // ---- One dealer, in one block, shares 1; everything else is 0 ----

  function IndDealing(pp: Params, one: bool): Dealing
    requires pp.Valid()
  {
    Dealing(if one then 1 else 0, Const(0, pp.n + 1 - 2 * pp.k))
  }

  function IndRow(pp: Params, i: int): (row: seq<Dealing>)
    requires pp.Valid()
    ensures |row| == pp.n && forall e :: 0 <= e < pp.n ==> row[e] == IndDealing(pp, e == i)
  {
    seq(pp.n, e requires 0 <= e < pp.n => IndDealing(pp, e == i))
  }

  /** Row b of the blocks, in which dealer i of block `block` is the exception. */
  function OneRow(pp: Params, block: nat, i: nat, b: int): (row: seq<Dealing>)
    requires pp.Valid()
    ensures |row| == pp.n
  {
    IndRow(pp, if b == block then i else -1)
  }

  function ZeroDealings(pp: Params, blocks: nat): seq<seq<Dealing>> {
    seq(blocks, b => seq(pp.n, e => Dealing(0, Const(0, pp.t))))
  }

  function ZeroRnds(blocks: nat, n: nat, len: nat): seq<seq<Vec>> {
    seq(blocks, b => seq(n, e => Const(0, len)))
  }

  function OneDealer(pp: Params, sz: Sizes, block: nat, i: nat): Randomness
    requires pp.Valid()
  {
    Randomness(
      seq(Blocks(sz.inds, pp.t), b => OneRow(pp, block, i, b)),
      seq(pp.k, p => ZeroDealings(pp, Blocks(3 * sz.mults, pp.t))),
      ZeroRnds(Blocks(3 * sz.mults + sz.ios, pp.t), pp.n, pp.n - pp.k),
      seq(pp.k, p => ZeroRnds(Blocks(sz.mults, pp.t), pp.n, pp.n - 1)))
  }

  lemma OneDealerShape(pp: Params, sz: Sizes, block: nat, i: nat)
    requires pp.Valid()
    ensures RandomnessShape(pp, sz, OneDealer(pp, sz, block, i))
  {
    hide Blocks;
  }

  /** Extraction when only dealer i shared 1: a power of i. */
  lemma {:induction false} DotOne(cs: Vec, xs: Vec, i: int, m: nat)
    requires m <= |cs| && m <= |xs| && forall e :: 0 <= e < m ==> xs[e] == if e == i then 1 else 0
    ensures Dot(cs, xs, m) == if 0 <= i < m then cs[i] else 0
  {
    hide Mul, Add;
    if m > 0 {
      DotOne(cs, xs, i, m - 1);
      MulOneZero(cs[m - 1]);
      SubZero(cs[m - 1], 0);
      SubZero(if 0 <= i < m - 1 then cs[i] else 0, 0);
    }
  }

  /** The x-th extracted secret when dealer i of block `block` shared 1. */
  function Extracts(t: nat, block: nat, i: nat, x: nat): Elem {
    if BlockOf(x, t) == block then VPow(i, RowOf(x, t)) else 0
  }

  lemma OneDealerSecrets(pp: Params, sz: Sizes, block: nat, i: nat, x: nat)
    requires pp.Valid() && i < pp.n && x < Total(Blocks(sz.inds, pp.t), pp.t)
    ensures IndSecret(pp, OneDealer(pp, sz, block, i).ind, x) == Extracts(pp.t, block, i, x)
  {
    hide Total, Dot, BlockOf, RowOf, Blocks, VPow;
    var ds := OneDealer(pp, sz, block, i).ind;
    BlockIndex(x, |ds|, pp.t);
    var b := BlockOf(x, pp.t);
    var secrets := DealerSecrets(ds[b]);
    DotOne(VandermondeColumn(RowOf(x, pp.t), pp.n), secrets, if b == block then i else -1, pp.n);
  }

  // ---- A combination of masks that is not identically 0 is not 0 for some dealer's choice ----

  lemma {:induction false} PowersAgree(i: nat, j: nat)
    ensures Shamir.Power(Mod(i), j) == VPow(i, j)
  {
    hide Mul, Mod;
    if j > 0 { PowersAgree(i, j - 1); }
  }

  function Secrets01(t: nat, block: nat, i: nat, m: nat): (v: Vec)
    ensures |v| == m
  {
    seq(m, x requires 0 <= x < m => Extracts(t, block, i, x))
  }

  /** The coefficients that belong to one block. */
  function BlockCoefs(d: Vec, t: nat, block: nat, m: nat): (f: seq<Elem>)
    requires m <= t + 1
    ensures |f| == m
  {
    seq(m, j requires 0 <= j < m => BlockCoef(d, t, block, j))
  }

  function BlockCoef(d: Vec, t: nat, block: nat, j: int): Elem {
    if 0 <= Total(block, t) + j < |d| then d[Total(block, t) + j] else 0
  }

  function Clamp(x: int, hi: nat): nat {
    if x < 0 then 0 else if x > hi then hi else x
  }

  /** Position x belongs to the block exactly when it is one of its t + 1 positions. */
  lemma InBlock(x: nat, t: nat, block: nat)
    ensures BlockOf(x, t) == block <==> Total(block, t) <= x <= Total(block, t) + t
    ensures BlockOf(x, t) == block ==> RowOf(x, t) == x - Total(block, t)
  {
    var m := t + 1;
    assert x == (x / m) * m + x % m;
    if Total(block, t) <= x <= Total(block, t) + t { RemainderUnique(x, block, x - block * m, m); }
  }

  /** The combination of the extracted secrets is the block's polynomial at the dealer's point. */
  lemma {:induction false} DotIsEval(d: Vec, t: nat, block: nat, i: nat, m: nat)
    requires m <= |d|
    ensures Dot(d, Secrets01(t, block, i, |d|), m) == Eval(BlockCoefs(d, t, block, Clamp(m - Total(block, t), t + 1)), Mod(i))
  {
    hide Mul, Add, Mod, Total, BlockOf, RowOf, VPow, Eval;
    if m == 0 {
      EvalNothing(Mod(i));
      TotalAtLeast(block, t);
      assert BlockCoefs(d, t, block, 0) == [];
    } else {
      DotIsEval(d, t, block, i, m - 1);
      var x, s := m - 1, m - 1 - Total(block, t);
      InBlock(x, t, block);
      if BlockOf(x, t) == block {
        var f := BlockCoefs(d, t, block, s);
        assert BlockCoefs(d, t, block, s + 1) == f + [d[x]];
        Shamir.EvalSnoc(f, d[x], Mod(i));
        PowersAgree(i, s);
      } else {
        MulOneZero(d[x]);
        SubZero(Dot(d, Secrets01(t, block, i, |d|), m - 1), 0);
      }
    }
  }

  lemma EvalNothing(x: Elem)
    ensures Eval([], x) == 0
  {
  }

  lemma TotalAtLeast(block: nat, t: nat)
    ensures Total(block, t) >= 0
  {
  }

  /** If some coefficient is not 0, some dealer makes the combination differ from 0. */
  lemma SomeDealerShows(d: Vec, t: nat, n: nat, x: nat) returns (i: nat)
    requires x < |d| && d[x] != 0 && t < n <= P
    ensures i < n && Dot(d, Secrets01(t, BlockOf(x, t), i, |d|), |d|) != 0
  {
    hide Mul, Add, Mod, Total, BlockOf, RowOf, VPow, Eval, Dot;
    var block := BlockOf(x, t);
    InBlock(x, t, block);
    var m := Clamp(|d| - Total(block, t), t + 1);
    var f := BlockCoefs(d, t, block, m);
    assert f[x - Total(block, t)] == d[x];
    var xs := Dealers(n);
    DealersDistinct(n);
    if forall j :: 0 <= j < |f| ==> Eval(f, xs[j]) == 0 {
      TooManyRoots(f, xs);
      assert false;
    }
    i :| 0 <= i < |f| && Eval(f, xs[i]) != 0;
    DotIsEval(d, t, block, i, |d|);
  }

  function Dealers(n: nat): (v: Vec)
    ensures |v| == n
  {
    seq(n, i requires 0 <= i < n => Mod(i))
  }

  lemma DealersDistinct(n: nat)
    requires n <= P
    ensures Distinct(Dealers(n))
  {
    hide Mod;
    forall i, j | 0 <= i < j < n ensures Dealers(n)[i] != Dealers(n)[j] { ModDistinct(i, j); }
  }

  /** The masks of the leaves under that choice. */
  lemma MasksOf(pp: Params, c: Circuit, block: nat, i: nat)
    requires pp.Valid() && WellFormed(c) && i < pp.n
    ensures Setup(pp, c, OneDealer(pp, CircuitSizes(c, pp.k), block, i))
    ensures LeafVec(c, MaskLeaves(pp, c, OneDealer(pp, CircuitSizes(c, pp.k), block, i))) == Secrets01(pp.t, block, i, |IndOrder(c)|)
  {
    hide InputsListed, OutputsListed, Topological, IndSecret, RandomnessShape, Extracts, IndOrder, BatchTotal, OneDealer;
    var sz := CircuitSizes(c, pp.k);
    var r := OneDealer(pp, sz, block, i);
    OneDealerShape(pp, sz, block, i);
    OrderHoldsLeaves(c);
    forall x | 0 <= x < |IndOrder(c)| ensures LeafVec(c, MaskLeaves(pp, c, r))[x] == Extracts(pp.t, block, i, x) {
      LeafPlace(c, x);
      IndInRange(pp, c, r, x);
      IndBlocks(pp, sz, block, i);
      OneDealerSecrets(pp, sz, block, i, x);
    }
  }

  lemma IndBlocks(pp: Params, sz: Sizes, block: nat, i: nat)
    requires pp.Valid()
    ensures |OneDealer(pp, sz, block, i).ind| == Blocks(sz.inds, pp.t)
  {
  }

  /** Leaf number x has index x: no leaf is listed twice. */
  lemma LeafPlace(c: Circuit, x: nat)
    requires WellFormed(c) && x < |IndOrder(c)|
    ensures IsLeaf(c, IndOrder(c)[x]) && IndIndex(c, IndOrder(c)[x]) == x
  {
    hide Topological, OutputsListed, InputsListed, MultsListed, Flatten;
    OrderHoldsLeaves(c);
    ListsDistinct(c);
    InputsNoRepeats(c);
    PlaceOfLeaf(c.inputOrder, c.mults, x);
  }

  lemma InputsNoRepeats(c: Circuit)
    requires WellFormed(c)
    ensures NoRepeats(c.inputOrder) && forall x :: x in c.inputOrder ==> x !in Flatten(c.mults)
  {
    hide Topological, OutputsListed, Flatten;
    forall x | x in c.inputOrder ensures x !in Flatten(c.mults) {
      if x in Flatten(c.mults) { InFlatten(c.mults, x); }
    }
  }

  lemma PlaceOfLeaf(a: seq<nat>, ss: seq<seq<nat>>, x: nat)
    requires NoRepeats(a) && AllDistinct(ss) && x < |a + Flatten(ss)| && forall y :: y in a ==> y !in Flatten(ss)
    ensures IndexOf(a + Flatten(ss), (a + Flatten(ss))[x]) == x
  {
    hide Flatten, AllDistinct;
    var id := (a + Flatten(ss))[x];
    if x < |a| {
      FirstIndex(a, Flatten(ss), id);
    } else {
      var l, p := PlaceOf(ss, x - |a|);
      FlattenAt(ss, l, p);
      FlattenIndex(ss, l, p);
      SecondIndex(a, Flatten(ss), id);
    }
  }

  /** A wire that is not complete has, for some dealer's choice, a missed part other than 0. */
  lemma MissedSomewhere(pp: Params, c: Circuit, w: nat) returns (r: Randomness)
    requires pp.Valid() && WellFormed(c) && w < |c.gates| && !Complete(c, w)
    ensures Setup(pp, c, r) && MissedAt(c, MaskLeaves(pp, c, r), w) != 0
  {
    hide WellFormed, IndOrder, RandomnessShape, MaskLeaves, MissedAt, Dot, LeafVec, OneDealer, BlockOf;
    var d := MissVec(c, w);
    var x :| 0 <= x < |d| && d[x] != 0;
    var i := SomeDealerShows(d, pp.t, pp.n, x);
    var block := BlockOf(x, pp.t);
    r := OneDealer(pp, CircuitSizes(c, pp.k), block, i);
    MasksOf(pp, c, block, i);
    MissedIsDot(c, MaskLeaves(pp, c, r), w);
  }

  // ---- Exactly when every read is right ----

  /** In the run, what is read of wire w -- P1's mu plus the lambda the mapped shares hide -- is its
      cleartext value. */
  ghost predicate ReadRight(pp: Params, c: Circuit, r: Randomness, x: map<nat, Elem>, w: nat)
    requires Setup(pp, c, r) && HasInputs(c, x) && w < |c.gates|
  {
    var run := RunLayers(pp, c, r, x, |c.mults|);
    run.Some? && Known(c, run.value.Keys, w) && Add(Spread(c, run.value, w), MappedMask(pp, c, r, w)) == Clear(c, x, w)
  }

  /** In every run, every operand of a multiplication and every output is read right. */
  ghost predicate AllReadsRight(pp: Params, c: Circuit) {
    forall r, x, w :: Setup(pp, c, r) && HasInputs(c, x) && 0 <= w < |c.gates| && IsRead(c, w) ==> ReadRight(pp, c, r, x, w)
  }

  lemma ReadRightExactly(pp: Params, c: Circuit, r: Randomness, x: map<nat, Elem>, w: nat)
    requires Setup(pp, c, r) && HasInputs(c, x) && w < |c.gates| && WellLayered(c)
    ensures ReadRight(pp, c, r, x, w) <==> ReadAs(c, x, MaskLeaves(pp, c, r), w) == Clear(c, x, w)
  {
    hide Learned, RunLayers, LayerReads, WellLayered, MappedMask, Level, ReadAs, IndOrder, MaskLeaves, Clear, RandomnessShape;
    var depth := |c.mults|;
    LayersRunExactly(pp, c, r, x, depth);
    WellLayeredByLayers(c);
    var run := RunLayers(pp, c, r, x, depth);
    LearnedKeys(pp, c, r, x, depth, run.value);
    LevelAtMostDepth(c, w);
    KnownByLevel(c, depth, run.value.Keys, w);
    WireUnmasks(pp, c, r, x, depth, run.value, w);
  }

  function ZeroInputs(c: Circuit): (x: map<nat, Elem>)
    ensures HasInputs(c, x)
  {
    map id | id in InputIds(c) :: 0
  }

  /** Every wire the protocol reads is right in every run if and only if nothing that is read is missed
      by the mapping, which is a matter of counting paths in the circuit. */
  lemma TurboPackReadsExactly(pp: Params, c: Circuit)
    requires pp.Valid() && WellFormed(c) && WellLayered(c)
    ensures AllReadsRight(pp, c) <==> ReadsComplete(c)
  {
    hide WellFormed, WellLayered, ReadRight, ReadAs, Clear, MaskLeaves, RandomnessShape, HasInputs, Complete, IsRead;
    if ReadsComplete(c) {
      forall r, x, w | Setup(pp, c, r) && HasInputs(c, x) && 0 <= w < |c.gates| && IsRead(c, w) ensures ReadRight(pp, c, r, x, w) {
        ReadRightExactly(pp, c, r, x, w);
        CompleteIsClear(c, x, MaskLeaves(pp, c, r), w);
      }
    }
    if AllReadsRight(pp, c) {
      forall w | 0 <= w < |c.gates| && IsRead(c, w) ensures Complete(c, w) {
        if !Complete(c, w) { WrongRead(pp, c, w); }
      }
    }
  }

  /** An incomplete wire that is read is wrong in some run, unless an earlier one is. */
  lemma WrongRead(pp: Params, c: Circuit, w: nat)
    requires pp.Valid() && WellFormed(c) && WellLayered(c) && w < |c.gates| && IsRead(c, w) && !Complete(c, w)
    ensures !AllReadsRight(pp, c)
  {
    hide WellLayered, ReadRight, Carried, Clear, MaskLeaves, RandomnessShape, Complete, InputsListed, MultsListed, OutputsListed, MissedAt;
    if AllReadsRight(pp, c) {
      var r := MissedSomewhere(pp, c, w);
      var x, mask := ZeroInputs(c), MaskLeaves(pp, c, r);
      forall g, q | 0 <= g < |c.gates| && 0 <= q < |c.gates| && MultReads(c, g, q) ensures ReadAs(c, x, mask, q) == Clear(c, x, q) {
        assert IsRead(c, q);
        assert ReadRight(pp, c, r, x, q);
        ReadRightExactly(pp, c, r, x, q);
      }
      CarriedIsClear(c, x, mask, w);
      assert ReadRight(pp, c, r, x, w);
      ReadRightExactly(pp, c, r, x, w);
      LessIsDifferent(Clear(c, x, w), MissedAt(c, mask, w));
    }
  }

  lemma LessIsDifferent(a: Elem, b: Elem)
    ensures Sub(a, b) == a <==> b == 0
  {
  }

  // ---- Exactly when every output is right ----

  predicate MultsComplete(c: Circuit)
    requires WellFormed(c)
  {
    forall id, w :: 0 <= id < |c.gates| && 0 <= w < |c.gates| && MultReads(c, id, w) ==> Complete(c, w)
  }

  predicate OutputsComplete(c: Circuit)
    requires WellFormed(c)
  {
    forall o, p :: 0 <= o < |c.outputs| && 0 <= p < |c.outputs[o]| ==> Complete(c, c.outputs[o][p])
  }

  /** Every run gives every owner the cleartext values. */
  ghost predicate AllOutputsRight(pp: Params, c: Circuit) {
    forall r, x, o, p :: Setup(pp, c, r) && HasInputs(c, x) && 0 <= o < |c.outputs| && 0 <= p < |c.outputs[o]| ==>
      RunProtocol(pp, c, r, x, o, p) == Some(Clear(c, x, c.outputs[o][p]))
  }

  /** With complete operands of multiplications, a run's value of an output differs from the
      cleartext value by exactly what the mapping misses of it. */
  lemma OutputOff(pp: Params, c: Circuit, r: Randomness, x: map<nat, Elem>, o: nat, p: nat)
    requires Setup(pp, c, r) && HasInputs(c, x) && WellLayered(c) && MultsComplete(c) && o < |c.outputs| && p < |c.outputs[o]|
    ensures RunProtocol(pp, c, r, x, o, p)
         == Some(Sub(Clear(c, x, c.outputs[o][p]), MissedAt(c, MaskLeaves(pp, c, r), c.outputs[o][p])))
  {
    hide WellLayered, RunProtocol, Clear, Carried, MaskLeaves, RandomnessShape, MissedAt, InputsListed, MultsListed, Complete;
    var w, mask := c.outputs[o][p], MaskLeaves(pp, c, r);
    TurboPackComputes(pp, c, r, x, o, p);
    OperandsClear(pp, c, x, mask, |c.gates|);
    CarriedIsClear(c, x, mask, w);
  }

  lemma {:induction false} OperandsClear(pp: Params, c: Circuit, x: map<nat, Elem>, mask: map<nat, Elem>, n: nat)
    requires WellFormed(c) && HasInputs(c, x) && mask.Keys == LeafIds(c) && MultsComplete(c) && n <= |c.gates|
    ensures forall w :: 0 <= w < n ==> Carried(c, x, mask, w) == Clear(c, x, w)
    ensures forall g, w :: 0 <= g < |c.gates| && 0 <= w < n && MultReads(c, g, w) ==> ReadAs(c, x, mask, w) == Clear(c, x, w)
  {
    hide Add, Mul, InputsListed, MultsListed, OutputsListed, Complete, MissedAt;
    if n > 0 {
      OperandsClear(pp, c, x, mask, n - 1);
      var id := n - 1;
      assert Carried(c, x, mask, id) == Clear(c, x, id) by {
        if c.gates[id].MultGate? { assert MultReads(c, id, c.gates[id].left) && MultReads(c, id, c.gates[id].right); }
      }
      forall g | 0 <= g < |c.gates| && MultReads(c, g, id) ensures ReadAs(c, x, mask, id) == Clear(c, x, id) {
        CompleteMissesNothing(c, mask, id);
        SubZero(Clear(c, x, id), 0);
      }
    }
  }

  /** On circuits whose multiplications read complete wires, TurboPack is always correct if and only
      if the outputs are complete. */
  lemma TurboPackOutputsExactly(pp: Params, c: Circuit)
    requires pp.Valid() && WellFormed(c) && WellLayered(c) && MultsComplete(c)
    ensures AllOutputsRight(pp, c) <==> OutputsComplete(c)
  {
    hide WellFormed, WellLayered, RunProtocol, Clear, MaskLeaves, RandomnessShape, HasInputs, Complete, MultsComplete, MissedAt;
    TopologicalOf(c);
    assert forall o, p :: 0 <= o < |c.outputs| && 0 <= p < |c.outputs[o]| ==> c.outputs[o][p] < |c.gates| by { OutputsThere(c); }
    if OutputsComplete(c) {
      forall r, x, o, p | Setup(pp, c, r) && HasInputs(c, x) && 0 <= o < |c.outputs| && 0 <= p < |c.outputs[o]|
        ensures RunProtocol(pp, c, r, x, o, p) == Some(Clear(c, x, c.outputs[o][p]))
      {
        OutputOff(pp, c, r, x, o, p);
        CompleteMissesNothing(c, MaskLeaves(pp, c, r), c.outputs[o][p]);
        LessIsDifferent(Clear(c, x, c.outputs[o][p]), 0);
      }
    }
    if AllOutputsRight(pp, c) {
      forall o, p | 0 <= o < |c.outputs| && 0 <= p < |c.outputs[o]| ensures Complete(c, c.outputs[o][p]) {
        var w := c.outputs[o][p];
        if !Complete(c, w) {
          var r := MissedSomewhere(pp, c, w);
          OutputOff(pp, c, r, ZeroInputs(c), o, p);
          LessIsDifferent(Clear(c, ZeroInputs(c), w), MissedAt(c, MaskLeaves(pp, c, r), w));
        }
      }
    }
  }

  lemma OutputsThere(c: Circuit)
    requires WellFormed(c)
    ensures forall o, p :: 0 <= o < |c.outputs| && 0 <= p < |c.outputs[o]| ==> c.outputs[o][p] < |c.gates|
  {
  }

  // ---- A circuit it gets wrong ----

  /** An input, an output of it, the sum of the two, and an output of the sum. */
  function TwiceCircuit(): Circuit {
    Circuit([InputGate(0), OutputGate(0, 0), AddGate(1, 0), OutputGate(0, 2)], [0, 0, 0, 0], [[0]], [[1, 3]], [[]], [0])
  }

  lemma TwiceListed()
    ensures Topological(TwiceCircuit()) && InputsListed(TwiceCircuit()) && MultsListed(TwiceCircuit()) && OutputsListed(TwiceCircuit())
    ensures IndOrder(TwiceCircuit()) == [0]
  {
    hide InputsListed, MultsListed, OutputsListed;
    var c := TwiceCircuit();
    assert InputsListed(c) by { TwiceInputs(); }
    assert MultsListed(c) by { TwiceMults(); }
    assert OutputsListed(c) by { TwiceOutputs(); }
    assert c.mults[..0] == [];
  }

  lemma TwiceInputs()
    ensures InputsListed(TwiceCircuit())
  {
    var c := TwiceCircuit();
    assert 0 in c.inputOrder && 0 in c.inputs[0];
  }

  lemma TwiceMults()
    ensures MultsListed(TwiceCircuit())
  {
  }

  lemma TwiceOutputs()
    ensures OutputsListed(TwiceCircuit())
  {
  }

  lemma TwiceLayered()
    requires Topological(TwiceCircuit())
    ensures WellLayered(TwiceCircuit()) && !AddsReadNoOutputs(TwiceCircuit())
  {
    var c := TwiceCircuit();
    assert c.gates[2].AddGate? && c.gates[c.gates[2].left].OutputGate?;
  }

  lemma TwiceClear(x: map<nat, Elem>)
    requires 0 in x && Topological(TwiceCircuit())
    ensures HasInputs(TwiceCircuit(), x) && Clear(TwiceCircuit(), x, 3) == Add(x[0], x[0])
  {
    hide Add;
    var c := TwiceCircuit();
    assert Clear(c, x, 0) == x[0];
    assert Clear(c, x, 1) == x[0];
    assert Clear(c, x, 2) == Add(x[0], x[0]);
  }

  lemma TwiceValid(x: map<nat, Elem>)
    requires 0 in x
    ensures WellFormed(TwiceCircuit()) && WellLayered(TwiceCircuit()) && !AddsReadNoOutputs(TwiceCircuit())
    ensures HasInputs(TwiceCircuit(), x) && Clear(TwiceCircuit(), x, 3) == Add(x[0], x[0])
    ensures IndOrder(TwiceCircuit()) == [0]
  {
    hide Topological, InputsListed, MultsListed, OutputsListed, IndOrder, WellLayered, AddsReadNoOutputs, HasInputs, Clear, TwiceCircuit;
    TwiceListed();
    TwiceLayered();
    TwiceClear(x);
  }

  /** What the circuit carries, and what its second output misses. */
  lemma TwiceMisses(x: map<nat, Elem>, mask: map<nat, Elem>)
    requires 0 in x && Topological(TwiceCircuit()) && HasInputs(TwiceCircuit(), x) && mask.Keys == LeafIds(TwiceCircuit())
    ensures 0 in mask && ReadAs(TwiceCircuit(), x, mask, 3) == Sub(Add(x[0], x[0]), mask[0])
  {
    hide Add, Sub;
    var c := TwiceCircuit();
    assert 0 in LeafIds(c);
    AllKnown(c, 1);
    assert Carried(c, x, mask, 1) == x[0] && Carried(c, x, mask, 0) == x[0];
    assert Carried(c, x, mask, 2) == Add(x[0], x[0]);
    assert Carried(c, x, mask, 3) == Add(x[0], x[0]);
    assert Spread(c, mask, 1) == mask[0];
    assert MissedBy(c, mask, 1) == mask[0] && MissedBy(c, mask, 0) == 0;
    SubZero(mask[0], 0);
    assert MissedAt(c, mask, 2) == mask[0];
    assert MissedAt(c, mask, 3) == mask[0];
  }

  /** On that circuit, with admissible parameters, some dealers' randomness gives the mask 1 to the
      input; the owner then obtains 2v - 1 for the input v, where the cleartext value is 2v. */
  lemma WrongWhenAddReadsOutput(pp: Params, v: Elem) returns (r: Randomness)
    requires pp.Valid()
    ensures Setup(pp, TwiceCircuit(), r) && WellLayered(TwiceCircuit()) && !AddsReadNoOutputs(TwiceCircuit())
    ensures HasInputs(TwiceCircuit(), map[0 := v]) && Clear(TwiceCircuit(), map[0 := v], 3) == Add(v, v)
    ensures RunProtocol(pp, TwiceCircuit(), r, map[0 := v], 0, 1) == Some(Sub(Add(v, v), 1))
    ensures Sub(Add(v, v), 1) != Add(v, v)
  {
    hide WellFormed, WellLayered, RunProtocol, Clear, ReadAs, RandomnessShape, HasInputs, IndOrder, AddsReadNoOutputs, MaskLeaves, OneDealer, BlockOf;
    var c, x := TwiceCircuit(), map[0 := v];
    TwiceValid(x);
    r := OneDealer(pp, CircuitSizes(c, pp.k), 0, 0);
    MasksOf(pp, c, 0, 0);
    var mask := MaskLeaves(pp, c, r);
    TurboPackComputes(pp, c, r, x, 0, 1);
    InBlock(0, pp.t, 0);
    assert LeafVec(c, mask)[0] == mask[0];
    TopologicalOf(c);
    TwiceMisses(x, mask);
    LessIsDifferent(Add(v, v), 1);
  }

  lemma TopologicalOf(c: Circuit)
    requires WellFormed(c)
    ensures Topological(c)
  {
  }
}
