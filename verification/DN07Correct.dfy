/** DN07 computes the cleartext values: the layer invariant, the alignment of P1's queue, and the
    end-to-end theorem for n = 2t + 1. */
module DN07Correct {
  import opened Field
  import opened Poly
  import opened EvPoly
  import opened Packed
  import opened Combine
  import opened FIPrep
  import opened Circuits
  import opened Wrappers
  import opened DN07

  /** The shares of a leaf at all parties: set online at 0..t, fixed beforehand at the others. */
  function LeafVec(pp: Parties, c: Circuit, r: DealerRandomness, active: map<nat, Vec>, id: nat): (s: Vec)
    requires Setup(pp, c, r) && ActiveShape(pp, c, active) && id in active
    ensures |s| == pp.n
  {
    seq(pp.n, i requires 0 <= i < pp.n => if i <= pp.t then active[id][i] else MaskShare(pp, c, r, i, id))
  }

  /** The layer invariant: the leaves learned are those of the layers run so far, and the parties
      hold a degree-t sharing of the cleartext value of each. */
  ghost predicate Learned(pp: Parties, c: Circuit, r: DealerRandomness, x: map<nat, Elem>, layers: nat, active: map<nat, Vec>)
    requires Setup(pp, c, r) && HasInputs(c, x)
  {
    && LearnedAfter(c, layers, active.Keys)
    && ActiveShape(pp, c, active)
    && forall id :: id in active ==> IsSharing(LeafVec(pp, c, r, active, id), pp.t, [Clear(c, x, id)])
  }

  /** On every available wire the parties hold a degree-t sharing of the cleartext value. The shares
      of the silent parties are the ones they computed before the inputs existed. */
  lemma {:induction false} WireSharing(pp: Parties, c: Circuit, r: DealerRandomness, x: map<nat, Elem>, active: map<nat, Vec>, id: nat)
    requires Setup(pp, c, r) && HasInputs(c, x) && ActiveShape(pp, c, active)
    requires forall g :: g in active ==> IsSharing(LeafVec(pp, c, r, active, g), pp.t, [Clear(c, x, g)])
    requires id < |c.gates| && Known(c, active.Keys, id)
    ensures IsSharing(WireVec(pp, c, r, active, id), pp.t, [Clear(c, x, id)])
    decreases id
  {
    hide IsSharing, MaskShare, DealerShape, InputsListed, MultsListed, OutputsListed;
    match c.gates[id]
    case AddGate(l, q) =>
      WireSharing(pp, c, r, x, active, l);
      WireSharing(pp, c, r, x, active, q);
      var vl, vq := WireVec(pp, c, r, active, l), WireVec(pp, c, r, active, q);
      SumSharing(vl, pp.t, [Clear(c, x, l)], vq, pp.t, [Clear(c, x, q)]);
      assert WireVec(pp, c, r, active, id) == VAdd(vl, vq);
      assert VAdd([Clear(c, x, l)], [Clear(c, x, q)]) == [Clear(c, x, id)];
    case OutputGate(_, l) =>
      WireSharing(pp, c, r, x, active, l);
      assert WireVec(pp, c, r, active, id) == WireVec(pp, c, r, active, l);
    case _ =>
      assert WireVec(pp, c, r, active, id) == LeafVec(pp, c, r, active, id);
  }

  /** A silent party's early share of a wire is its share of the wire later on. */
  lemma {:induction false} SilentShareFinal(pp: Parties, c: Circuit, r: DealerRandomness, active: map<nat, Vec>, i: nat, id: nat)
    requires Setup(pp, c, r) && ActiveShape(pp, c, active) && pp.t < i < pp.n && id < |c.gates|
    requires Known(c, active.Keys, id)
    ensures SilentShare(pp, c, r, i, id) == WireShare(pp, c, r, active, i, id)
  {
    assert PartyLeaves(pp, c, r, map[], i) == PartyLeaves(pp, c, r, active, i);
  }

  /** Reconstruction from the first m shares of a sharing of degree below m. */
  lemma PrefixReconstruct(s: Vec, d: int, v: Elem, m: nat)
    requires IsSharing(s, d, [v]) && d < m <= |s| <= P
    ensures ReconstructAt(s[..m], SlotX(0)) == v
  {
    hide Eval, Mod, Lagrange;
    var f: seq<Elem> :| SharesOf(s, d, [v], f);
    assert SharesOf(s[..m], d, [v], f);
    ReconstructCorrect(s[..m], d, [v]);
  }

  /** New shares from a masked value: adding the degree-t mask to the sharing with zeros at the last
      parties leaves the silent parties' mask shares unchanged. */
  lemma Unmasked(pp: Parties, value: Elem, mask: Vec, m: Elem, s: Vec)
    requires pp.Valid() && |mask| == |s| == pp.n && IsSharing(mask, pp.t, [m])
    requires forall i :: 0 <= i <= pp.t ==> s[i] == Add(ZeroEndShares(pp, Sub(value, m), pp.t + 1)[i], mask[i])
    requires forall i :: pp.t < i < pp.n ==> s[i] == mask[i]
    ensures IsSharing(s, pp.t, [value])
  {
    hide IsSharing, Mod, Lagrange;
    var z := ZeroEndShares(pp, Sub(value, m), pp.n);
    ZeroEndSharing(pp, Sub(value, m));
    SumSharing(z, pp.t, [Sub(value, m)], mask, pp.t, [m]);
    forall i | 0 <= i < pp.n ensures s[i] == VAdd(z, mask)[i] {
      if i <= pp.t {
        assert z[i] == ZeroEndShares(pp, Sub(value, m), pp.t + 1)[i];
      } else {
        SubZero(mask[i], 0);
      }
    }
    assert s == VAdd(z, mask);
    SubZero(value, m);
    assert VAdd([Sub(value, m)], [m]) == [value];
  }

  lemma InputsLearned(pp: Parties, c: Circuit, r: DealerRandomness, x: map<nat, Elem>)
    requires pp.Valid() && Setup(pp, c, r) && HasInputs(c, x)
    ensures Learned(pp, c, r, x, 0, LearnInputs(pp, c, r, x))
  {
    hide IsSharing, RandVec, ZeroEndShares, ReconstructAt, RandSecret, RandIndex, DealerShape;
    var active := LearnInputs(pp, c, r, x);
    forall id | id in active ensures IsSharing(LeafVec(pp, c, r, active, id), pp.t, [Clear(c, x, id)]) {
      InputShared(pp, c, r, x, id, LeafVec(pp, c, r, active, id));
    }
  }

  lemma InputShared(pp: Parties, c: Circuit, r: DealerRandomness, x: map<nat, Elem>, id: nat, s: Vec)
    requires pp.Valid() && Setup(pp, c, r) && HasInputs(c, x) && id < |c.gates| && c.gates[id].InputGate? && |s| == pp.n
    requires forall i :: 0 <= i <= pp.t ==> s[i] == InputShares(pp, c, r, x, id)[i]
    requires forall i :: pp.t < i < pp.n ==> s[i] == RandVec(pp, c, r, id)[i]
    ensures IsSharing(s, pp.t, [x[id]])
  {
    hide IsSharing, ZeroEndShares, ReconstructAt, RandSecret, ExtractedVec;
    var mask := RandVec(pp, c, r, id);
    var y := RandIndex(pp, c, r, id);
    RandSharing(pp, r, y);
    var m := RandSecret(pp, r, y);
    PrefixReconstruct(mask, pp.t, m, pp.t + 1);
    Unmasked(pp, x[id], mask, m, s);
  }

  lemma MaskedProduct(p: Elem, d: Elem)
    ensures Add(Sub(p, d), d) == p
  {
  }

  /** What P1 assembles is, at all parties, the product of the operand shares minus the degree-2t
      share: the queued shares are those the silent parties would send now. */
  lemma AssembledShares(pp: Parties, c: Circuit, r: DealerRandomness, active: map<nat, Vec>, id: nat, last: Vec)
    requires Setup(pp, c, r) && ActiveShape(pp, c, active)
    requires id < |c.gates| && c.gates[id].MultGate? && OperandsKnown(c, active.Keys, id)
    requires last == FDRow(pp, c, r, id)
    ensures Assembled(pp, c, r, active, id, last)
         == VSub(VMul(WireVec(pp, c, r, active, c.gates[id].left), WireVec(pp, c, r, active, c.gates[id].right)),
                 HighVec(pp, c, r, id))
  {
    hide MaskShare, DealerShape, ExtractedVec, Spread, WireShare, SilentShare, Mul, Sub, HighVec;
    var g := c.gates[id];
    var a, b, h := WireVec(pp, c, r, active, g.left), WireVec(pp, c, r, active, g.right), HighVec(pp, c, r, id);
    var s := Assembled(pp, c, r, active, id, last);
    forall i | 0 <= i < pp.n ensures s[i] == VSub(VMul(a, b), h)[i] {
      if i > pp.t {
        SilentShareFinal(pp, c, r, active, i, g.left);
        SilentShareFinal(pp, c, r, active, i, g.right);
        assert last[i - (pp.t + 1)] == FDShare(pp, c, r, i, id);
      }
    }
  }

  /** It opens to the product minus the double sharing's secret. */
  lemma AssembledOpens(pp: Parties, c: Circuit, r: DealerRandomness, x: map<nat, Elem>, active: map<nat, Vec>, id: nat, last: Vec)
    requires pp.Valid() && Setup(pp, c, r) && HasInputs(c, x) && ActiveShape(pp, c, active)
    requires forall g :: g in active ==> IsSharing(LeafVec(pp, c, r, active, g), pp.t, [Clear(c, x, g)])
    requires id < |c.gates| && c.gates[id].MultGate? && OperandsKnown(c, active.Keys, id)
    requires last == FDRow(pp, c, r, id)
    ensures ReconstructAt(Assembled(pp, c, r, active, id, last), SlotX(0))
         == Sub(Clear(c, x, id), DoubleSecret(pp, r, DoubleIndex(pp, c, r, id)))
  {
    hide IsSharing, LeafVec, MaskShare, ReconstructAt, Reconstruct, DoubleSecret, ExtractedVec, WireVec, Assembled, FDRow, Mul, Sub,
      InputsListed, MultsListed, OutputsListed;
    var g := c.gates[id];
    var a, b, h := WireVec(pp, c, r, active, g.left), WireVec(pp, c, r, active, g.right), HighVec(pp, c, r, id);
    var va, vb := Clear(c, x, g.left), Clear(c, x, g.right);
    var y := DoubleIndex(pp, c, r, id);
    var d := DoubleSecret(pp, r, y);
    WireSharing(pp, c, r, x, active, g.left);
    WireSharing(pp, c, r, x, active, g.right);
    DoubleSharing(pp, r, y);
    AssembledShares(pp, c, r, active, id, last);
    OpenedProduct(pp, a, va, b, vb, h, d);
  }

  lemma OpenedProduct(pp: Parties, a: Vec, va: Elem, b: Vec, vb: Elem, h: Vec, d: Elem)
    requires pp.Valid() && |a| == |b| == |h| == pp.n
    requires IsSharing(a, pp.t, [va]) && IsSharing(b, pp.t, [vb]) && IsSharing(h, 2 * pp.t, [d])
    ensures ReconstructAt(VSub(VMul(a, b), h), SlotX(0)) == Sub(Mul(va, vb), d)
  {
    hide IsSharing, ReconstructAt, Reconstruct, Mul, Sub, Mod;
    ProductSharing(a, pp.t, [va], b, pp.t, [vb]);
    assert VMul([va], [vb]) == [Mul(va, vb)];
    SumSharing(VMul(a, b), 2 * pp.t, [Mul(va, vb)], h, 2 * pp.t, [d]);
    assert VSub([Mul(va, vb)], [d]) == [Sub(Mul(va, vb), d)];
    ReconstructCorrect(VSub(VMul(a, b), h), 2 * pp.t, [Sub(Mul(va, vb), d)]);
  }

  lemma GateShared(pp: Parties, c: Circuit, r: DealerRandomness, x: map<nat, Elem>, active: map<nat, Vec>, id: nat, last: Vec, s: Vec)
    requires pp.Valid() && Setup(pp, c, r) && HasInputs(c, x) && ActiveShape(pp, c, active)
    requires forall g :: g in active ==> IsSharing(LeafVec(pp, c, r, active, g), pp.t, [Clear(c, x, g)])
    requires id < |c.gates| && c.gates[id].MultGate? && OperandsKnown(c, active.Keys, id)
    requires last == FDRow(pp, c, r, id) && |s| == pp.n
    requires forall i :: 0 <= i <= pp.t ==> s[i] == MultShares(pp, c, r, active, id, last)[i]
    requires forall i :: pp.t < i < pp.n ==> s[i] == LowVec(pp, c, r, id)[i]
    ensures IsSharing(s, pp.t, [Clear(c, x, id)])
  {
    hide IsSharing, LeafVec, Assembled, ReconstructAt, ZeroEndShares, DoubleSecret, ExtractedVec, Clear, FDRow, OperandsKnown;
    AssembledOpens(pp, c, r, x, active, id, last);
    var y := DoubleIndex(pp, c, r, id);
    DoubleSharing(pp, r, y);
    Unmasked(pp, Clear(c, x, id), LowVec(pp, c, r, id), DoubleSecret(pp, r, y), s);
  }

  // ---- Layers ----

  /** The front of the queue belongs to the gates of the next layer. */
  lemma QueueAligned(pp: Parties, c: Circuit, r: DealerRandomness, l: nat, p: nat)
    requires Setup(pp, c, r) && l < |c.mults| && p < |c.mults[l]|
    ensures |FDQueue(pp, c, r)[Offset(c.mults, l)..]| >= |c.mults[l]|
    ensures FDQueue(pp, c, r)[Offset(c.mults, l)..][p] == FDRow(pp, c, r, c.mults[l][p])
  {
    hide FDRow, Flatten, Offset;
    FlattenAt(c.mults, l, p);
    OffsetStep(c.mults, l);
  }

  /** After layer l every leaf learned so far, and every gate of the layer, is shared. */
  lemma LeafShared(pp: Parties, c: Circuit, r: DealerRandomness, x: map<nat, Elem>, s: State, l: nat, next: map<nat, Vec>, id: nat)
    requires pp.Valid() && Setup(pp, c, r) && HasInputs(c, x) && l < |c.mults|
    requires StateShape(pp, c, s) && ActiveShape(pp, c, next) && id in next
    requires forall g :: g in s.active ==> IsSharing(LeafVec(pp, c, r, s.active, g), pp.t, [Clear(c, x, g)])
    requires s.queue == FDQueue(pp, c, r)[Offset(c.mults, l)..] && |s.queue| >= |c.mults[l]|
    requires LayerReady(c, s.active.Keys, l)
    requires if id in LayerIds(c, l)
             then next[id] == MultShares(pp, c, r, s.active, id, s.queue[IndexOf(c.mults[l], id)])
             else id in s.active && next[id] == s.active[id]
    ensures IsSharing(LeafVec(pp, c, r, next, id), pp.t, [Clear(c, x, id)])
  {
    hide IsSharing, FDQueue, Offset, DealerShape, Clear, MultShares, FDRow, InputsListed, OutputsListed, Topological, OperandsKnown;
    if id in LayerIds(c, l) {
      var p := IndexOf(c.mults[l], id);
      QueueAligned(pp, c, r, l, p);
      assert OperandsKnown(c, s.active.Keys, id);
      GateShared(pp, c, r, x, s.active, id, s.queue[p], LeafVec(pp, c, r, next, id));
    } else {
      assert LeafVec(pp, c, r, next, id) == LeafVec(pp, c, r, s.active, id);
    }
  }

  lemma LayerKeepsLearned(pp: Parties, c: Circuit, r: DealerRandomness, x: map<nat, Elem>, s: State, l: nat)
    requires pp.Valid() && Setup(pp, c, r) && HasInputs(c, x) && l < |c.mults|
    requires Learned(pp, c, r, x, l, s.active) && StateShape(pp, c, s)
    requires s.queue == FDQueue(pp, c, r)[Offset(c.mults, l)..] && |s.queue| >= |c.mults[l]|
    requires LayerReady(c, s.active.Keys, l)
    ensures Learned(pp, c, r, x, l + 1, RunLayer(pp, c, r, s, l).value.active)
  {
    hide IsSharing, FDQueue, Offset, DealerShape, LearnedAfter, Clear, LeafVec, MultShares, LayerReady;
    var next := RunLayer(pp, c, r, s, l).value.active;
    LayerKeys(c, l, s.active.Keys);
    forall id | id in next ensures IsSharing(LeafVec(pp, c, r, next, id), pp.t, [Clear(c, x, id)]) {
      LeafShared(pp, c, r, x, s, l, next, id);
    }
  }

  lemma LayerReadyExactly(c: Circuit, dom: set<nat>, l: nat)
    requires WellFormed(c) && l < |c.mults| && LearnedAfter(c, l, dom)
    ensures LayerReady(c, dom, l) <==> LayerReads(c, l)
  {
    hide LearnedAfter, Known, Level;
    forall p | 0 <= p < |c.mults[l]|
      ensures OperandsKnown(c, dom, c.mults[l][p]) <==>
              Level(c, c.gates[c.mults[l][p]].left) <= l && Level(c, c.gates[c.mults[l][p]].right) <= l
    {
      KnownByLevel(c, l, dom, c.gates[c.mults[l][p]].left);
      KnownByLevel(c, l, dom, c.gates[c.mults[l][p]].right);
    }
  }

  /** One layer runs exactly when it only reads earlier layers, and then keeps the invariant. */
  lemma LayerRunsExactly(pp: Parties, c: Circuit, r: DealerRandomness, x: map<nat, Elem>, s: State, l: nat)
    requires pp.Valid() && Setup(pp, c, r) && HasInputs(c, x) && l < |c.mults|
    requires Learned(pp, c, r, x, l, s.active) && StateShape(pp, c, s)
    requires s.queue == FDQueue(pp, c, r)[Offset(c.mults, l)..] && |s.queue| >= |c.mults[l]|
    ensures RunLayer(pp, c, r, s, l).Some? <==> LayerReads(c, l)
    ensures RunLayer(pp, c, r, s, l).Some? ==> Learned(pp, c, r, x, l + 1, RunLayer(pp, c, r, s, l).value.active)
  {
    hide Learned, LayerReads, LayerReady, FDQueue, Offset, DealerShape, RunLayer;
    LearnedKeys(pp, c, r, x, l, s.active);
    LayerReadyExactly(c, s.active.Keys, l);
    if LayerReady(c, s.active.Keys, l) {
      LayerKeepsLearned(pp, c, r, x, s, l);
    }
  }

  lemma {:induction false} LayersRunExactly(pp: Parties, c: Circuit, r: DealerRandomness, x: map<nat, Elem>, layers: nat)
    requires pp.Valid() && Setup(pp, c, r) && HasInputs(c, x) && layers <= |c.mults|
    ensures RunLayers(pp, c, r, x, layers).Some? <==> forall l :: 0 <= l < layers ==> LayerReads(c, l)
    ensures RunLayers(pp, c, r, x, layers).Some? ==>
              Learned(pp, c, r, x, layers, RunLayers(pp, c, r, x, layers).value.active)
  {
    hide Learned, LayerReads, HasInputs, LearnInputs, FDQueue, Offset, WellFormed, DealerShape, RunLayer, StateShape;
    if layers == 0 {
      InputsLearned(pp, c, r, x);
    } else {
      var l := layers - 1;
      LayersRunExactly(pp, c, r, x, l);
      if RunLayers(pp, c, r, x, l).Some? {
        QueueStep(pp, c, r, RunLayers(pp, c, r, x, l).value.queue, l);
        LayerRunsExactly(pp, c, r, x, RunLayers(pp, c, r, x, l).value, l);
      }
    }
  }

  lemma LayerGoesThrough(pp: Parties, c: Circuit, r: DealerRandomness, s: State, l: nat)
    requires Setup(pp, c, r) && l < |c.mults| && StateShape(pp, c, s) && |s.queue| >= |c.mults[l]| && LearnedAfter(c, l, s.active.Keys)
    ensures RunLayer(pp, c, r, s, l).Some? <==> LayerReads(c, l)
    ensures RunLayer(pp, c, r, s, l).Some? ==> LearnedAfter(c, l + 1, RunLayer(pp, c, r, s, l).value.active.Keys)
  {
    hide LayerReads, LayerReady, DealerShape, LearnedAfter, RunLayer;
    LayerReadyExactly(c, s.active.Keys, l);
    LayerKeys(c, l, s.active.Keys);
  }

  /** For every n > 2t, whatever the shares are worth: which layers run, and what is learned after. */
  lemma {:induction false} LayersGoThrough(pp: Parties, c: Circuit, r: DealerRandomness, x: map<nat, Elem>, layers: nat)
    requires Setup(pp, c, r) && HasInputs(c, x) && layers <= |c.mults|
    ensures RunLayers(pp, c, r, x, layers).Some? <==> forall l :: 0 <= l < layers ==> LayerReads(c, l)
    ensures RunLayers(pp, c, r, x, layers).Some? ==> LearnedAfter(c, layers, RunLayers(pp, c, r, x, layers).value.active.Keys)
  {
    hide LayerReads, HasInputs, FDQueue, Offset, InputsListed, OutputsListed, Topological, DealerShape, StateShape, RunLayer;
    if layers > 0 {
      hide LearnedAfter;
      var l := layers - 1;
      LayersGoThrough(pp, c, r, x, l);
      if RunLayers(pp, c, r, x, l).Some? {
        var s := RunLayers(pp, c, r, x, l).value;
        QueueStep(pp, c, r, s.queue, l);
        LayerGoesThrough(pp, c, r, s, l);
      }
    }
  }

  lemma LearnedKeys(pp: Parties, c: Circuit, r: DealerRandomness, x: map<nat, Elem>, layers: nat, active: map<nat, Vec>)
    requires Setup(pp, c, r) && HasInputs(c, x) && Learned(pp, c, r, x, layers, active)
    ensures LearnedAfter(c, layers, active.Keys) && ActiveShape(pp, c, active)
    ensures forall g :: g in active ==> IsSharing(LeafVec(pp, c, r, active, g), pp.t, [Clear(c, x, g)])
  {
  }

  // ---- The silent parties ----

  lemma {:induction false} KnownMonotone(c: Circuit, dom: set<nat>, more: set<nat>, id: nat)
    requires Topological(c) && id < |c.gates| && dom <= more && Known(c, dom, id)
    ensures Known(c, more, id)
    decreases id
  {
    match c.gates[id]
    case InputGate(_) =>
    case AddGate(l, r) => KnownMonotone(c, dom, more, l); KnownMonotone(c, dom, more, r);
    case MultGate(_, _) =>
    case OutputGate(_, l) => KnownMonotone(c, dom, more, l);
  }

  function EarlierLeaves(c: Circuit, l: nat): set<nat>
    requires |c.layerOf| == |c.gates|
  {
    set id | 0 <= id < |c.gates| && IsLeaf(c, id) && (c.gates[id].InputGate? || c.layerOf[id] < l)
  }

  lemma {:induction false} FlattenPrefix(ss: seq<seq<nat>>, l: nat)
    requires l <= |ss|
    ensures Flatten(ss)[..Offset(ss, l)] == Flatten(ss[..l])
    decreases |ss|
  {
    if l < |ss| {
      var m := |ss| - 1;
      FlattenPrefix(ss[..m], l);
      assert ss[..m][..l] == ss[..l];
      PrefixShorter(ss[..m], l);
    } else {
      assert ss[..l] == ss;
    }
  }

  lemma EarlierDone(c: Circuit, l: nat, p: nat)
    requires WellFormed(c) && l < |c.mults| && p < |c.mults[l]|
    ensures EarlierLeaves(c, l) <= DoneBefore(c, l, p)
  {
    FlattenPrefix(c.mults, l);
    forall id | id in EarlierLeaves(c, l) ensures id in DoneBefore(c, l, p) {
      if c.gates[id].MultGate? {
        var m := c.layerOf[id];
        assert id in c.mults[m] && c.mults[..l][m] == c.mults[m];
        assert id in Flatten(c.mults[..l]);
      }
    }
  }

  lemma SilentGoesThrough(c: Circuit)
    requires WellFormed(c) && WellLayered(c)
    ensures SilentReady(c)
  {
    hide Known, DoneBefore, Level;
    forall l, p | 0 <= l < |c.mults| && 0 <= p < |c.mults[l]|
      ensures OperandsKnown(c, DoneBefore(c, l, p), c.mults[l][p])
    {
      var g := c.gates[c.mults[l][p]];
      var early := EarlierLeaves(c, l);
      EarlierDone(c, l, p);
      KnownByLevel(c, l, early, g.left);
      KnownByLevel(c, l, early, g.right);
      KnownMonotone(c, early, DoneBefore(c, l, p), g.left);
      KnownMonotone(c, early, DoneBefore(c, l, p), g.right);
    }
  }

  /** DN07 is correct, end to end, for n = 2t + 1: for every circuit, all inputs and all randomness
      the run completes exactly when the circuit is well layered, and every owner then obtains the
      value of the cleartext evaluation of each of its output gates. */
  lemma DN07IsCorrect(pp: Parties, c: Circuit, r: DealerRandomness, x: map<nat, Elem>, o: nat, p: nat)
    requires pp.Valid() && Setup(pp, c, r) && HasInputs(c, x) && o < |c.outputs| && p < |c.outputs[o]|
    ensures RunProtocol(pp, c, r, x, o, p).Some? <==> WellLayered(c)
    ensures WellLayered(c) ==> RunProtocol(pp, c, r, x, o, p) == Some(Clear(c, x, c.outputs[o][p]))
  {
    hide Learned, RunLayers, LayerReads, WellLayered, Level, Clear, SilentReady, IsSharing, ReconstructAt, WireShare, DealerShape, LeafVec;
    var depth := |c.mults|;
    var id := c.outputs[o][p];
    LayersRunExactly(pp, c, r, x, depth);
    WellLayeredByLayers(c);
    if WellLayered(c) {
      SilentGoesThrough(c);
      var active := RunLayers(pp, c, r, x, depth).value.active;
      LearnedKeys(pp, c, r, x, depth, active);
      LevelAtMostDepth(c, id);
      KnownByLevel(c, depth, active.Keys, id);
      WireSharing(pp, c, r, x, active, id);
      PrefixReconstruct(WireVec(pp, c, r, active, id), pp.t, Clear(c, x, id), pp.t + 1);
      var firsts := seq(pp.t + 1, i requires 0 <= i < pp.t + 1 => WireShare(pp, c, r, active, i, id));
      assert firsts == WireVec(pp, c, r, active, id)[..pp.t + 1];
    }
  }
}
