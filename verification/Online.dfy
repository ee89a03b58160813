/** The online phase of TurboPack (online.cc, mult_gate.cc) for all parties in lockstep, and the
    end-to-end theorems: what every owner obtains on any circuit, and that it is the cleartext value
    of its output gates when no addition reads an output gate. */
module Online {
  import opened Field
  import opened Packed
  import opened Combine
  import opened FIPrep
  import opened Triples
  import opened Batch
  import opened Circuits
  import opened Mapping
  import opened TurboPack
  import opened Wrappers

  // ---- Input phase ----

  /** The lambda the owner learned for its p-th input gate. */
  function InputMask(pp: Params, c: Circuit, r: Randomness, o: nat, p: nat): Elem
    requires Setup(pp, c, r) && o < |c.inputs| && p < |c.inputs[o]|
  {
    GateInBatch(c.inputs[o], pp.k, p);
    BatchTotalMonotone(c.inputs, pp.k, o, |c.inputs|);
    var b := BatchIndex(p, pp.k);
    OpenedMasks(pp, c, r, BatchAt(c.inputs[o], pp.k, b), BatchTotal(c.inputs, pp.k, o) + b)[SlotIndex(p, pp.k)]
  }

  /** The owner's message to P1 for input gate id. */
  function InputMu(pp: Params, c: Circuit, r: Randomness, x: map<nat, Elem>, id: nat): Elem
    requires Setup(pp, c, r) && HasInputs(c, x) && id < |c.gates| && c.gates[id].InputGate?
  {
    var o := c.gates[id].owner;
    Sub(x[id], InputMask(pp, c, r, o, IndexOf(c.inputs[o], id)))
  }

  function LearnInputs(pp: Params, c: Circuit, r: Randomness, x: map<nat, Elem>): (m: map<nat, Elem>)
    requires Setup(pp, c, r) && HasInputs(c, x)
    ensures m.Keys == InputIds(c)
  {
    map id | id in InputIds(c) :: InputMu(pp, c, r, x, id)
  }

  // ---- Multiplication layers ----

  /** GetMu at P1: None where the code throws because a value has not been learned. */
  function GetMu(c: Circuit, learned: map<nat, Elem>, s: Slot): Option<Elem>
    requires Topological(c) && (s.Pad? || s.id < |c.gates|)
  {
    match s
    case Pad => Some(0)
    case Wire(id) => if Known(c, learned.Keys, id) then Some(Spread(c, learned, id)) else None
  }

  predicate AllAvailable(c: Circuit, learned: map<nat, Elem>, batch: seq<Slot>)
    requires Topological(c) && SlotsOk(c, batch)
  {
    forall j :: 0 <= j < |batch| ==> GetMu(c, learned, batch[j]).Some?
  }

  function Mus(c: Circuit, learned: map<nat, Elem>, batch: seq<Slot>): (v: Vec)
    requires Topological(c) && SlotsOk(c, batch) && AllAvailable(c, learned, batch)
    ensures |v| == |batch|
  {
    seq(|batch|, j requires 0 <= j < |batch| => GetMu(c, learned, batch[j]).value)
  }

  /** Whether P1 can send every batch of the layer. */
  predicate LayerAvailable(c: Circuit, k: nat, learned: map<nat, Elem>, l: nat)
    requires WellFormed(c) && k > 0 && l < |c.mults|
  {
    forall b :: 0 <= b < BatchCount(|c.mults[l]|, k) ==>
      AllAvailable(c, learned, Lefts(c, MultBatch(c, k, l, b))) && AllAvailable(c, learned, Rights(c, MultBatch(c, k, l, b)))
  }

  /** What P1 learns for batch b of layer l. */
  function BatchMu(pp: Params, c: Circuit, r: Randomness, learned: map<nat, Elem>, l: nat, b: nat): (v: Vec)
    requires Setup(pp, c, r) && l < |c.mults| && b < BatchCount(|c.mults[l]|, pp.k)
    requires LayerAvailable(c, pp.k, learned, l)
    ensures |v| == pp.k
  {
    var batch := MultBatch(c, pp.k, l, b);
    OnlineBatch(pp, PrepFor(pp, c, r, l, b), Mus(c, learned, Lefts(c, batch)), Mus(c, learned, Rights(c, batch)))
  }

  function GateMu(pp: Params, c: Circuit, r: Randomness, learned: map<nat, Elem>, l: nat, p: nat): Elem
    requires Setup(pp, c, r) && l < |c.mults| && p < |c.mults[l]|
    requires LayerAvailable(c, pp.k, learned, l)
  {
    GateInBatch(c.mults[l], pp.k, p);
    BatchMu(pp, c, r, learned, l, BatchIndex(p, pp.k))[SlotIndex(p, pp.k)]
  }

  /** One layer: None if some GetMu throws, otherwise the gates of the layer are learned as well. */
  function RunLayer(pp: Params, c: Circuit, r: Randomness, learned: map<nat, Elem>, l: nat): Option<map<nat, Elem>>
    requires Setup(pp, c, r) && l < |c.mults|
  {
    if LayerAvailable(c, pp.k, learned, l) then
      Some(learned + map id | id in LayerIds(c, l) :: GateMu(pp, c, r, learned, l, IndexOf(c.mults[l], id)))
    else None
  }

  /** The input phase and the first `layers` multiplication layers. */
  function RunLayers(pp: Params, c: Circuit, r: Randomness, x: map<nat, Elem>, layers: nat): Option<map<nat, Elem>>
    requires Setup(pp, c, r) && HasInputs(c, x) && layers <= |c.mults|
  {
    if layers == 0 then Some(LearnInputs(pp, c, r, x))
    else
      match RunLayers(pp, c, r, x, layers - 1)
      case None => None
      case Some(learned) => RunLayer(pp, c, r, learned, layers - 1)
  }

  // ---- Output phase ----

  function OutputMask(pp: Params, c: Circuit, r: Randomness, o: nat, p: nat): Elem
    requires Setup(pp, c, r) && o < |c.outputs| && p < |c.outputs[o]|
  {
    GateInBatch(c.outputs[o], pp.k, p);
    BatchTotalMonotone(c.outputs, pp.k, o, |c.outputs|);
    var b := BatchIndex(p, pp.k);
    OpenedMasks(pp, c, r, BatchAt(c.outputs[o], pp.k, b),
                BatchTotal(c.inputs, pp.k, |c.inputs|) + BatchTotal(c.outputs, pp.k, o) + b)[SlotIndex(p, pp.k)]
  }

  /** The value owner o obtains for its p-th output gate, or None if the run throws. */
  function RunProtocol(pp: Params, c: Circuit, r: Randomness, x: map<nat, Elem>, o: nat, p: nat): Option<Elem>
    requires Setup(pp, c, r) && HasInputs(c, x) && o < |c.outputs| && p < |c.outputs[o]|
  {
    match RunLayers(pp, c, r, x, |c.mults|)
    case None => None
    case Some(learned) =>
      match GetMu(c, learned, Wire(c.outputs[o][p]))
      case None => None
      case Some(mu) => Some(Add(OutputMask(pp, c, r, o, p), mu))
  }

  // ---- Correctness ----

  /** The invariant after each layer: exactly the inputs and the gates of the layers run so far are
      learned, and every learned value plus its mask is the value the gate carries. */
  ghost predicate Learned(pp: Params, c: Circuit, r: Randomness, x: map<nat, Elem>, layers: nat, learned: map<nat, Elem>)
    requires Setup(pp, c, r) && HasInputs(c, x)
  {
    && LearnedAfter(c, layers, learned.Keys)
    && forall id :: IsLeaf(c, id) && id in learned ==>
         Add(learned[id], MaskLeaves(pp, c, r)[id]) == Carried(c, x, MaskLeaves(pp, c, r), id)
  }

  lemma LeafMask(pp: Params, c: Circuit, r: Randomness, id: nat)
    requires Setup(pp, c, r) && IsLeaf(c, id)
    ensures id in MaskLeaves(pp, c, r) && Mask(pp, c, r, id) == MaskLeaves(pp, c, r)[id]
  {
  }

  lemma InputMaskCorrect(pp: Params, c: Circuit, r: Randomness, o: nat, p: nat)
    requires Setup(pp, c, r) && o < |c.inputs| && p < |c.inputs[o]|
    ensures InputMask(pp, c, r, o, p) == Mask(pp, c, r, c.inputs[o][p])
  {
    hide OpenedMasks, Mask, MappedMask, WireVec;
    LeafSharing(pp, c, r, c.inputs[o][p]);
    GateInBatch(c.inputs[o], pp.k, p);
    BatchTotalMonotone(c.inputs, pp.k, o, |c.inputs|);
    var b := BatchIndex(p, pp.k);
    MasksOpened(pp, c, r, BatchAt(c.inputs[o], pp.k, b), BatchTotal(c.inputs, pp.k, o) + b);
  }

  lemma OutputMaskCorrect(pp: Params, c: Circuit, r: Randomness, o: nat, p: nat)
    requires Setup(pp, c, r) && o < |c.outputs| && p < |c.outputs[o]|
    ensures OutputMask(pp, c, r, o, p) == MappedMask(pp, c, r, c.outputs[o][p])
  {
    hide OpenedMasks, MappedMask;
    GateInBatch(c.outputs[o], pp.k, p);
    BatchTotalMonotone(c.outputs, pp.k, o, |c.outputs|);
    var b := BatchIndex(p, pp.k);
    MasksOpened(pp, c, r, BatchAt(c.outputs[o], pp.k, b),
                BatchTotal(c.inputs, pp.k, |c.inputs|) + BatchTotal(c.outputs, pp.k, o) + b);
  }

  lemma InputsLearned(pp: Params, c: Circuit, r: Randomness, x: map<nat, Elem>)
    requires Setup(pp, c, r) && HasInputs(c, x)
    ensures Learned(pp, c, r, x, 0, LearnInputs(pp, c, r, x))
  {
    hide InputMask, Mask, MaskLeaves;
    var m := LearnInputs(pp, c, r, x);
    forall id: nat | IsLeaf(c, id) && id in m
      ensures Add(m[id], MaskLeaves(pp, c, r)[id]) == Carried(c, x, MaskLeaves(pp, c, r), id)
    {
      var o := c.gates[id].owner;
      InputMaskCorrect(pp, c, r, o, IndexOf(c.inputs[o], id));
      LeafMask(pp, c, r, id);
      SubZero(x[id], Mask(pp, c, r, id));
    }
  }

  /** On every available wire, mu plus the true lambda is the carried value, and mu plus the lambda
      that was mapped is what the wire is read as. */
  lemma WireUnmasks(pp: Params, c: Circuit, r: Randomness, x: map<nat, Elem>, layers: nat, learned: map<nat, Elem>, id: nat)
    requires Setup(pp, c, r) && HasInputs(c, x) && Learned(pp, c, r, x, layers, learned)
    requires id < |c.gates| && Known(c, learned.Keys, id)
    ensures Add(Spread(c, learned, id), Mask(pp, c, r, id)) == Carried(c, x, MaskLeaves(pp, c, r), id)
    ensures Add(Spread(c, learned, id), MappedMask(pp, c, r, id)) == ReadAs(c, x, MaskLeaves(pp, c, r), id)
  {
    hide MaskLeaves, IndOrder, Carried, MappedMask, MappedAt, MissedAt;
    var mask := MaskLeaves(pp, c, r);
    SpreadUnmasks(c, x, learned, mask, id);
    EntriesAre(pp, c, r, id);
    MappedPlusMissed(c, mask, id);
    TakeAway(Spread(c, learned, id), MappedAt(c, mask, id), MissedAt(c, mask, id));
  }

  lemma TakeAway(a: Elem, b: Elem, d: Elem)
    ensures Add(a, b) == Sub(Add(a, Add(b, d)), d)
  {
  }

  lemma LayerAvailableExactly(c: Circuit, k: nat, learned: map<nat, Elem>, l: nat)
    requires WellFormed(c) && k > 0 && l < |c.mults| && LearnedAfter(c, l, learned.Keys)
    ensures LayerAvailable(c, k, learned, l) <==> LayerReads(c, l)
  {
    if LayerReads(c, l) {
      forall b | 0 <= b < BatchCount(|c.mults[l]|, k)
        ensures AllAvailable(c, learned, Lefts(c, MultBatch(c, k, l, b)))
        ensures AllAvailable(c, learned, Rights(c, MultBatch(c, k, l, b)))
      {
        BatchAvailable(c, k, learned, l, b);
      }
    }
    if LayerAvailable(c, k, learned, l) {
      forall p | 0 <= p < |c.mults[l]|
        ensures Level(c, c.gates[c.mults[l][p]].left) <= l && Level(c, c.gates[c.mults[l][p]].right) <= l
      {
        GateAvailable(c, k, learned, l, p);
      }
    }
  }

  lemma BatchAvailable(c: Circuit, k: nat, learned: map<nat, Elem>, l: nat, b: nat)
    requires WellFormed(c) && k > 0 && l < |c.mults| && LearnedAfter(c, l, learned.Keys) && LayerReads(c, l)
    ensures AllAvailable(c, learned, Lefts(c, MultBatch(c, k, l, b)))
    ensures AllAvailable(c, learned, Rights(c, MultBatch(c, k, l, b)))
  {
    hide LearnedAfter, Known, Spread, Level;
    var batch := MultBatch(c, k, l, b);
    forall j | 0 <= j < k
      ensures GetMu(c, learned, Lefts(c, batch)[j]).Some? && GetMu(c, learned, Rights(c, batch)[j]).Some?
    {
      if batch[j].Wire? {
        var g := c.gates[batch[j].id];
        KnownByLevel(c, l, learned.Keys, g.left);
        KnownByLevel(c, l, learned.Keys, g.right);
      }
    }
  }

  lemma GateAvailable(c: Circuit, k: nat, learned: map<nat, Elem>, l: nat, p: nat)
    requires WellFormed(c) && k > 0 && l < |c.mults| && p < |c.mults[l]| && LearnedAfter(c, l, learned.Keys)
    requires LayerAvailable(c, k, learned, l)
    ensures Level(c, c.gates[c.mults[l][p]].left) <= l && Level(c, c.gates[c.mults[l][p]].right) <= l
  {
    hide LearnedAfter, Known, Spread, Level;
    GateInBatch(c.mults[l], k, p);
    var b, j := BatchIndex(p, k), SlotIndex(p, k);
    var batch := MultBatch(c, k, l, b);
    assert batch[j] == Wire(c.mults[l][p]);
    var g := c.gates[c.mults[l][p]];
    assert GetMu(c, learned, Lefts(c, batch)[j]).Some? && GetMu(c, learned, Rights(c, batch)[j]).Some?;
    KnownByLevel(c, l, learned.Keys, g.left);
    KnownByLevel(c, l, learned.Keys, g.right);
  }

  /** What P1 learns for a multiplication gate unmasks to the product of its operands as read. */
  lemma GateMuCorrect(pp: Params, c: Circuit, r: Randomness, x: map<nat, Elem>, learned: map<nat, Elem>, l: nat, p: nat)
    requires Setup(pp, c, r) && HasInputs(c, x) && l < |c.mults| && p < |c.mults[l]|
    requires Learned(pp, c, r, x, l, learned) && LayerAvailable(c, pp.k, learned, l)
    ensures Add(GateMu(pp, c, r, learned, l, p), Mask(pp, c, r, c.mults[l][p])) == Carried(c, x, MaskLeaves(pp, c, r), c.mults[l][p])
  {
    hide Learned, Mask, MappedMask, MaskLeaves, ReadAs, WireVec, PrepFor, Spread, Known, IndOrder, Level;
    LeafSharing(pp, c, r, c.mults[l][p]);
    GateInBatch(c.mults[l], pp.k, p);
    var b, j := BatchIndex(p, pp.k), SlotIndex(p, pp.k);
    var batch := MultBatch(c, pp.k, l, b);
    assert batch[j] == Wire(c.mults[l][p]);
    var id := c.mults[l][p];
    var g := c.gates[id];
    var muA, muB := Mus(c, learned, Lefts(c, batch)), Mus(c, learned, Rights(c, batch));
    var la, lb, lc := SlotMasks(pp, c, r, Lefts(c, batch)), SlotMasks(pp, c, r, Rights(c, batch)), SlotMasks(pp, c, r, batch);
    PrepForReady(pp, c, r, l, b);
    OnlineBatchCorrect(pp, PrepFor(pp, c, r, l, b), la, lb, lc, muA, muB);
    assert GetMu(c, learned, Lefts(c, batch)[j]).Some? && GetMu(c, learned, Rights(c, batch)[j]).Some?;
    WireUnmasks(pp, c, r, x, l, learned, g.left);
    WireUnmasks(pp, c, r, x, l, learned, g.right);
    SubZero(Mul(ReadAs(c, x, MaskLeaves(pp, c, r), g.left), ReadAs(c, x, MaskLeaves(pp, c, r), g.right)), Mask(pp, c, r, id));
  }

  lemma LayerValue(pp: Params, c: Circuit, r: Randomness, x: map<nat, Elem>, learned: map<nat, Elem>, l: nat, id: nat)
    requires Setup(pp, c, r) && HasInputs(c, x) && l < |c.mults|
    requires Learned(pp, c, r, x, l, learned) && LayerAvailable(c, pp.k, learned, l)
    requires IsLeaf(c, id) && id in RunLayer(pp, c, r, learned, l).value
    ensures Add(RunLayer(pp, c, r, learned, l).value[id], MaskLeaves(pp, c, r)[id]) == Carried(c, x, MaskLeaves(pp, c, r), id)
  {
    hide Mask, MaskLeaves, GateMu, IndOrder, LayerAvailable, Carried, RandomnessShape, CircuitSizes, LearnedAfter;
    if id in LayerIds(c, l) {
      GateMuCorrect(pp, c, r, x, learned, l, IndexOf(c.mults[l], id));
      LeafMask(pp, c, r, id);
    }
  }

  /** The layer invariant is kept by every layer that runs. */
  lemma LayerKeepsLearned(pp: Params, c: Circuit, r: Randomness, x: map<nat, Elem>, learned: map<nat, Elem>, l: nat)
    requires Setup(pp, c, r) && HasInputs(c, x) && l < |c.mults|
    requires Learned(pp, c, r, x, l, learned) && LayerAvailable(c, pp.k, learned, l)
    ensures RunLayer(pp, c, r, learned, l).Some?
    ensures Learned(pp, c, r, x, l + 1, RunLayer(pp, c, r, learned, l).value)
  {
    hide MaskLeaves, GateMu, LayerAvailable, Carried, LearnedAfter, LayerIds, Setup, HasInputs;
    LearnedKeys(pp, c, r, x, l, learned);
    LayerKeys(c, l, learned.Keys);
    var next := RunLayer(pp, c, r, learned, l).value;
    assert next.Keys == learned.Keys + LayerIds(c, l);
    forall id: nat | IsLeaf(c, id) && id in next
      ensures Add(next[id], MaskLeaves(pp, c, r)[id]) == Carried(c, x, MaskLeaves(pp, c, r), id)
    {
      LayerValue(pp, c, r, x, learned, l, id);
    }
  }

  /** The run gets through `layers` layers exactly when these layers only read earlier ones, and
      then the layer invariant holds. */
  lemma {:induction false} LayersRunExactly(pp: Params, c: Circuit, r: Randomness, x: map<nat, Elem>, layers: nat)
    requires Setup(pp, c, r) && HasInputs(c, x) && layers <= |c.mults|
    ensures RunLayers(pp, c, r, x, layers).Some? <==> forall l :: 0 <= l < layers ==> LayerReads(c, l)
    ensures RunLayers(pp, c, r, x, layers).Some? ==>
              Learned(pp, c, r, x, layers, RunLayers(pp, c, r, x, layers).value)
  {
    hide Setup, Learned, LayerReads, LayerAvailable, RunLayer, HasInputs, LearnInputs;
    if layers == 0 {
      InputsLearned(pp, c, r, x);
    } else {
      var l := layers - 1;
      LayersRunExactly(pp, c, r, x, l);
      var before := RunLayers(pp, c, r, x, l);
      if before.Some? {
        LearnedKeys(pp, c, r, x, l, before.value);
        LayerAvailableExactly(c, pp.k, before.value, l);
        RunLayerDomain(pp, c, r, before.value, l);
        if LayerAvailable(c, pp.k, before.value, l) {
          LayerKeepsLearned(pp, c, r, x, before.value, l);
        }
      }
    }
  }

  lemma LearnedKeys(pp: Params, c: Circuit, r: Randomness, x: map<nat, Elem>, layers: nat, learned: map<nat, Elem>)
    requires Setup(pp, c, r) && HasInputs(c, x) && Learned(pp, c, r, x, layers, learned)
    ensures pp.Valid() && WellFormed(c) && LearnedAfter(c, layers, learned.Keys)
  {
  }

  lemma RunLayerDomain(pp: Params, c: Circuit, r: Randomness, learned: map<nat, Elem>, l: nat)
    requires Setup(pp, c, r) && l < |c.mults|
    ensures RunLayer(pp, c, r, learned, l).Some? <==> LayerAvailable(c, pp.k, learned, l)
  {
  }

  /** What TurboPack computes, on every circuit: for all inputs, all randomness of all dealers and all
      admissible parameters the run completes without an exception exactly when the circuit is well
      layered, and then every owner obtains each of its output gates as it is read. */
  lemma TurboPackComputes(pp: Params, c: Circuit, r: Randomness, x: map<nat, Elem>, o: nat, p: nat)
    requires Setup(pp, c, r) && HasInputs(c, x) && o < |c.outputs| && p < |c.outputs[o]|
    ensures RunProtocol(pp, c, r, x, o, p).Some? <==> WellLayered(c)
    ensures WellLayered(c) ==> RunProtocol(pp, c, r, x, o, p) == Some(ReadAs(c, x, MaskLeaves(pp, c, r), c.outputs[o][p]))
  {
    hide Learned, RunLayers, LayerReads, WellLayered, MappedMask, OutputMask, Level, ReadAs, IndOrder, MaskLeaves;
    var depth := |c.mults|;
    var id := c.outputs[o][p];
    LayersRunExactly(pp, c, r, x, depth);
    WellLayeredByLayers(c);
    var run := RunLayers(pp, c, r, x, depth);
    if run.Some? {
      LearnedKeys(pp, c, r, x, depth, run.value);
      LevelAtMostDepth(c, id);
      KnownByLevel(c, depth, run.value.Keys, id);
      WireUnmasks(pp, c, r, x, depth, run.value, id);
      OutputMaskCorrect(pp, c, r, o, p);
      AddCommutes(Spread(c, run.value, id), MappedMask(pp, c, r, id));
    }
  }

  /** TurboPack is correct, end to end, on every circuit in which nothing that is read is missed by
      the mapping: every owner obtains the value of the cleartext evaluation of each of its outputs. */
  lemma TurboPackCorrect(pp: Params, c: Circuit, r: Randomness, x: map<nat, Elem>, o: nat, p: nat)
    requires Setup(pp, c, r) && HasInputs(c, x) && o < |c.outputs| && p < |c.outputs[o]|
    ensures RunProtocol(pp, c, r, x, o, p).Some? <==> WellLayered(c)
    ensures AddsReadNoOutputs(c) ==> ReadsComplete(c)
    ensures WellLayered(c) && ReadsComplete(c) ==> RunProtocol(pp, c, r, x, o, p) == Some(Clear(c, x, c.outputs[o][p]))
  {
    hide WellLayered, RunProtocol, Clear, ReadAs, Carried, MaskLeaves, AddsReadNoOutputs, ReadsComplete, RandomnessShape, Complete;
    TurboPackComputes(pp, c, r, x, o, p);
    if AddsReadNoOutputs(c) { NoOutputsComplete(c); }
    if ReadsComplete(c) {
      assert c.outputs[o][p] < |c.gates|;
      CompleteIsClear(c, x, MaskLeaves(pp, c, r), c.outputs[o][p]);
    }
  }

  /** The value of an output in a run: its wire as it is read, which is the cleartext value when no wire
      that is read is missed by the mapping. */
  ghost predicate Obtains(pp: Params, c: Circuit, r: Randomness, x: map<nat, Elem>, o: nat, p: nat, v: Elem)
    requires Setup(pp, c, r) && HasInputs(c, x) && o < |c.outputs| && p < |c.outputs[o]|
  {
    && v == ReadAs(c, x, MaskLeaves(pp, c, r), c.outputs[o][p])
    && (ReadsComplete(c) ==> v == Clear(c, x, c.outputs[o][p]))
  }

  lemma RunObtains(pp: Params, c: Circuit, r: Randomness, x: map<nat, Elem>, o: nat, p: nat)
    requires Setup(pp, c, r) && HasInputs(c, x) && o < |c.outputs| && p < |c.outputs[o]| && WellLayered(c)
    ensures RunProtocol(pp, c, r, x, o, p).Some? && Obtains(pp, c, r, x, o, p, RunProtocol(pp, c, r, x, o, p).value)
  {
    hide WellLayered, RunProtocol, Clear, ReadAs, MaskLeaves, AddsReadNoOutputs, ReadsComplete, RandomnessShape;
    TurboPackComputes(pp, c, r, x, o, p);
    TurboPackCorrect(pp, c, r, x, o, p);
  }

  lemma AddCommutes(a: Elem, b: Elem)
    ensures Add(a, b) == Add(b, a)
  {
  }
}
