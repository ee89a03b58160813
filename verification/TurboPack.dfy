/** The TurboPack protocol on a whole circuit: function-independent preprocessing, mapping to
    gates and batches, function-dependent preprocessing and the online phase, for all parties. */
module TurboPack {
  import opened Field
  import opened Packed
  import opened Combine
  import opened FIPrep
  import opened Triples
  import opened Batch
  import opened Circuits
  import opened Mapping
  import opened Wrappers

  // ---- Mapping preprocessing to the circuit (GenCorrelator, MapCorrToCircuit) ----

  function CircuitSizes(c: Circuit, k: nat): Sizes
    requires k > 0
  {
    Sizes(|IndOrder(c)|,
          BatchTotal(c.mults, k, |c.mults|),
          BatchTotal(c.inputs, k, |c.inputs|) + BatchTotal(c.outputs, k, |c.outputs|))
  }

  /** A circuit, parameters and the randomness of all dealers. */
  predicate Setup(pp: Params, c: Circuit, r: Randomness) {
    pp.Valid() && WellFormed(c) && RandomnessShape(pp, CircuitSizes(c, pp.k), r)
  }

  /** Party i's shares of the masks of all leaves. */
  function ShareLeaves(pp: Params, c: Circuit, r: Randomness, i: nat): (m: map<nat, Elem>)
    requires Setup(pp, c, r) && i < pp.n
    ensures m.Keys == LeafIds(c)
  {
    map id | id in LeafIds(c) :: HeldBy(pp, CircuitSizes(c, pp.k), r, i).ind[IndIndex(c, id)]
  }

  lemma IndInRange(pp: Params, c: Circuit, r: Randomness, x: nat)
    requires Setup(pp, c, r) && x < |IndOrder(c)|
    ensures x < Total(|r.ind|, pp.t)
  {
    AllBlocksCover(pp, CircuitSizes(c, pp.k));
  }

  /** The masks of all leaves. */
  function MaskLeaves(pp: Params, c: Circuit, r: Randomness): (m: map<nat, Elem>)
    requires Setup(pp, c, r)
    ensures m.Keys == LeafIds(c)
  {
    map id | id in LeafIds(c) :: IndInRange(pp, c, r, IndIndex(c, id)); IndSecret(pp, r.ind, IndIndex(c, id))
  }

  /** lambda of a wire: the sum of the masks of its leaves, which is what mu masks it with. */
  function Mask(pp: Params, c: Circuit, r: Randomness, id: nat): Elem
    requires Setup(pp, c, r) && id < |c.gates|
  {
    AllKnown(c, id);
    Spread(c, MaskLeaves(pp, c, r), id)
  }

  /** The mask the shares in mMapIndShrs hide: what the four passes make of the leaves' masks. */
  function MappedMask(pp: Params, c: Circuit, r: Randomness, id: nat): Elem
    requires Setup(pp, c, r) && id < |c.gates|
  {
    Entry(Populated(c, MaskLeaves(pp, c, r)), id)
  }

  /** Party i's entry of mMapIndShrs for the wire. */
  function WireShare(pp: Params, c: Circuit, r: Randomness, i: nat, id: nat): Elem
    requires Setup(pp, c, r) && id < |c.gates| && i < pp.n
  {
    Entry(Populated(c, ShareLeaves(pp, c, r, i)), id)
  }

  /** The entries by recursion over the operands. */
  lemma EntriesAre(pp: Params, c: Circuit, r: Randomness, id: nat)
    requires Setup(pp, c, r) && id < |c.gates|
    ensures MappedMask(pp, c, r, id) == MappedAt(c, MaskLeaves(pp, c, r), id)
    ensures forall i :: 0 <= i < pp.n ==> WireVec(pp, c, r, id)[i] == MappedAt(c, ShareLeaves(pp, c, r, i), id)
  {
    hide MappedAt, Populated, MaskLeaves, ShareLeaves, RandomnessShape, CircuitSizes, InputsListed, MultsListed, OutputsListed;
    PopulatedGives(c, MaskLeaves(pp, c, r), id);
    forall i | 0 <= i < pp.n ensures WireVec(pp, c, r, id)[i] == MappedAt(c, ShareLeaves(pp, c, r, i), id) {
      PopulatedGives(c, ShareLeaves(pp, c, r, i), id);
    }
  }

  function WireVec(pp: Params, c: Circuit, r: Randomness, id: nat): (s: Vec)
    requires Setup(pp, c, r) && id < |c.gates|
    ensures |s| == pp.n
  {
    seq(pp.n, i requires 0 <= i < pp.n => WireShare(pp, c, r, i, id))
  }

  /** For every wire the parties' entries are a sharing of degree n - k of k copies of its mapped
      mask. */
  lemma {:induction false} WireSharing(pp: Params, c: Circuit, r: Randomness, id: nat)
    requires Setup(pp, c, r) && id < |c.gates|
    ensures IsSharing(WireVec(pp, c, r, id), pp.n - pp.k, Const(MappedMask(pp, c, r, id), pp.k))
    decreases id, 0
  {
    hide IsSharing, IndSecret, HeldBy, IndOrder, RandomnessShape, CircuitSizes, InputsListed, MultsListed, OutputsListed,
      WireVec, MappedMask, MaskLeaves, ShareLeaves;
    SetupParams(pp, c, r);
    EntriesAre(pp, c, r, id);
    match c.gates[id]
    case AddGate(l, q) =>
      ReadSharing(pp, c, r, l);
      ReadSharing(pp, c, r, q);
      AddSharing(pp, c, r, id);
    case OutputGate(_, l) =>
      WireSharing(pp, c, r, l);
      EntriesAre(pp, c, r, l);
      assert WireVec(pp, c, r, id) == WireVec(pp, c, r, l);
    case _ =>
      LeafSharing(pp, c, r, id);
  }

  /** The entries an addition reads for an operand: none for an output gate. */
  function ReadVec(pp: Params, c: Circuit, r: Randomness, g: nat): (s: Vec)
    requires Setup(pp, c, r) && g < |c.gates|
    ensures |s| == pp.n
  {
    if c.gates[g].OutputGate? then Const(0, pp.n) else WireVec(pp, c, r, g)
  }

  function ReadMask(pp: Params, c: Circuit, r: Randomness, g: nat): Elem
    requires Setup(pp, c, r) && g < |c.gates|
  {
    if c.gates[g].OutputGate? then 0 else MappedMask(pp, c, r, g)
  }

  lemma {:induction false} ReadSharing(pp: Params, c: Circuit, r: Randomness, g: nat)
    requires Setup(pp, c, r) && g < |c.gates|
    ensures IsSharing(ReadVec(pp, c, r, g), pp.n - pp.k, Const(ReadMask(pp, c, r, g), pp.k))
    decreases g, 1
  {
    hide IsSharing, WireVec, MappedMask, RandomnessShape, WellFormed;
    if c.gates[g].OutputGate? {
      ZeroSharing(pp.n, pp.k, pp.n - pp.k);
    } else {
      WireSharing(pp, c, r, g);
    }
  }

  lemma AddSharing(pp: Params, c: Circuit, r: Randomness, id: nat)
    requires Setup(pp, c, r) && id < |c.gates| && c.gates[id].AddGate?
    requires IsSharing(ReadVec(pp, c, r, c.gates[id].left), pp.n - pp.k, Const(ReadMask(pp, c, r, c.gates[id].left), pp.k))
    requires IsSharing(ReadVec(pp, c, r, c.gates[id].right), pp.n - pp.k, Const(ReadMask(pp, c, r, c.gates[id].right), pp.k))
    ensures IsSharing(WireVec(pp, c, r, id), pp.n - pp.k, Const(MappedMask(pp, c, r, id), pp.k))
  {
    hide IsSharing, RandomnessShape, CircuitSizes, InputsListed, MultsListed, OutputsListed, WireVec, MappedMask, MaskLeaves, ShareLeaves, Add;
    var l, q := c.gates[id].left, c.gates[id].right;
    EntriesAre(pp, c, r, id);
    EntriesAre(pp, c, r, l);
    EntriesAre(pp, c, r, q);
    SumSharing(ReadVec(pp, c, r, l), pp.n - pp.k, Const(ReadMask(pp, c, r, l), pp.k),
               ReadVec(pp, c, r, q), pp.n - pp.k, Const(ReadMask(pp, c, r, q), pp.k));
    assert WireVec(pp, c, r, id) == VAdd(ReadVec(pp, c, r, l), ReadVec(pp, c, r, q));
    assert Const(MappedMask(pp, c, r, id), pp.k) == VAdd(Const(ReadMask(pp, c, r, l), pp.k), Const(ReadMask(pp, c, r, q), pp.k));
  }

  lemma LeafSharing(pp: Params, c: Circuit, r: Randomness, id: nat)
    requires Setup(pp, c, r) && IsLeaf(c, id)
    ensures MappedMask(pp, c, r, id) == Mask(pp, c, r, id)
    ensures IsSharing(WireVec(pp, c, r, id), pp.n - pp.k, Const(Mask(pp, c, r, id), pp.k))
  {
    hide IsSharing, IndSecret, HeldBy, IndOrder, WireVec, MappedMask;
    EntriesAre(pp, c, r, id);
    IndividualCorrect(pp, CircuitSizes(c, pp.k), r, IndIndex(c, id), WireVec(pp, c, r, id));
  }

  // ---- Slots of batches ----

  predicate SlotsOk(c: Circuit, batch: seq<Slot>) {
    forall j :: 0 <= j < |batch| ==> batch[j].Pad? || batch[j].id < |c.gates|
  }

  predicate MultSlots(c: Circuit, batch: seq<Slot>) {
    forall j :: 0 <= j < |batch| ==> batch[j].Pad? || (batch[j].id < |c.gates| && c.gates[batch[j].id].MultGate?)
  }

  /** GetLeft and GetRight; a padding gate is its own operand. */
  function LeftSlot(c: Circuit, s: Slot): Slot
    requires s.Pad? || (s.id < |c.gates| && c.gates[s.id].MultGate?)
  {
    match s
    case Pad => Pad
    case Wire(id) => Wire(c.gates[id].left)
  }

  function RightSlot(c: Circuit, s: Slot): Slot
    requires s.Pad? || (s.id < |c.gates| && c.gates[s.id].MultGate?)
  {
    match s
    case Pad => Pad
    case Wire(id) => Wire(c.gates[id].right)
  }

  function Lefts(c: Circuit, batch: seq<Slot>): (r: seq<Slot>)
    requires Topological(c) && MultSlots(c, batch)
    ensures |r| == |batch| && SlotsOk(c, r)
  {
    seq(|batch|, j requires 0 <= j < |batch| => LeftSlot(c, batch[j]))
  }

  function Rights(c: Circuit, batch: seq<Slot>): (r: seq<Slot>)
    requires Topological(c) && MultSlots(c, batch)
    ensures |r| == |batch| && SlotsOk(c, r)
  {
    seq(|batch|, j requires 0 <= j < |batch| => RightSlot(c, batch[j]))
  }

  /** The share vector of a slot; padding has no entry in mMapIndShrs and reads as 0. */
  function SlotVec(pp: Params, c: Circuit, r: Randomness, s: Slot): (v: Vec)
    requires Setup(pp, c, r) && (s.Pad? || s.id < |c.gates|)
    ensures |v| == pp.n
  {
    match s
    case Pad => Const(0, pp.n)
    case Wire(id) => WireVec(pp, c, r, id)
  }

  function SlotMask(pp: Params, c: Circuit, r: Randomness, s: Slot): Elem
    requires Setup(pp, c, r) && (s.Pad? || s.id < |c.gates|)
  {
    match s
    case Pad => 0
    case Wire(id) => MappedMask(pp, c, r, id)
  }

  function SlotVecs(pp: Params, c: Circuit, r: Randomness, batch: seq<Slot>): (us: seq<Vec>)
    requires Setup(pp, c, r) && SlotsOk(c, batch)
    ensures |us| == |batch| && Rows(us, pp.n)
  {
    seq(|batch|, j requires 0 <= j < |batch| => SlotVec(pp, c, r, batch[j]))
  }

  function SlotMasks(pp: Params, c: Circuit, r: Randomness, batch: seq<Slot>): (v: Vec)
    requires Setup(pp, c, r) && SlotsOk(c, batch)
    ensures |v| == |batch|
  {
    seq(|batch|, j requires 0 <= j < |batch| => SlotMask(pp, c, r, batch[j]))
  }

  lemma SlotSharings(pp: Params, c: Circuit, r: Randomness, batch: seq<Slot>)
    requires Setup(pp, c, r) && SlotsOk(c, batch) && |batch| == pp.k
    ensures WireSharings(pp, SlotVecs(pp, c, r, batch), SlotMasks(pp, c, r, batch))
  {
    hide IsSharing, WireVec, MappedMask, Setup;
    forall j | 0 <= j < pp.k
      ensures IsSharing(SlotVecs(pp, c, r, batch)[j], pp.n - pp.k, Const(SlotMasks(pp, c, r, batch)[j], pp.k))
    {
      match batch[j]
      case Pad => SetupParams(pp, c, r); ZeroSharing(pp.n, pp.k, pp.n - pp.k);
      case Wire(id) => WireSharing(pp, c, r, id);
    }
  }

  lemma SetupParams(pp: Params, c: Circuit, r: Randomness)
    requires Setup(pp, c, r)
    ensures pp.Valid() && WellFormed(c)
  {
  }

  // ---- Function-dependent preprocessing ----

  function MultBatch(c: Circuit, k: nat, l: nat, b: nat): (r: seq<Slot>)
    requires WellFormed(c) && l < |c.mults|
    ensures |r| == k && MultSlots(c, r) && SlotsOk(c, r)
  {
    BatchAt(c.mults[l], k, b)
  }

  /** Batches are numbered layer by layer; every number is in range. */
  function MultIndex(c: Circuit, k: nat, l: nat, b: nat): (x: nat)
    requires k > 0 && l < |c.mults| && b < BatchCount(|c.mults[l]|, k)
    ensures x < CircuitSizes(c, k).mults
  {
    BatchTotalMonotone(c.mults, k, l, |c.mults|);
    BatchTotal(c.mults, k, l) + b
  }

  function PrepFor(pp: Params, c: Circuit, r: Randomness, l: nat, b: nat): (p: seq<BatchPrep>)
    requires Setup(pp, c, r) && l < |c.mults| && b < BatchCount(|c.mults[l]|, pp.k)
    ensures |p| == pp.n
  {
    var batch := MultBatch(c, pp.k, l, b);
    PrepBatch(pp, PrepVec(pp, CircuitSizes(c, pp.k), r, MultIndex(c, pp.k, l, b)),
              SlotVecs(pp, c, r, Lefts(c, batch)), SlotVecs(pp, c, r, Rights(c, batch)), SlotVecs(pp, c, r, batch))
  }

  /** After function-dependent preprocessing every batch is ready: the invariant of Batch holds
      for the mapped masks of its operands and outputs, slot by slot, padding at 0. */
  lemma PrepForReady(pp: Params, c: Circuit, r: Randomness, l: nat, b: nat)
    requires Setup(pp, c, r) && l < |c.mults| && b < BatchCount(|c.mults[l]|, pp.k)
    ensures var batch := MultBatch(c, pp.k, l, b);
            BatchReady(pp, PrepFor(pp, c, r, l, b), SlotMasks(pp, c, r, Lefts(c, batch)),
                       SlotMasks(pp, c, r, Rights(c, batch)), SlotMasks(pp, c, r, batch))
  {
    hide IsSharing, WireSharings, IsTriple, BatchReady, PrepBatch, PrepVec, SlotVecs, SlotMasks, SlotSecrets, BatchAt, Lefts, Rights;
    var batch := MultBatch(c, pp.k, l, b);
    var sz := CircuitSizes(c, pp.k);
    var x := MultIndex(c, pp.k, l, b);
    TriplesCorrect(pp, sz, r, x);
    SlotSharings(pp, c, r, Lefts(c, batch));
    SlotSharings(pp, c, r, Rights(c, batch));
    SlotSharings(pp, c, r, batch);
    PrepBatchCorrect(pp, PrepVec(pp, sz, r, x), SlotSecrets(pp, sz, r, x), SlotSecrets(pp, sz, r, sz.mults + x),
                     SlotVecs(pp, c, r, Lefts(c, batch)), SlotMasks(pp, c, r, Lefts(c, batch)),
                     SlotVecs(pp, c, r, Rights(c, batch)), SlotMasks(pp, c, r, Rights(c, batch)),
                     SlotVecs(pp, c, r, batch), SlotMasks(pp, c, r, batch));
  }

  /** The zero masks filed under input/output batch number x. */
  function IOZeroVec(pp: Params, sz: Sizes, r: Randomness, x: nat): (s: Vec)
    requires pp.Valid() && RandomnessShape(pp, sz, r) && x < sz.ios
    ensures |s| == pp.n
  {
    seq(pp.n, i requires 0 <= i < pp.n => IOZeros(sz, HeldBy(pp, sz, r, i).zero)[x])
  }

  /** What the owner of an input or output batch reconstructs (PrepInput.., PrepOutput..). */
  function OpenedMasks(pp: Params, c: Circuit, r: Randomness, batch: seq<Slot>, x: nat): (v: Vec)
    requires Setup(pp, c, r) && SlotsOk(c, batch) && |batch| == pp.k && x < CircuitSizes(c, pp.k).ios
    ensures |v| == pp.k
  {
    Reconstruct(MaskedWiresVec(pp.k, SlotVecs(pp, c, r, batch), pp.n, IOZeroVec(pp, CircuitSizes(c, pp.k), r, x)), pp.k)
  }

  lemma MasksOpened(pp: Params, c: Circuit, r: Randomness, batch: seq<Slot>, x: nat)
    requires Setup(pp, c, r) && SlotsOk(c, batch) && |batch| == pp.k && x < CircuitSizes(c, pp.k).ios
    ensures OpenedMasks(pp, c, r, batch, x) == SlotMasks(pp, c, r, batch)
  {
    hide IsSharing, WireSharings, SlotVecs, SlotMasks, HeldBy, IOZeros, MaskedWiresVec;
    var z := IOZeroVec(pp, CircuitSizes(c, pp.k), r, x);
    IOZerosCorrect(pp, CircuitSizes(c, pp.k), r, x, z);
    SlotSharings(pp, c, r, batch);
    WiresOpened(pp, SlotVecs(pp, c, r, batch), SlotMasks(pp, c, r, batch), z);
  }
}
