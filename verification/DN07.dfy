/** The DN07 protocol (dn07.cc) on a whole circuit: double sharings, and shares forced to zero at
    the last t parties so that these are finished before the inputs exist. */
module DN07 {
  import opened Field
  import opened Poly
  import opened EvPoly
  import opened Packed
  import opened Combine
  import opened FIPrep
  import opened Circuits
  import opened Wrappers

  /** Number of parties and threshold. The constructor asks for n > 2t; the positions forced to
      zero and the silent parties coincide only when n = 2t + 1, as the experiment sets it. */
  class Parties {
    const n: nat
    const t: nat

    constructor (n: nat, t: nat)
      ensures this.n == n && this.t == t
    {
      this.n, this.t := n, t;
    }

    predicate Admitted() { n > 2 * t && n < P }

    predicate Valid() { n == 2 * t + 1 && n < P }
  }

  // ---- Preprocessing (PrepPartiesSend, PrepPartiesReceive) ----

  /** One dealer's double sharing: a secret, and randomness for degree t and for degree 2t. */
  datatype DoubleDealing = DoubleDealing(secret: Elem, rnd: Vec, rndD: Vec)

  datatype DealerRandomness = DealerRandomness(rand: seq<seq<Dealing>>, double: seq<seq<DoubleDealing>>)

  predicate DoubleShape(ds: seq<seq<DoubleDealing>>, blocks: nat, n: nat, t: nat) {
    |ds| == blocks && forall b :: 0 <= b < blocks ==>
      |ds[b]| == n && forall e :: 0 <= e < n ==> |ds[b][e].rnd| == t && |ds[b][e].rndD| == 2 * t
  }

  predicate DealerShape(pp: Parties, c: Circuit, r: DealerRandomness) {
    && DealingsShape(r.rand, Blocks(|Flatten(c.inputs)|, pp.t), pp.n, pp.t)
    && DoubleShape(r.double, Blocks(|Flatten(c.mults)|, pp.t), pp.n, pp.t)
  }

  predicate Setup(pp: Parties, c: Circuit, r: DealerRandomness) {
    pp.Admitted() && WellFormed(c) && DealerShape(pp, c, r)
  }

  function RandDealt(pp: Parties, ds: seq<seq<Dealing>>): (r: seq<seq<Vec>>)
    requires pp.Admitted() && DealingsShape(ds, |ds|, pp.n, pp.t)
    ensures |r| == |ds| && DealtShape(r, pp.n)
  {
    seq(|ds|, b requires 0 <= b < |ds| =>
      seq(pp.n, e requires 0 <= e < pp.n => DealAt(ds[b][e].secret, 0, pp.t, ds[b][e].rnd, pp.n)))
  }

  /** The degree-t half of the double sharings. */
  function LowDealt(pp: Parties, ds: seq<seq<DoubleDealing>>): (r: seq<seq<Vec>>)
    requires pp.Admitted() && DoubleShape(ds, |ds|, pp.n, pp.t)
    ensures |r| == |ds| && DealtShape(r, pp.n)
  {
    seq(|ds|, b requires 0 <= b < |ds| =>
      seq(pp.n, e requires 0 <= e < pp.n => DealAt(ds[b][e].secret, 0, pp.t, ds[b][e].rnd, pp.n)))
  }

  /** The degree-2t half. */
  function HighDealt(pp: Parties, ds: seq<seq<DoubleDealing>>): (r: seq<seq<Vec>>)
    requires pp.Admitted() && DoubleShape(ds, |ds|, pp.n, pp.t)
    ensures |r| == |ds| && DealtShape(r, pp.n)
  {
    seq(|ds|, b requires 0 <= b < |ds| =>
      seq(pp.n, e requires 0 <= e < pp.n => DealAt(ds[b][e].secret, 0, 2 * pp.t, ds[b][e].rndD, pp.n)))
  }

  function DoubleSecrets(row: seq<DoubleDealing>): (r: Vec)
    ensures |r| == |row|
  {
    seq(|row|, e requires 0 <= e < |row| => row[e].secret)
  }

  /** The secret extracted from a block whose dealers all have slot 0 known. */
  lemma SlotZeroExtracted(t: nat, dealt: seq<seq<Vec>>, n: nat, d: nat, x: nat, secrets: Vec)
    requires DealtDegree(dealt, n, d, 1) && x < Total(|dealt|, t) && |secrets| == n
    requires BlockOf(x, t) < |dealt|
    requires forall e :: 0 <= e < n ==> Reconstruct(dealt[BlockOf(x, t)][e], 1)[0] == secrets[e]
    ensures IsSharing(ExtractedVec(t, dealt, n, x), d, [Extract(RowOf(x, t), secrets)])
  {
    hide Total, BlockOf, RowOf, Mod, IsSharing, Extract, Lagrange, HasDegree;
    ExtractedSharing(t, dealt, n, d, 1, x);
    var b := BlockOf(x, t);
    forall e | 0 <= e < n ensures DealtSlot(dealt[b], n, 0)[e] == secrets[e] {
      assert Reconstruct(dealt[b][e], 1)[0] == secrets[e];
    }
    assert DealtSlot(dealt[b], n, 0) == secrets;
    assert ExtractedSecrets(dealt[b], n, 1, RowOf(x, t)) == [Extract(RowOf(x, t), secrets)];
  }

  lemma DealtAtZero(secret: Elem, d: nat, rnd: Vec, n: nat)
    requires |rnd| == d && d < n < P
    ensures HasDegree(DealAt(secret, 0, d, rnd, n), d, 1)
    ensures Reconstruct(DealAt(secret, 0, d, rnd, n), 1)[0] == secret
  {
    hide IsSharing, DealAt;
    var v := DealAtIsSharing(secret, 0, d, rnd, n, 1);
    DegreeOfSharing(DealAt(secret, 0, d, rnd, n), d, v);
  }

  /** The x-th random sharing: its secret and its shares. */
  function RandSecret(pp: Parties, r: DealerRandomness, x: nat): Elem
    requires x < Total(|r.rand|, pp.t)
  {
    BlockIndex(x, |r.rand|, pp.t);
    Extract(RowOf(x, pp.t), DealerSecrets(r.rand[BlockOf(x, pp.t)]))
  }

  lemma RandSharing(pp: Parties, r: DealerRandomness, x: nat)
    requires pp.Admitted() && DealingsShape(r.rand, |r.rand|, pp.n, pp.t) && x < Total(|r.rand|, pp.t)
    ensures IsSharing(ExtractedVec(pp.t, RandDealt(pp, r.rand), pp.n, x), pp.t, [RandSecret(pp, r, x)])
  {
    hide Total, BlockOf, RowOf, Mod, IsSharing, Extract, Lagrange, HasDegree, DealAt;
    var dealt := RandDealt(pp, r.rand);
    forall b, e | 0 <= b < |dealt| && 0 <= e < pp.n
      ensures HasDegree(dealt[b][e], pp.t, 1) && Reconstruct(dealt[b][e], 1)[0] == r.rand[b][e].secret
    {
      DealtAtZero(r.rand[b][e].secret, pp.t, r.rand[b][e].rnd, pp.n);
    }
    BlockIndex(x, |dealt|, pp.t);
    SlotZeroExtracted(pp.t, dealt, pp.n, pp.t, x, DealerSecrets(r.rand[BlockOf(x, pp.t)]));
  }

  function DoubleSecret(pp: Parties, r: DealerRandomness, x: nat): Elem
    requires x < Total(|r.double|, pp.t)
  {
    BlockIndex(x, |r.double|, pp.t);
    Extract(RowOf(x, pp.t), DoubleSecrets(r.double[BlockOf(x, pp.t)]))
  }

  /** The x-th double sharing shares one secret twice, with degrees t and 2t. */
  lemma DoubleSharing(pp: Parties, r: DealerRandomness, x: nat)
    requires pp.Admitted() && DoubleShape(r.double, |r.double|, pp.n, pp.t) && x < Total(|r.double|, pp.t)
    ensures IsSharing(ExtractedVec(pp.t, LowDealt(pp, r.double), pp.n, x), pp.t, [DoubleSecret(pp, r, x)])
    ensures IsSharing(ExtractedVec(pp.t, HighDealt(pp, r.double), pp.n, x), 2 * pp.t, [DoubleSecret(pp, r, x)])
  {
    hide Total, BlockOf, RowOf, Mod, IsSharing, Extract, Lagrange, HasDegree, DealAt;
    var low, high := LowDealt(pp, r.double), HighDealt(pp, r.double);
    forall b, e | 0 <= b < |low| && 0 <= e < pp.n
      ensures HasDegree(low[b][e], pp.t, 1) && Reconstruct(low[b][e], 1)[0] == r.double[b][e].secret
      ensures HasDegree(high[b][e], 2 * pp.t, 1) && Reconstruct(high[b][e], 1)[0] == r.double[b][e].secret
    {
      DealtAtZero(r.double[b][e].secret, pp.t, r.double[b][e].rnd, pp.n);
      DealtAtZero(r.double[b][e].secret, 2 * pp.t, r.double[b][e].rndD, pp.n);
    }
    BlockIndex(x, |low|, pp.t);
    var secrets := DoubleSecrets(r.double[BlockOf(x, pp.t)]);
    SlotZeroExtracted(pp.t, low, pp.n, pp.t, x, secrets);
    SlotZeroExtracted(pp.t, high, pp.n, 2 * pp.t, x, secrets);
  }

  // ---- Mapping to gates (FDMapPrepToGates) ----

  lemma InputInOrder(c: Circuit, id: nat)
    requires WellFormed(c) && id < |c.gates| && c.gates[id].InputGate?
    ensures id in Flatten(c.inputs)
  {
    assert id in c.inputs[c.gates[id].owner];
  }

  lemma MultInOrder(c: Circuit, id: nat)
    requires WellFormed(c) && id < |c.gates| && c.gates[id].MultGate?
    ensures id in Flatten(c.mults)
  {
    assert id in c.mults[c.layerOf[id]];
  }

  function RandIndex(pp: Parties, c: Circuit, r: DealerRandomness, id: nat): (x: nat)
    requires Setup(pp, c, r) && id < |c.gates| && c.gates[id].InputGate?
    ensures x < Total(|r.rand|, pp.t)
  {
    InputInOrder(c, id);
    BlocksCover(|Flatten(c.inputs)|, pp.t);
    IndexOf(Flatten(c.inputs), id)
  }

  function DoubleIndex(pp: Parties, c: Circuit, r: DealerRandomness, id: nat): (x: nat)
    requires Setup(pp, c, r) && id < |c.gates| && c.gates[id].MultGate?
    ensures x < Total(|r.double|, pp.t)
  {
    MultInOrder(c, id);
    BlocksCover(|Flatten(c.mults)|, pp.t);
    IndexOf(Flatten(c.mults), id)
  }

  /** Shares across parties of the random value of an input gate. */
  function RandVec(pp: Parties, c: Circuit, r: DealerRandomness, id: nat): (s: Vec)
    requires Setup(pp, c, r) && id < |c.gates| && c.gates[id].InputGate?
    ensures |s| == pp.n
  {
    ExtractedVec(pp.t, RandDealt(pp, r.rand), pp.n, RandIndex(pp, c, r, id))
  }

  function LowVec(pp: Parties, c: Circuit, r: DealerRandomness, id: nat): (s: Vec)
    requires Setup(pp, c, r) && id < |c.gates| && c.gates[id].MultGate?
    ensures |s| == pp.n
  {
    ExtractedVec(pp.t, LowDealt(pp, r.double), pp.n, DoubleIndex(pp, c, r, id))
  }

  function HighVec(pp: Parties, c: Circuit, r: DealerRandomness, id: nat): (s: Vec)
    requires Setup(pp, c, r) && id < |c.gates| && c.gates[id].MultGate?
    ensures |s| == pp.n
  {
    ExtractedVec(pp.t, HighDealt(pp, r.double), pp.n, DoubleIndex(pp, c, r, id))
  }

  /** The share of a leaf a silent party fixes before any input exists. */
  function MaskShare(pp: Parties, c: Circuit, r: DealerRandomness, i: nat, id: nat): Elem
    requires Setup(pp, c, r) && IsLeaf(c, id) && i < pp.n
  {
    if c.gates[id].InputGate? then RandVec(pp, c, r, id)[i] else LowVec(pp, c, r, id)[i]
  }

  // ---- Shares with zeros at the last t parties ----

  /** The point of the q-th of the last t parties. */
  function LastX(pp: Parties, q: int): Elem { ShareX(pp.n - pp.t + q) }

  function LastXs(pp: Parties): Vec {
    seq(pp.t, q => LastX(pp, q))
  }

  function ZeroEndXs(pp: Parties): Vec {
    [SlotX(0)] + LastXs(pp)
  }

  lemma ZeroEndXsDistinct(pp: Parties)
    requires pp.Admitted()
    ensures Distinct(ZeroEndXs(pp))
  {
    hide Mod;
    var xs := ZeroEndXs(pp);
    forall i, j | 0 <= i < j < |xs| ensures xs[i] != xs[j] {
      ModDistinct(if i == 0 then 0 else pp.n - pp.t + i, pp.n - pp.t + j);
    }
  }

  /** The shares of `value` of degree t with shares 0 at the last t parties, for m parties. */
  function ZeroEndShares(pp: Parties, value: Elem, m: nat): (s: Vec)
    requires pp.Admitted()
    ensures |s| == m
  {
    ZeroEndXsDistinct(pp);
    SharesThrough(ZeroEndXs(pp), [value] + Const(0, pp.t), m)
  }

  lemma ZeroEndSharing(pp: Parties, value: Elem)
    requires pp.Admitted()
    ensures IsSharing(ZeroEndShares(pp, value, pp.n), pp.t, [value])
    ensures forall i :: pp.n - pp.t <= i < pp.n ==> ZeroEndShares(pp, value, pp.n)[i] == 0
  {
    hide Mod, Lagrange, Eval;
    var xs, ys := ZeroEndXs(pp), [value] + Const(0, pp.t);
    ZeroEndXsDistinct(pp);
    var f := LagrangeIsPolynomial(xs, ys);
    assert xs[0] == SlotX(0);
    forall i | pp.n - pp.t <= i < pp.n ensures ZeroEndShares(pp, value, pp.n)[i] == 0 {
      var q := i - (pp.n - pp.t);
      assert xs[q + 1] == ShareX(i) && ys[q + 1] == 0;
    }
    assert SharesOf(ZeroEndShares(pp, value, pp.n), pp.t, [value], f);
  }

  // ---- The parties' shares ----

  /** The shares set so far at the parties 0, ..., t: one vector of t + 1 shares per leaf. */
  predicate ActiveShape(pp: Parties, c: Circuit, active: map<nat, Vec>) {
    forall id :: id in active ==> IsLeaf(c, id) && |active[id]| == pp.t + 1
  }

  /** The leaf shares of party i (mDn07Share): the silent parties' are final from the start. */
  function PartyLeaves(pp: Parties, c: Circuit, r: DealerRandomness, active: map<nat, Vec>, i: nat): (m: map<nat, Elem>)
    requires Setup(pp, c, r) && ActiveShape(pp, c, active) && i < pp.n
    ensures m.Keys == if i <= pp.t then active.Keys else LeafIds(c)
  {
    if i <= pp.t then map id | id in active :: active[id][i]
    else map id | id in LeafIds(c) :: MaskShare(pp, c, r, i, id)
  }

  /** GetDn07Share at party i. */
  function WireShare(pp: Parties, c: Circuit, r: DealerRandomness, active: map<nat, Vec>, i: nat, id: nat): Elem
    requires Setup(pp, c, r) && ActiveShape(pp, c, active) && i < pp.n && id < |c.gates|
    requires Known(c, active.Keys, id)
  {
    AllKnown(c, id);
    Spread(c, PartyLeaves(pp, c, r, active, i), id)
  }

  function WireVec(pp: Parties, c: Circuit, r: DealerRandomness, active: map<nat, Vec>, id: nat): (s: Vec)
    requires Setup(pp, c, r) && ActiveShape(pp, c, active) && id < |c.gates| && Known(c, active.Keys, id)
    ensures |s| == pp.n
  {
    seq(pp.n, i requires 0 <= i < pp.n => WireShare(pp, c, r, active, i, id))
  }

  /** A silent party's wire share, available in the function-dependent phase. */
  function SilentShare(pp: Parties, c: Circuit, r: DealerRandomness, i: nat, id: nat): Elem
    requires Setup(pp, c, r) && pp.t < i < pp.n && id < |c.gates|
  {
    AllKnown(c, id);
    Spread(c, PartyLeaves(pp, c, r, map[], i), id)
  }

  /** FDMultPartiesSendP1: what silent party i sends for multiplication gate id. */
  function FDShare(pp: Parties, c: Circuit, r: DealerRandomness, i: nat, id: nat): Elem
    requires Setup(pp, c, r) && pp.t < i < pp.n && id < |c.gates| && c.gates[id].MultGate?
  {
    Sub(Mul(SilentShare(pp, c, r, i, c.gates[id].left), SilentShare(pp, c, r, i, c.gates[id].right)),
        HighVec(pp, c, r, id)[i])
  }

  function LastFDShare(pp: Parties, c: Circuit, r: DealerRandomness, q: nat, id: nat): Elem
    requires Setup(pp, c, r) && q < pp.n - (pp.t + 1) && id < |c.gates| && c.gates[id].MultGate?
  {
    FDShare(pp, c, r, pp.t + 1 + q, id)
  }

  /** FDMultP1Receives, for one gate: the shares of the last t parties. */
  function FDRow(pp: Parties, c: Circuit, r: DealerRandomness, id: nat): (s: Vec)
    requires Setup(pp, c, r) && id < |c.gates| && c.gates[id].MultGate?
    ensures |s| == pp.n - (pp.t + 1)
  {
    seq(pp.n - (pp.t + 1), i requires 0 <= i < pp.n - (pp.t + 1) => LastFDShare(pp, c, r, i, id))
  }

  /** FDMultP1Receives: the queue P1 fills, one vector per multiplication gate in layer order. */
  function FDQueue(pp: Parties, c: Circuit, r: DealerRandomness): (q: seq<Vec>)
    requires Setup(pp, c, r)
    ensures |q| == |Flatten(c.mults)| && Rows(q, pp.n - (pp.t + 1))
  {
    FlattenMults(c);
    seq(|Flatten(c.mults)|, x requires 0 <= x < |Flatten(c.mults)| =>
      FDRow(pp, c, r, Flatten(c.mults)[x]))
  }

  lemma FlattenMults(c: Circuit)
    requires WellFormed(c)
    ensures forall x :: 0 <= x < |Flatten(c.mults)| ==>
              Flatten(c.mults)[x] < |c.gates| && c.gates[Flatten(c.mults)[x]].MultGate?
  {
    forall x | 0 <= x < |Flatten(c.mults)|
      ensures Flatten(c.mults)[x] < |c.gates| && c.gates[Flatten(c.mults)[x]].MultGate?
    {
      InFlatten(c.mults, Flatten(c.mults)[x]);
      var l :| 0 <= l < |c.mults| && Flatten(c.mults)[x] in c.mults[l];
    }
  }

  function Elements(s: seq<nat>): set<nat> {
    set x | x in s
  }

  /** The leaves a silent party has shares for when it reaches gate p of layer l. */
  function DoneBefore(c: Circuit, l: nat, p: nat): set<nat>
    requires l < |c.mults| && p < |c.mults[l]|
  {
    InputIds(c) + Elements(Flatten(c.mults)[..Offset(c.mults, l)]) + Elements(c.mults[l][..p + 1])
  }

  // ---- Online ----

  /** The shares of an input gate at the parties 0, ..., t. */
  function InputShares(pp: Parties, c: Circuit, r: DealerRandomness, x: map<nat, Elem>, id: nat): (s: Vec)
    requires Setup(pp, c, r) && HasInputs(c, x) && id < |c.gates| && c.gates[id].InputGate?
    ensures |s| == pp.t + 1
  {
    var mask := ReconstructAt(RandVec(pp, c, r, id)[..pp.t + 1], SlotX(0));
    var sent := ZeroEndShares(pp, Sub(x[id], mask), pp.t + 1);
    seq(pp.t + 1, i requires 0 <= i < pp.t + 1 => Add(sent[i], RandVec(pp, c, r, id)[i]))
  }

  function LearnInputs(pp: Parties, c: Circuit, r: DealerRandomness, x: map<nat, Elem>): (m: map<nat, Vec>)
    requires Setup(pp, c, r) && HasInputs(c, x)
    ensures m.Keys == InputIds(c) && ActiveShape(pp, c, m)
  {
    map id | id in InputIds(c) :: InputShares(pp, c, r, x, id)
  }

  predicate OperandsKnown(c: Circuit, dom: set<nat>, id: nat)
    requires Topological(c) && id < |c.gates| && c.gates[id].MultGate?
  {
    Known(c, dom, c.gates[id].left) && Known(c, dom, c.gates[id].right)
  }

  /** What P1 assembles for gate id: t + 1 shares received now, the rest from the queue. */
  function Assembled(pp: Parties, c: Circuit, r: DealerRandomness, active: map<nat, Vec>, id: nat, last: Vec): (s: Vec)
    requires Setup(pp, c, r) && ActiveShape(pp, c, active) && id < |c.gates| && c.gates[id].MultGate?
    requires OperandsKnown(c, active.Keys, id) && |last| == pp.n - (pp.t + 1)
    ensures |s| == pp.n
  {
    var g := c.gates[id];
    seq(pp.n, i requires 0 <= i < pp.n =>
      if i <= pp.t then
        Sub(Mul(WireShare(pp, c, r, active, i, g.left), WireShare(pp, c, r, active, i, g.right)), HighVec(pp, c, r, id)[i])
      else last[i - (pp.t + 1)])
  }

  /** The shares of a multiplication gate at the parties 0, ..., t. */
  function MultShares(pp: Parties, c: Circuit, r: DealerRandomness, active: map<nat, Vec>, id: nat, last: Vec): (s: Vec)
    requires Setup(pp, c, r) && ActiveShape(pp, c, active) && id < |c.gates| && c.gates[id].MultGate?
    requires OperandsKnown(c, active.Keys, id) && |last| == pp.n - (pp.t + 1)
    ensures |s| == pp.t + 1
  {
    var secret := ReconstructAt(Assembled(pp, c, r, active, id, last), SlotX(0));
    var sent := ZeroEndShares(pp, secret, pp.t + 1);
    seq(pp.t + 1, i requires 0 <= i < pp.t + 1 => Add(sent[i], LowVec(pp, c, r, id)[i]))
  }

  predicate LayerReady(c: Circuit, dom: set<nat>, l: nat)
    requires WellFormed(c) && l < |c.mults|
  {
    forall p :: 0 <= p < |c.mults[l]| ==> OperandsKnown(c, dom, c.mults[l][p])
  }

  datatype State = State(active: map<nat, Vec>, queue: seq<Vec>)

  predicate StateShape(pp: Parties, c: Circuit, s: State) {
    pp.Admitted() && ActiveShape(pp, c, s.active) && Rows(s.queue, pp.n - (pp.t + 1))
  }

  /** One layer: P1 pops one vector per gate; None where GetDn07Share throws. */
  function RunLayer(pp: Parties, c: Circuit, r: DealerRandomness, s: State, l: nat): (q: Option<State>)
    requires Setup(pp, c, r) && l < |c.mults| && StateShape(pp, c, s) && |s.queue| >= |c.mults[l]|
    ensures q.Some? ==> StateShape(pp, c, q.value) && q.value.queue == s.queue[|c.mults[l]|..]
    ensures q.Some? <==> LayerReady(c, s.active.Keys, l)
    ensures q.Some? ==> q.value.active.Keys == s.active.Keys + LayerIds(c, l)
  {
    if LayerReady(c, s.active.Keys, l) then
      Some(State(
        s.active + map id | id in LayerIds(c, l) :: MultShares(pp, c, r, s.active, id, s.queue[IndexOf(c.mults[l], id)]),
        s.queue[|c.mults[l]|..]))
    else None
  }

  /** Popping one vector per gate of a layer leaves the vectors of the layers after it. */
  lemma QueueStep(pp: Parties, c: Circuit, r: DealerRandomness, queue: seq<Vec>, l: nat)
    requires Setup(pp, c, r) && l < |c.mults| && queue == FDQueue(pp, c, r)[Offset(c.mults, l)..]
    ensures |queue| >= |c.mults[l]| && queue[|c.mults[l]|..] == FDQueue(pp, c, r)[Offset(c.mults, l + 1)..]
  {
    hide Flatten, Offset, WellFormed, DealerShape, FDRow;
    OffsetStep(c.mults, l);
  }

  function RunLayers(pp: Parties, c: Circuit, r: DealerRandomness, x: map<nat, Elem>, layers: nat): (q: Option<State>)
    requires Setup(pp, c, r) && HasInputs(c, x) && layers <= |c.mults|
    ensures q.Some? ==> StateShape(pp, c, q.value) && q.value.queue == FDQueue(pp, c, r)[Offset(c.mults, layers)..]
  {
    hide Topological, InputsListed, MultsListed, OutputsListed, DealerShape, FDQueue, LearnInputs, RunLayer;
    if layers == 0 then Some(State(LearnInputs(pp, c, r, x), FDQueue(pp, c, r)))
    else
      match RunLayers(pp, c, r, x, layers - 1)
      case None => None
      case Some(s) =>
        QueueStep(pp, c, r, s.queue, layers - 1);
        RunLayer(pp, c, r, s, layers - 1)
  }

  /** The function-dependent phase of the silent parties goes through: when a gate is reached, the
      inputs and the gates up to it have their shares. */
  predicate SilentReady(c: Circuit)
    requires WellFormed(c)
  {
    forall l, p :: 0 <= l < |c.mults| && 0 <= p < |c.mults[l]| ==>
      OperandsKnown(c, DoneBefore(c, l, p), c.mults[l][p])
  }

  /** The value owner o reconstructs for its p-th output gate, or None if the run throws. */
  function RunProtocol(pp: Parties, c: Circuit, r: DealerRandomness, x: map<nat, Elem>, o: nat, p: nat): Option<Elem>
    requires Setup(pp, c, r) && HasInputs(c, x) && o < |c.outputs| && p < |c.outputs[o]|
  {
    if pp.t + 1 < pp.n && !SilentReady(c) then None
    else
      match RunLayers(pp, c, r, x, |c.mults|)
      case None => None
      case Some(s) =>
        if Known(c, s.active.Keys, c.outputs[o][p]) then
          Some(ReconstructAt(seq(pp.t + 1, i requires 0 <= i < pp.t + 1 =>
            WireShare(pp, c, r, s.active, i, c.outputs[o][p])), SlotX(0)))
        else None
  }
}
