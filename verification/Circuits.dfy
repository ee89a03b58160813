/** Circuits: gates, layers and batches, the cleartext semantics, and the linear part of a circuit
    along which masks, shares and masked values all travel. */
module Circuits {
  import opened Field
  import opened Packed

  /** Gates refer to their operands by position in the list of all gates. */
  datatype Gate =
    | InputGate(owner: nat)
    | AddGate(left: nat, right: nat)
    | MultGate(left: nat, right: nat)
    | OutputGate(owner: nat, left: nat)

  /** A circuit: all gates in order of creation, the layer each multiplication was added to, and
      the lists of gates kept per owner, per layer and overall. */
  datatype Circuit = Circuit(
    gates: seq<Gate>,
    layerOf: seq<nat>,
    inputs: seq<seq<nat>>,
    outputs: seq<seq<nat>>,
    mults: seq<seq<nat>>,
    inputOrder: seq<nat>)

  /** A position in a batch: a gate, or padding. */
  datatype Slot = Pad | Wire(id: nat)

  // ---- Well-formedness ----

  /** Operands are created before the gates that use them. */
  predicate Topological(c: Circuit) {
    |c.layerOf| == |c.gates| &&
    forall id :: 0 <= id < |c.gates| ==>
      match c.gates[id]
      case InputGate(_) => true
      case AddGate(l, r) => l < id && r < id
      case MultGate(l, r) => l < id && r < id
      case OutputGate(_, l) => l < id
  }

  predicate NoRepeats(s: seq<nat>) {
    forall i, j :: 0 <= i < j < |s| ==> s[i] != s[j]
  }

  predicate InputsListed(c: Circuit) {
    && (forall o, p :: 0 <= o < |c.inputs| && 0 <= p < |c.inputs[o]| ==>
          c.inputs[o][p] < |c.gates| && c.gates[c.inputs[o][p]] == InputGate(o))
    && (forall p :: 0 <= p < |c.inputOrder| ==> c.inputOrder[p] < |c.gates| && c.gates[c.inputOrder[p]].InputGate?)
    && (forall id :: 0 <= id < |c.gates| && c.gates[id].InputGate? ==>
          id in c.inputOrder && c.gates[id].owner < |c.inputs| && id in c.inputs[c.gates[id].owner])
    && (forall o :: 0 <= o < |c.inputs| ==> NoRepeats(c.inputs[o]))
    && NoRepeats(c.inputOrder)
  }

  predicate MultsListed(c: Circuit) {
    && |c.layerOf| == |c.gates|
    && (forall l, p :: 0 <= l < |c.mults| && 0 <= p < |c.mults[l]| ==>
          c.mults[l][p] < |c.gates| && c.gates[c.mults[l][p]].MultGate? && c.layerOf[c.mults[l][p]] == l)
    && (forall id :: 0 <= id < |c.gates| && c.gates[id].MultGate? ==>
          c.layerOf[id] < |c.mults| && id in c.mults[c.layerOf[id]])
    && (forall l :: 0 <= l < |c.mults| ==> NoRepeats(c.mults[l]))
  }

  predicate OutputsListed(c: Circuit) {
    forall o, p :: 0 <= o < |c.outputs| && 0 <= p < |c.outputs[o]| ==>
      c.outputs[o][p] < |c.gates| && c.gates[c.outputs[o][p]].OutputGate? && c.gates[c.outputs[o][p]].owner == o
  }

  predicate WellFormed(c: Circuit) {
    Topological(c) && InputsListed(c) && MultsListed(c) && OutputsListed(c)
  }

  // ---- Cleartext semantics (GetClear) ----

  predicate HasInputs(c: Circuit, x: map<nat, Elem>) {
    forall id :: 0 <= id < |c.gates| && c.gates[id].InputGate? ==> id in x
  }

  function Clear(c: Circuit, x: map<nat, Elem>, id: nat): Elem
    requires Topological(c) && HasInputs(c, x) && id < |c.gates|
    decreases id
  {
    match c.gates[id]
    case InputGate(_) => x[id]
    case AddGate(l, r) => Add(Clear(c, x, l), Clear(c, x, r))
    case MultGate(l, r) => Mul(Clear(c, x, l), Clear(c, x, r))
    case OutputGate(_, l) => Clear(c, x, l)
  }

  // ---- Levels ----

  function Max(a: nat, b: nat): nat { if a < b then b else a }

  /** The number of layers that must have run before the gate's value is available. */
  function Level(c: Circuit, id: nat): nat
    requires Topological(c) && id < |c.gates|
    decreases id
  {
    match c.gates[id]
    case InputGate(_) => 0
    case AddGate(l, r) => Max(Level(c, l), Level(c, r))
    case MultGate(_, _) => c.layerOf[id] + 1
    case OutputGate(_, l) => Level(c, l)
  }

  /** The operands of every multiplication come from earlier layers. */
  predicate WellLayered(c: Circuit)
    requires Topological(c)
  {
    forall id :: 0 <= id < |c.gates| && c.gates[id].MultGate? ==>
      Level(c, c.gates[id].left) <= c.layerOf[id] && Level(c, c.gates[id].right) <= c.layerOf[id]
  }

  lemma {:induction false} LevelAtMostDepth(c: Circuit, id: nat)
    requires WellFormed(c) && id < |c.gates|
    ensures Level(c, id) <= |c.mults|
    decreases id
  {
    match c.gates[id]
    case InputGate(_) =>
    case AddGate(l, r) => LevelAtMostDepth(c, l); LevelAtMostDepth(c, r);
    case MultGate(_, _) =>
    case OutputGate(_, l) => LevelAtMostDepth(c, l);
  }

  // ---- The linear part: from the leaves (inputs and products) through additions ----

  predicate IsLeaf(c: Circuit, id: nat) {
    id < |c.gates| && (c.gates[id].InputGate? || c.gates[id].MultGate?)
  }

  /** Whether every leaf under the gate has a value. */
  predicate Known(c: Circuit, dom: set<nat>, id: nat)
    requires Topological(c) && id < |c.gates|
    decreases id
  {
    match c.gates[id]
    case InputGate(_) => id in dom
    case AddGate(l, r) => Known(c, dom, l) && Known(c, dom, r)
    case MultGate(_, _) => id in dom
    case OutputGate(_, l) => Known(c, dom, l)
  }

  /** The value of a wire as the sum of its leaves: the recursion of GetMu and PopulateIndvShrs. */
  function Spread(c: Circuit, leaf: map<nat, Elem>, id: nat): Elem
    requires Topological(c) && id < |c.gates| && Known(c, leaf.Keys, id)
    decreases id
  {
    match c.gates[id]
    case InputGate(_) => leaf[id]
    case AddGate(l, r) => Add(Spread(c, leaf, l), Spread(c, leaf, r))
    case MultGate(_, _) => leaf[id]
    case OutputGate(_, l) => Spread(c, leaf, l)
  }

  /** The leaves available once the inputs and the first `layers` layers are done. */
  predicate LearnedAfter(c: Circuit, layers: nat, dom: set<nat>)
    requires |c.layerOf| == |c.gates|
  {
    forall id :: 0 <= id < |c.gates| && IsLeaf(c, id) ==>
      (id in dom <==> c.gates[id].InputGate? || c.layerOf[id] < layers)
  }

  /** A wire is available after `layers` layers exactly when its level is at most that. */
  lemma {:induction false} KnownByLevel(c: Circuit, layers: nat, dom: set<nat>, id: nat)
    requires Topological(c) && LearnedAfter(c, layers, dom) && id < |c.gates|
    ensures Known(c, dom, id) <==> Level(c, id) <= layers
    decreases id
  {
    match c.gates[id]
    case InputGate(_) => assert IsLeaf(c, id);
    case AddGate(l, r) => KnownByLevel(c, layers, dom, l); KnownByLevel(c, layers, dom, r);
    case MultGate(_, _) => assert IsLeaf(c, id);
    case OutputGate(_, l) => KnownByLevel(c, layers, dom, l);
  }

  lemma Interchange(a: Elem, b: Elem, u: Elem, v: Elem)
    ensures Add(Add(a, b), Add(u, v)) == Add(Add(a, u), Add(b, v))
  {
  }

  // ---- Batches ----

  /** The number of batches a closed layer of `size` gates has: at least one. */
  function BatchCount(size: nat, k: nat): (r: nat)
    requires k > 0
    ensures size <= r * k && r > 0
  {
    if size == 0 then 1
    else
      assert size + k - 1 == ((size + k - 1) / k) * k + (size + k - 1) % k;
      (size + k - 1) / k
  }

  /** Slot j of batch b of a closed layer holding the gates `flat`. */
  function SlotAt(flat: seq<nat>, k: nat, b: nat, j: nat): Slot {
    if b * k + j < |flat| then Wire(flat[b * k + j]) else Pad
  }

  function BatchAt(flat: seq<nat>, k: nat, b: nat): (r: seq<Slot>)
    ensures |r| == k
  {
    seq(k, j requires 0 <= j < k => SlotAt(flat, k, b, j))
  }

  /** All batches of a closed layer. */
  function Batches(flat: seq<nat>, k: nat): (r: seq<seq<Slot>>)
    requires k > 0
    ensures |r| == BatchCount(|flat|, k)
  {
    seq(BatchCount(|flat|, k), b requires 0 <= b < BatchCount(|flat|, k) => BatchAt(flat, k, b))
  }

  function BatchIndex(p: nat, k: nat): nat
    requires k > 0
  {
    p / k
  }

  function SlotIndex(p: nat, k: nat): nat
    requires k > 0
  {
    p % k
  }

  /** The p-th gate of a layer sits in batch p / k at slot p mod k. */
  lemma GateInBatch(flat: seq<nat>, k: nat, p: nat)
    requires k > 0 && p < |flat|
    ensures BatchIndex(p, k) < BatchCount(|flat|, k) && SlotIndex(p, k) < k
    ensures Batches(flat, k)[BatchIndex(p, k)][SlotIndex(p, k)] == Wire(flat[p])
  {
    var b, j := p / k, p % k;
    assert p == b * k + j;
    var n := BatchCount(|flat|, k);
    MulOrder(n, b, k);
  }

  // ---- Positions in lists ----

  function IndexOf(s: seq<nat>, id: nat): (r: nat)
    requires id in s
    ensures r < |s| && s[r] == id
  {
    if s[0] == id then 0 else 1 + IndexOf(s[1..], id)
  }

  function Flatten(ss: seq<seq<nat>>): (r: seq<nat>)
    ensures forall l, x :: 0 <= l < |ss| && x in ss[l] ==> x in r
  {
    if ss == [] then [] else Flatten(ss[..|ss| - 1]) + ss[|ss| - 1]
  }

  lemma {:induction false} InFlatten(ss: seq<seq<nat>>, x: nat)
    requires x in Flatten(ss)
    ensures exists l :: 0 <= l < |ss| && x in ss[l]
  {
    var m := |ss| - 1;
    if x in ss[m] {
    } else {
      InFlatten(ss[..m], x);
      var l :| 0 <= l < m && x in ss[..m][l];
      assert x in ss[l];
    }
  }

  /** Where list l starts in the concatenation. */
  function Offset(ss: seq<seq<nat>>, l: nat): (r: nat)
    requires l <= |ss|
    ensures r <= |Flatten(ss)|
  {
    PrefixShorter(ss, l);
    |Flatten(ss[..l])|
  }

  lemma {:induction false} PrefixShorter(ss: seq<seq<nat>>, l: nat)
    requires l <= |ss|
    ensures |Flatten(ss[..l])| <= |Flatten(ss)|
    decreases |ss|
  {
    if l < |ss| {
      PrefixShorter(ss[..|ss| - 1], l);
      assert ss[..|ss| - 1][..l] == ss[..l];
    } else {
      assert ss[..l] == ss;
    }
  }

  /** Entry p of list l in the concatenation. */
  lemma {:induction false} FlattenAt(ss: seq<seq<nat>>, l: nat, p: nat)
    requires l < |ss| && p < |ss[l]|
    ensures Offset(ss, l + 1) == Offset(ss, l) + |ss[l]|
    ensures Offset(ss, l) + p < |Flatten(ss)| && Flatten(ss)[Offset(ss, l) + p] == ss[l][p]
    decreases |ss|
  {
    var m := |ss| - 1;
    assert ss[..l + 1][..l] == ss[..l];
    if l < m {
      FlattenAt(ss[..m], l, p);
      assert ss[..m][..l] == ss[..l];
    }
  }

  lemma {:induction false} OffsetStep(ss: seq<seq<nat>>, l: nat)
    requires l < |ss|
    ensures Offset(ss, l + 1) == Offset(ss, l) + |ss[l]| <= |Flatten(ss)|
    decreases |ss|
  {
    var m := |ss| - 1;
    assert ss[..l + 1][..l] == ss[..l];
    if l < m {
      OffsetStep(ss[..m], l);
      assert ss[..m][..l] == ss[..l] && ss[..m][..l + 1] == ss[..l + 1];
    } else {
      assert ss[..l + 1] == ss;
    }
  }

  /** No number occurs twice in the lists. */
  /** The list and the place of element x of the flattened lists. */
  lemma {:induction false} PlaceOf(ss: seq<seq<nat>>, x: nat) returns (l: nat, p: nat)
    requires x < |Flatten(ss)|
    ensures l < |ss| && p < |ss[l]| && x == Offset(ss, l) + p
  {
    var m := |ss| - 1;
    if x < |Flatten(ss[..m])| {
      l, p := PlaceOf(ss[..m], x);
      assert ss[..m][..l] == ss[..l];
    } else {
      l, p := m, x - |Flatten(ss[..m])|;
    }
  }

  predicate AllDistinct(ss: seq<seq<nat>>) {
    forall l, p, l', p' :: 0 <= l < |ss| && 0 <= p < |ss[l]| && 0 <= l' < |ss| && 0 <= p' < |ss[l']| && ss[l][p] == ss[l'][p'] ==>
      l == l' && p == p'
  }

  lemma {:induction false} FirstIndex(a: seq<nat>, b: seq<nat>, id: nat)
    requires id in a
    ensures IndexOf(a + b, id) == IndexOf(a, id)
  {
    if a[0] != id {
      FirstIndex(a[1..], b, id);
      assert (a + b)[1..] == a[1..] + b;
    }
  }

  lemma {:induction false} SecondIndex(a: seq<nat>, b: seq<nat>, id: nat)
    requires id !in a && id in b
    ensures IndexOf(a + b, id) == |a| + IndexOf(b, id)
  {
    if a == [] {
      assert a + b == b;
    } else {
      SecondIndex(a[1..], b, id);
      assert (a + b)[1..] == a[1..] + b;
    }
  }

  /** In the concatenation of lists without repetitions, entry p of list l is found at its place. */
  lemma {:induction false} FlattenIndex(ss: seq<seq<nat>>, l: nat, p: nat)
    requires AllDistinct(ss) && l < |ss| && p < |ss[l]|
    ensures ss[l][p] in Flatten(ss) && IndexOf(Flatten(ss), ss[l][p]) == Offset(ss, l) + p
    decreases |ss|
  {
    var id, m := ss[l][p], |ss| - 1;
    var front := ss[..m];
    assert forall q :: 0 <= q < m ==> front[q] == ss[q];
    if l < m {
      assert front[..l] == ss[..l];
      FlattenIndex(front, l, p);
      FirstIndex(Flatten(front), ss[m], id);
    } else {
      if id in Flatten(front) { InFlatten(front, id); }
      SecondIndex(Flatten(front), ss[m], id);
      assert ss[m][IndexOf(ss[m], id)] == id;
    }
  }

  lemma ListsDistinct(c: Circuit)
    requires WellFormed(c)
    ensures AllDistinct(c.mults) && AllDistinct(c.inputs)
  {
    hide Topological, OutputsListed;
    forall l, p, l', p' | 0 <= l < |c.mults| && 0 <= p < |c.mults[l]| && 0 <= l' < |c.mults| && 0 <= p' < |c.mults[l']| && c.mults[l][p] == c.mults[l'][p']
      ensures l == l' && p == p'
    {
      assert c.layerOf[c.mults[l][p]] == l && c.layerOf[c.mults[l'][p']] == l';
    }
    forall l, p, l', p' | 0 <= l < |c.inputs| && 0 <= p < |c.inputs[l]| && 0 <= l' < |c.inputs| && 0 <= p' < |c.inputs[l']| && c.inputs[l][p] == c.inputs[l'][p']
      ensures l == l' && p == p'
    {
      assert c.gates[c.inputs[l][p]] == InputGate(l) && c.gates[c.inputs[l'][p']] == InputGate(l');
    }
  }

  /** The order in which MapCorrToCircuit hands out individual sharings. */
  function IndOrder(c: Circuit): seq<nat> {
    c.inputOrder + Flatten(c.mults)
  }

  lemma LeafInOrder(c: Circuit, id: nat)
    requires WellFormed(c) && IsLeaf(c, id)
    ensures id in IndOrder(c)
  {
    if c.gates[id].MultGate? {
      assert id in c.mults[c.layerOf[id]];
    }
  }

  /** Number of batches in the first `m` lists. */
  function BatchTotal(ss: seq<seq<nat>>, k: nat, m: nat): nat
    requires k > 0 && m <= |ss|
  {
    if m == 0 then 0 else BatchTotal(ss, k, m - 1) + BatchCount(|ss[m - 1]|, k)
  }

  lemma {:induction false} BatchTotalMonotone(ss: seq<seq<nat>>, k: nat, m: nat, m': nat)
    requires k > 0 && m < m' <= |ss|
    ensures BatchTotal(ss, k, m) + BatchCount(|ss[m]|, k) <= BatchTotal(ss, k, m')
    decreases m'
  {
    if m + 1 < m' {
      BatchTotalMonotone(ss, k, m, m' - 1);
    }
  }

  // ---- Sets of leaves, and layers ----

  function LeafIds(c: Circuit): set<nat> {
    set id | 0 <= id < |c.gates| && IsLeaf(c, id)
  }

  lemma {:induction false} AllKnown(c: Circuit, id: nat)
    requires Topological(c) && id < |c.gates|
    ensures Known(c, LeafIds(c), id)
    decreases id
  {
    match c.gates[id]
    case InputGate(_) =>
    case AddGate(l, r) => AllKnown(c, l); AllKnown(c, r);
    case MultGate(_, _) =>
    case OutputGate(_, l) => AllKnown(c, l);
  }

  function InputIds(c: Circuit): set<nat> {
    set id | 0 <= id < |c.gates| && c.gates[id].InputGate?
  }

  function LayerIds(c: Circuit, l: nat): set<nat>
    requires l < |c.mults|
  {
    set id | id in c.mults[l]
  }

  /** The gates of layer l only read earlier layers. */
  predicate LayerReads(c: Circuit, l: nat)
    requires WellFormed(c) && l < |c.mults|
  {
    forall p :: 0 <= p < |c.mults[l]| ==>
      Level(c, c.gates[c.mults[l][p]].left) <= l && Level(c, c.gates[c.mults[l][p]].right) <= l
  }

  lemma LayerKeys(c: Circuit, l: nat, dom: set<nat>)
    requires WellFormed(c) && l < |c.mults| && LearnedAfter(c, l, dom)
    ensures LearnedAfter(c, l + 1, dom + LayerIds(c, l))
  {
    hide Topological, InputsListed, OutputsListed;
  }

  lemma WellLayeredByLayers(c: Circuit)
    requires WellFormed(c)
    ensures WellLayered(c) <==> forall l :: 0 <= l < |c.mults| ==> LayerReads(c, l)
  {
    hide Level;
    if forall l :: 0 <= l < |c.mults| ==> LayerReads(c, l) {
      forall id | 0 <= id < |c.gates| && c.gates[id].MultGate?
        ensures Level(c, c.gates[id].left) <= c.layerOf[id] && Level(c, c.gates[id].right) <= c.layerOf[id]
      {
        var l := c.layerOf[id];
        assert LayerReads(c, l) && id in c.mults[l];
        var p := IndexOf(c.mults[l], id);
        assert c.mults[l][p] == id;
      }
    }
  }
}
