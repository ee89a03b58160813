/** MapCorrToCircuit (circuits/offline.cc, correlator.h): in four passes the shares of input gates,
    multiplications, additions and outputs are put into mMapIndShrs. An addition that reads an
    output gate finds no entry for it, since outputs come last, and reads 0. This module says what
    the passes produce, on which circuits every addition finds its operands, and what a wire then
    carries in the protocol. */
module Mapping {
  import opened Field
  import opened Packed
  import opened Combine
  import opened Circuits

  // ---- The passes ----

  /** Reading the map: a missing key gives the default element 0. */
  function Entry(m: map<nat, Elem>, g: nat): Elem {
    if g in m then m[g] else 0
  }

  /** The additions among the first n gates, in order of creation. */
  function AfterAdds(c: Circuit, m: map<nat, Elem>, n: nat): map<nat, Elem>
    requires n <= |c.gates|
  {
    if n == 0 then m
    else
      var a, g := AfterAdds(c, m, n - 1), c.gates[n - 1];
      if g.AddGate? then a[n - 1 := Add(Entry(a, g.left), Entry(a, g.right))] else a
  }

  /** The outputs among the first n gates. */
  function AfterOutputs(c: Circuit, m: map<nat, Elem>, n: nat): map<nat, Elem>
    requires n <= |c.gates|
  {
    if n == 0 then m
    else
      var a, g := AfterOutputs(c, m, n - 1), c.gates[n - 1];
      if g.OutputGate? then a[n - 1 := Entry(a, g.left)] else a
  }

  /** The whole map, from the entries of the first two passes. */
  function Populated(c: Circuit, leaf: map<nat, Elem>): map<nat, Elem> {
    AfterOutputs(c, AfterAdds(c, leaf, |c.gates|), |c.gates|)
  }

  // ---- What the passes give ----

  /** The entry of a gate, by recursion over its operands. */
  function MappedAt(c: Circuit, leaf: map<nat, Elem>, id: nat): Elem
    requires Topological(c) && id < |c.gates| && leaf.Keys == LeafIds(c)
    decreases id
  {
    match c.gates[id]
    case InputGate(_) => leaf[id]
    case MultGate(_, _) => leaf[id]
    case AddGate(l, r) =>
      Add(if c.gates[l].OutputGate? then 0 else MappedAt(c, leaf, l), if c.gates[r].OutputGate? then 0 else MappedAt(c, leaf, r))
    case OutputGate(_, l) => MappedAt(c, leaf, l)
  }

  /** The map holds the right entries of the leaves, of the additions below `adds` and of the outputs
      below `outs`, and nothing else. */
  ghost predicate HoldsUpTo(c: Circuit, leaf: map<nat, Elem>, m: map<nat, Elem>, adds: nat, outs: nat)
    requires Topological(c) && leaf.Keys == LeafIds(c)
  {
    && (forall g: nat :: g in m <==> g < |c.gates| && Passed(c, g, adds, outs))
    && (forall g: nat :: g in m ==> m[g] == MappedAt(c, leaf, g))
  }

  predicate Passed(c: Circuit, g: nat, adds: nat, outs: nat)
    requires g < |c.gates|
  {
    match c.gates[g]
    case AddGate(_, _) => g < adds
    case OutputGate(_, _) => g < outs
    case _ => true
  }

  lemma NothingPassed(c: Circuit, leaf: map<nat, Elem>)
    requires Topological(c) && leaf.Keys == LeafIds(c)
    ensures HoldsUpTo(c, leaf, leaf, 0, 0)
  {
    forall g: nat | g in leaf ensures leaf[g] == MappedAt(c, leaf, g) { assert g in LeafIds(c); }
    forall g: nat ensures g in leaf <==> g < |c.gates| && Passed(c, g, 0, 0) { assert g in leaf <==> g in LeafIds(c); }
  }

  lemma GatePassed(c: Circuit, leaf: map<nat, Elem>, m: map<nat, Elem>, g: nat, outs: nat)
    requires Topological(c) && leaf.Keys == LeafIds(c) && g < |c.gates|
    requires c.gates[g].AddGate? ==> outs == 0 && HoldsUpTo(c, leaf, m, g, 0)
    requires c.gates[g].OutputGate? ==> outs == g && HoldsUpTo(c, leaf, m, |c.gates|, g)
    ensures c.gates[g].AddGate? ==> Add(Entry(m, c.gates[g].left), Entry(m, c.gates[g].right)) == MappedAt(c, leaf, g)
    ensures c.gates[g].OutputGate? ==> Entry(m, c.gates[g].left) == MappedAt(c, leaf, g)
  {
    hide Add;
  }

  lemma {:induction false} AddsGive(c: Circuit, leaf: map<nat, Elem>, n: nat)
    requires Topological(c) && n <= |c.gates| && leaf.Keys == LeafIds(c)
    ensures HoldsUpTo(c, leaf, AfterAdds(c, leaf, n), n, 0)
  {
    hide Add, MappedAt;
    if n == 0 {
      NothingPassed(c, leaf);
    } else {
      AddsGive(c, leaf, n - 1);
      if c.gates[n - 1].AddGate? { GatePassed(c, leaf, AfterAdds(c, leaf, n - 1), n - 1, 0); }
    }
  }

  lemma {:induction false} OutputsGive(c: Circuit, leaf: map<nat, Elem>, n: nat)
    requires Topological(c) && n <= |c.gates| && leaf.Keys == LeafIds(c)
    ensures HoldsUpTo(c, leaf, AfterOutputs(c, AfterAdds(c, leaf, |c.gates|), n), |c.gates|, n)
  {
    hide Add, AfterAdds, MappedAt;
    if n == 0 {
      AddsGive(c, leaf, |c.gates|);
    } else {
      OutputsGive(c, leaf, n - 1);
      if c.gates[n - 1].OutputGate? { GatePassed(c, leaf, AfterOutputs(c, AfterAdds(c, leaf, |c.gates|), n - 1), n - 1, n - 1); }
    }
  }

  /** Every gate ends with the entry MappedAt describes. */
  lemma PopulatedGives(c: Circuit, leaf: map<nat, Elem>, id: nat)
    requires Topological(c) && leaf.Keys == LeafIds(c) && id < |c.gates|
    ensures id in Populated(c, leaf) && Populated(c, leaf)[id] == MappedAt(c, leaf, id)
  {
    hide AfterAdds, AfterOutputs, MappedAt;
    OutputsGive(c, leaf, |c.gates|);
  }

  // ---- Which circuits are mapped completely ----

  predicate AddsReadNoOutputs(c: Circuit)
    requires Topological(c)
  {
    forall id :: 0 <= id < |c.gates| && c.gates[id].AddGate? ==>
      !c.gates[c.gates[id].left].OutputGate? && !c.gates[c.gates[id].right].OutputGate?
  }

  /** When the pass reaches addition id, its operands have entries. */
  predicate OperandsThere(c: Circuit, leaf: map<nat, Elem>, id: nat)
    requires id < |c.gates| && c.gates[id].AddGate?
  {
    c.gates[id].left in AfterAdds(c, leaf, id) && c.gates[id].right in AfterAdds(c, leaf, id)
  }

  /** Every addition finds both operands mapped if and only if no addition reads an output gate. */
  lemma OperandsThereExactly(c: Circuit, leaf: map<nat, Elem>)
    requires Topological(c) && leaf.Keys == LeafIds(c)
    ensures (forall id :: 0 <= id < |c.gates| && c.gates[id].AddGate? ==> OperandsThere(c, leaf, id)) <==> AddsReadNoOutputs(c)
  {
    hide AfterAdds, MappedAt;
    forall id | 0 <= id < |c.gates| && c.gates[id].AddGate?
      ensures OperandsThere(c, leaf, id) <==> !c.gates[c.gates[id].left].OutputGate? && !c.gates[c.gates[id].right].OutputGate?
    {
      AddsGive(c, leaf, id);
    }
  }

  // ---- What is missing ----

  /** The part of a wire's sum that the map does not hold. */
  function MissedAt(c: Circuit, leaf: map<nat, Elem>, id: nat): Elem
    requires Topological(c) && id < |c.gates| && leaf.Keys == LeafIds(c)
    decreases id, 0
  {
    match c.gates[id]
    case InputGate(_) => 0
    case MultGate(_, _) => 0
    case AddGate(l, r) => Add(MissedBy(c, leaf, l), MissedBy(c, leaf, r))
    case OutputGate(_, l) => MissedAt(c, leaf, l)
  }

  /** What an addition that reads gate g misses: everything, if it is an output gate. */
  function MissedBy(c: Circuit, leaf: map<nat, Elem>, g: nat): Elem
    requires Topological(c) && g < |c.gates| && leaf.Keys == LeafIds(c)
    decreases g, 1
  {
    AllKnown(c, g);
    if c.gates[g].OutputGate? then Spread(c, leaf, g) else MissedAt(c, leaf, g)
  }

  /** The entry and the missing part make up the wire's sum. */
  lemma {:induction false} MappedPlusMissed(c: Circuit, leaf: map<nat, Elem>, id: nat)
    requires Topological(c) && leaf.Keys == LeafIds(c) && id < |c.gates|
    ensures Known(c, leaf.Keys, id) && Add(MappedAt(c, leaf, id), MissedAt(c, leaf, id)) == Spread(c, leaf, id)
    decreases id
  {
    hide Add;
    AllKnown(c, id);
    match c.gates[id]
    case InputGate(_) => SubZero(leaf[id], 0);
    case MultGate(_, _) => SubZero(leaf[id], 0);
    case AddGate(l, r) =>
      MappedPlusMissed(c, leaf, l);
      MappedPlusMissed(c, leaf, r);
      SubZero(Spread(c, leaf, l), 0);
      SubZero(Spread(c, leaf, r), 0);
      var a, b := if c.gates[l].OutputGate? then 0 else MappedAt(c, leaf, l), if c.gates[r].OutputGate? then 0 else MappedAt(c, leaf, r);
      Interchange(a, b, MissedBy(c, leaf, l), MissedBy(c, leaf, r));
    case OutputGate(_, l) => MappedPlusMissed(c, leaf, l);
  }

  // ---- The missing part as a linear form of the masks of all leaves ----

  /** One coefficient per leaf, in the order of the individual sharings. */
  function LeafVec(c: Circuit, leaf: map<nat, Elem>): (v: Vec)
    requires WellFormed(c) && leaf.Keys == LeafIds(c)
    ensures |v| == |IndOrder(c)|
  {
    OrderHoldsLeaves(c);
    seq(|IndOrder(c)|, x requires 0 <= x < |IndOrder(c)| => leaf[IndOrder(c)[x]])
  }

  lemma OrderHoldsLeaves(c: Circuit)
    requires WellFormed(c)
    ensures forall x :: 0 <= x < |IndOrder(c)| ==> IndOrder(c)[x] in LeafIds(c)
  {
    hide Topological, OutputsListed;
    forall x | 0 <= x < |IndOrder(c)| ensures IndOrder(c)[x] in LeafIds(c) {
      if x >= |c.inputOrder| {
        InFlatten(c.mults, IndOrder(c)[x]);
      }
    }
  }

  /** How often a leaf is counted in a wire's sum, modulo P. */
  function SumVec(c: Circuit, id: nat): (v: Vec)
    requires WellFormed(c) && id < |c.gates|
    ensures |v| == |IndOrder(c)|
    decreases id
  {
    match c.gates[id]
    case AddGate(l, r) => VAdd(SumVec(c, l), SumVec(c, r))
    case OutputGate(_, l) => SumVec(c, l)
    case _ => Unit(|IndOrder(c)|, IndIndex(c, id))
  }

  function IndIndex(c: Circuit, id: nat): (x: nat)
    requires WellFormed(c) && IsLeaf(c, id)
    ensures x < |IndOrder(c)| && IndOrder(c)[x] == id
  {
    LeafInOrder(c, id);
    IndexOf(IndOrder(c), id)
  }

  /** How often it is missed: counted along the paths on which an addition reads an output gate. */
  function MissVec(c: Circuit, id: nat): (v: Vec)
    requires WellFormed(c) && id < |c.gates|
    ensures |v| == |IndOrder(c)|
    decreases id
  {
    match c.gates[id]
    case AddGate(l, r) =>
      VAdd(if c.gates[l].OutputGate? then SumVec(c, l) else MissVec(c, l), if c.gates[r].OutputGate? then SumVec(c, r) else MissVec(c, r))
    case OutputGate(_, l) => MissVec(c, l)
    case _ => Const(0, |IndOrder(c)|)
  }

  lemma {:induction false} DotSum(a: Vec, b: Vec, v: Vec, m: nat)
    requires |a| == |b| == |v| && m <= |v|
    ensures Dot(VAdd(a, b), v, m) == Add(Dot(a, v, m), Dot(b, v, m))
  {
    hide Mul, Add;
    if m == 0 {
      SubZero(0, 0);
    } else {
      DotSum(a, b, v, m - 1);
      Distributes(v[m - 1], a[m - 1], b[m - 1]);
      Interchange(Dot(a, v, m - 1), Dot(b, v, m - 1), Mul(a[m - 1], v[m - 1]), Mul(b[m - 1], v[m - 1]));
    }
  }

  lemma {:induction false} DotUnit(k: nat, i: nat, v: Vec, m: nat)
    requires i < k == |v| && m <= k
    ensures Dot(Unit(k, i), v, m) == if i < m then v[i] else 0
  {
    hide Mul, Add;
    if m > 0 {
      DotUnit(k, i, v, m - 1);
      MulOneZero(v[m - 1]);
      SubZero(v[m - 1], 0);
      SubZero(if i < m - 1 then v[i] else 0, 0);
    }
  }

  lemma {:induction false} DotConstZero(k: nat, v: Vec, m: nat)
    requires k == |v| && m <= k
    ensures Dot(Const(0, k), v, m) == 0
  {
    hide Mul, Add;
    if m > 0 {
      DotConstZero(k, v, m - 1);
      MulOneZero(v[m - 1]);
      SubZero(0, 0);
    }
  }

  lemma {:induction false} SumIsDot(c: Circuit, leaf: map<nat, Elem>, id: nat)
    requires WellFormed(c) && leaf.Keys == LeafIds(c) && id < |c.gates|
    ensures Known(c, leaf.Keys, id) && Spread(c, leaf, id) == Dot(SumVec(c, id), LeafVec(c, leaf), |IndOrder(c)|)
    decreases id
  {
    hide Mul, Add, IndOrder, InputsListed, MultsListed, OutputsListed, Dot;
    AllKnown(c, id);
    match c.gates[id]
    case AddGate(l, r) =>
      SumIsDot(c, leaf, l);
      SumIsDot(c, leaf, r);
      DotSum(SumVec(c, l), SumVec(c, r), LeafVec(c, leaf), |IndOrder(c)|);
    case OutputGate(_, l) => SumIsDot(c, leaf, l);
    case _ => DotUnit(|IndOrder(c)|, IndIndex(c, id), LeafVec(c, leaf), |IndOrder(c)|);
  }

  lemma {:induction false} MissedIsDot(c: Circuit, leaf: map<nat, Elem>, id: nat)
    requires WellFormed(c) && leaf.Keys == LeafIds(c) && id < |c.gates|
    ensures MissedAt(c, leaf, id) == Dot(MissVec(c, id), LeafVec(c, leaf), |IndOrder(c)|)
    decreases id
  {
    hide Mul, Add, IndOrder, InputsListed, MultsListed, OutputsListed, Dot, LeafVec, SumVec, Spread;
    match c.gates[id]
    case AddGate(l, r) =>
      MissedIsDot(c, leaf, l);
      MissedIsDot(c, leaf, r);
      SumIsDot(c, leaf, l);
      SumIsDot(c, leaf, r);
      DotSum(if c.gates[l].OutputGate? then SumVec(c, l) else MissVec(c, l),
             if c.gates[r].OutputGate? then SumVec(c, r) else MissVec(c, r), LeafVec(c, leaf), |IndOrder(c)|);
    case OutputGate(_, l) => MissedIsDot(c, leaf, l);
    case _ => DotConstZero(|IndOrder(c)|, LeafVec(c, leaf), |IndOrder(c)|);
  }

  /** Nothing of the wire is missed: every coefficient is 0. */
  predicate Complete(c: Circuit, id: nat)
    requires WellFormed(c) && id < |c.gates|
  {
    MissVec(c, id) == Const(0, |IndOrder(c)|)
  }

  lemma CompleteMissesNothing(c: Circuit, leaf: map<nat, Elem>, id: nat)
    requires WellFormed(c) && leaf.Keys == LeafIds(c) && id < |c.gates| && Complete(c, id)
    ensures MissedAt(c, leaf, id) == 0
  {
    hide Dot, LeafVec, IndOrder, MissVec, MissedAt;
    MissedIsDot(c, leaf, id);
    DotConstZero(|IndOrder(c)|, LeafVec(c, leaf), |IndOrder(c)|);
  }

  /** The wires whose entries the protocol uses: operands of multiplications and listed outputs. */
  predicate IsRead(c: Circuit, w: nat) {
    || (exists id :: 0 <= id < |c.gates| && MultReads(c, id, w))
    || (exists o, p :: 0 <= o < |c.outputs| && 0 <= p < |c.outputs[o]| && c.outputs[o][p] == w)
  }

  predicate MultReads(c: Circuit, id: nat, w: nat)
    requires id < |c.gates|
  {
    c.gates[id].MultGate? && (c.gates[id].left == w || c.gates[id].right == w)
  }

  predicate ReadsComplete(c: Circuit)
    requires WellFormed(c)
  {
    forall w :: 0 <= w < |c.gates| && IsRead(c, w) ==> Complete(c, w)
  }

  /** Without additions that read outputs nothing is missed anywhere. */
  lemma NoOutputsComplete(c: Circuit)
    requires WellFormed(c) && AddsReadNoOutputs(c)
    ensures ReadsComplete(c) && forall id :: 0 <= id < |c.gates| ==> Complete(c, id)
  {
    hide Complete, WellFormed, IsRead, AddsReadNoOutputs;
    forall id | 0 <= id < |c.gates| ensures Complete(c, id) { GateComplete(c, id); }
  }

  lemma {:induction false} GateComplete(c: Circuit, id: nat)
    requires WellFormed(c) && AddsReadNoOutputs(c) && id < |c.gates|
    ensures Complete(c, id)
    decreases id
  {
    hide IndOrder, InputsListed, MultsListed, OutputsListed, SumVec;
    match c.gates[id]
    case AddGate(l, r) =>
      GateComplete(c, l);
      GateComplete(c, r);
      SubZero(0, 0);
      assert VAdd(Const(0, |IndOrder(c)|), Const(0, |IndOrder(c)|)) == Const(0, |IndOrder(c)|);
    case OutputGate(_, l) => GateComplete(c, l);
    case _ =>
  }

  // ---- The values wires carry ----

  /** The value of a wire when every multiplication takes its operands without the missed parts. */
  function Carried(c: Circuit, x: map<nat, Elem>, mask: map<nat, Elem>, id: nat): Elem
    requires Topological(c) && HasInputs(c, x) && mask.Keys == LeafIds(c) && id < |c.gates|
    decreases id, 0
  {
    match c.gates[id]
    case InputGate(_) => x[id]
    case AddGate(l, r) => Add(Carried(c, x, mask, l), Carried(c, x, mask, r))
    case MultGate(l, r) => Mul(ReadAs(c, x, mask, l), ReadAs(c, x, mask, r))
    case OutputGate(_, l) => Carried(c, x, mask, l)
  }

  /** The value of wire w as it is read: less the part of its mask that is not in the map. */
  function ReadAs(c: Circuit, x: map<nat, Elem>, mask: map<nat, Elem>, w: nat): Elem
    requires Topological(c) && HasInputs(c, x) && mask.Keys == LeafIds(c) && w < |c.gates|
    decreases w, 1
  {
    Sub(Carried(c, x, mask, w), MissedAt(c, mask, w))
  }

  /** Masked leaf values unmask on every wire to what the wire carries. */
  lemma {:induction false} SpreadUnmasks(c: Circuit, x: map<nat, Elem>, mu: map<nat, Elem>, mask: map<nat, Elem>, id: nat)
    requires Topological(c) && HasInputs(c, x) && id < |c.gates|
    requires Known(c, mu.Keys, id) && mask.Keys == LeafIds(c)
    requires forall g :: IsLeaf(c, g) && g in mu ==> Add(mu[g], mask[g]) == Carried(c, x, mask, g)
    ensures Known(c, mask.Keys, id) && Add(Spread(c, mu, id), Spread(c, mask, id)) == Carried(c, x, mask, id)
    decreases id
  {
    hide Add, ReadAs, Mul;
    AllKnown(c, id);
    match c.gates[id]
    case InputGate(_) => assert IsLeaf(c, id);
    case AddGate(l, r) =>
      SpreadUnmasks(c, x, mu, mask, l);
      SpreadUnmasks(c, x, mu, mask, r);
      Interchange(Spread(c, mu, l), Spread(c, mu, r), Spread(c, mask, l), Spread(c, mask, r));
    case MultGate(_, _) => assert IsLeaf(c, id);
    case OutputGate(_, l) => SpreadUnmasks(c, x, mu, mask, l);
  }

  /** When all operands of multiplications are read as their cleartext values, every wire carries
      its cleartext value. */
  lemma {:induction false} CarriedIsClear(c: Circuit, x: map<nat, Elem>, mask: map<nat, Elem>, id: nat)
    requires Topological(c) && HasInputs(c, x) && mask.Keys == LeafIds(c) && id < |c.gates|
    requires forall g, w :: 0 <= g < |c.gates| && 0 <= w < |c.gates| && MultReads(c, g, w) ==> ReadAs(c, x, mask, w) == Clear(c, x, w)
    ensures Carried(c, x, mask, id) == Clear(c, x, id)
    decreases id
  {
    hide Add, ReadAs, Mul;
    match c.gates[id]
    case InputGate(_) =>
    case AddGate(l, r) => CarriedIsClear(c, x, mask, l); CarriedIsClear(c, x, mask, r);
    case MultGate(l, r) => assert MultReads(c, id, l) && MultReads(c, id, r);
    case OutputGate(_, l) => CarriedIsClear(c, x, mask, l);
  }

  /** Where the reads are complete the protocol's values are the cleartext values. */
  lemma {:induction false} CompleteIsClear(c: Circuit, x: map<nat, Elem>, mask: map<nat, Elem>, id: nat)
    requires WellFormed(c) && HasInputs(c, x) && mask.Keys == LeafIds(c) && id < |c.gates| && ReadsComplete(c)
    ensures Carried(c, x, mask, id) == Clear(c, x, id)
    ensures IsRead(c, id) ==> ReadAs(c, x, mask, id) == Clear(c, x, id)
    decreases id
  {
    hide Add, Mul, InputsListed, MultsListed, OutputsListed, Complete, MissedAt;
    match c.gates[id] {
      case InputGate(_) =>
      case AddGate(l, r) => CompleteIsClear(c, x, mask, l); CompleteIsClear(c, x, mask, r);
      case MultGate(l, r) =>
        assert MultReads(c, id, l) && MultReads(c, id, r);
        CompleteIsClear(c, x, mask, l);
        CompleteIsClear(c, x, mask, r);
      case OutputGate(_, l) => CompleteIsClear(c, x, mask, l);
    }
    if IsRead(c, id) {
      CompleteMissesNothing(c, mask, id);
      SubZero(Clear(c, x, id), 0);
    }
  }
}
