/** Building circuits gate by gate (building.cc, circuits.h) and the generator of synthetic circuits
    (generic.cc), whose circuits are shown to be well layered. */
module Building {
  import opened Field
  import opened Packed
  import opened Circuits
  import opened Wrappers

  // ---- One gate more ----

  function Start(clients: nat): Circuit {
    Circuit([], [], seq(clients, i => []), seq(clients, i => []), [[]], [])
  }

  function WithInput(c: Circuit, o: nat): Circuit
    requires o < |c.inputs|
  {
    var id := |c.gates|;
    Circuit(c.gates + [InputGate(o)], c.layerOf + [0], c.inputs[o := c.inputs[o] + [id]], c.outputs, c.mults, c.inputOrder + [id])
  }

  function WithAdd(c: Circuit, l: nat, r: nat): Circuit {
    Circuit(c.gates + [AddGate(l, r)], c.layerOf + [0], c.inputs, c.outputs, c.mults, c.inputOrder)
  }

  /** Multiplications go to the current, last layer. */
  function WithMult(c: Circuit, l: nat, r: nat): Circuit
    requires c.mults != []
  {
    var last := |c.mults| - 1;
    Circuit(c.gates + [MultGate(l, r)], c.layerOf + [last], c.inputs, c.outputs,
            c.mults[last := c.mults[last] + [|c.gates|]], c.inputOrder)
  }

  function WithOutput(c: Circuit, o: nat, g: nat): Circuit
    requires o < |c.outputs|
  {
    Circuit(c.gates + [OutputGate(o, g)], c.layerOf + [0], c.inputs, c.outputs[o := c.outputs[o] + [|c.gates|]], c.mults, c.inputOrder)
  }

  function WithLayer(c: Circuit): Circuit {
    Circuit(c.gates, c.layerOf, c.inputs, c.outputs, c.mults + [[]], c.inputOrder)
  }

  lemma StartIsWellFormed(clients: nat)
    ensures WellFormed(Start(clients)) && WellLayered(Start(clients))
  {
  }

  /** d is c with one more gate. */
  predicate OneMore(c: Circuit, d: Circuit) {
    && |c.layerOf| == |c.gates| && |d.layerOf| == |d.gates| == |c.gates| + 1
    && d.gates[..|c.gates|] == c.gates && d.layerOf[..|c.gates|] == c.layerOf
  }

  lemma OldGates(c: Circuit, d: Circuit)
    requires OneMore(c, d)
    ensures forall id :: 0 <= id < |c.gates| ==> d.gates[id] == c.gates[id] && d.layerOf[id] == c.layerOf[id]
  {
    forall id | 0 <= id < |c.gates| ensures d.gates[id] == c.gates[id] && d.layerOf[id] == c.layerOf[id] {
      assert d.gates[id] == d.gates[..|c.gates|][id] && d.layerOf[id] == d.layerOf[..|c.gates|][id];
    }
  }

  lemma InputsSame(c: Circuit, d: Circuit)
    requires OneMore(c, d) && InputsListed(c) && d.inputs == c.inputs && d.inputOrder == c.inputOrder && !d.gates[|c.gates|].InputGate?
    ensures InputsListed(d)
  {
    OldGates(c, d);
  }

  lemma MultsSame(c: Circuit, d: Circuit)
    requires OneMore(c, d) && MultsListed(c) && d.mults == c.mults && !d.gates[|c.gates|].MultGate?
    ensures MultsListed(d)
  {
    OldGates(c, d);
  }

  lemma OutputsSame(c: Circuit, d: Circuit)
    requires OneMore(c, d) && OutputsListed(c) && d.outputs == c.outputs
    ensures OutputsListed(d)
  {
    OldGates(c, d);
  }

  lemma TopologicalGrows(c: Circuit, d: Circuit)
    requires OneMore(c, d) && Topological(c)
    requires match d.gates[|c.gates|]
             case InputGate(_) => true
             case AddGate(l, r) => l < |c.gates| && r < |c.gates|
             case MultGate(l, r) => l < |c.gates| && r < |c.gates|
             case OutputGate(_, l) => l < |c.gates|
    ensures Topological(d)
  {
    OldGates(c, d);
  }

  /** Appending a fresh number keeps a list free of repetitions and keeps its members. */
  lemma AppendFresh(s: seq<nat>, id: nat)
    requires NoRepeats(s) && forall p :: 0 <= p < |s| ==> s[p] < id
    ensures NoRepeats(s + [id]) && (forall x :: x in s + [id] <==> x in s || x == id)
  {
    var t := s + [id];
    forall i, j | 0 <= i < j < |t| ensures t[i] != t[j] { }
  }

  lemma InputsGrow(c: Circuit, o: nat)
    requires Topological(c) && InputsListed(c) && o < |c.inputs|
    ensures InputsListed(WithInput(c, o))
  {
    hide NoRepeats, Topological;
    var d, id := WithInput(c, o), |c.gates|;
    WithInputGates(c, o);
    AppendFresh(c.inputs[o], id);
    AppendFresh(c.inputOrder, id);
    forall q, p | 0 <= q < |d.inputs| && 0 <= p < |d.inputs[q]|
      ensures d.inputs[q][p] < |d.gates| && d.gates[d.inputs[q][p]] == InputGate(q)
    {
      if q == o && p == |c.inputs[o]| { } else { assert d.inputs[q][p] == c.inputs[q][p]; }
    }
    forall p | 0 <= p < |d.inputOrder| ensures d.inputOrder[p] < |d.gates| && d.gates[d.inputOrder[p]].InputGate? {
      if p < |c.inputOrder| { assert d.inputOrder[p] == c.inputOrder[p]; }
    }
    forall i | 0 <= i < |d.gates| && d.gates[i].InputGate?
      ensures i in d.inputOrder && d.gates[i].owner < |d.inputs| && i in d.inputs[d.gates[i].owner]
    {
      assert i < id ==> d.gates[i] == c.gates[i];
    }
  }

  lemma WithInputGates(c: Circuit, o: nat)
    requires Topological(c) && o < |c.inputs|
    ensures var d := WithInput(c, o); OneMore(c, d) && d.gates[|c.gates|] == InputGate(o) && forall i :: 0 <= i < |c.gates| ==> d.gates[i] == c.gates[i]
  {
  }

  lemma MultsGrow(c: Circuit, l: nat, r: nat)
    requires MultsListed(c) && c.mults != []
    ensures MultsListed(WithMult(c, l, r))
  {
    hide NoRepeats;
    var d, last, id := WithMult(c, l, r), |c.mults| - 1, |c.gates|;
    WithMultGates(c, l, r);
    AppendFresh(c.mults[last], id);
    forall q, p | 0 <= q < |d.mults| && 0 <= p < |d.mults[q]|
      ensures d.mults[q][p] < |d.gates| && d.gates[d.mults[q][p]].MultGate? && d.layerOf[d.mults[q][p]] == q
    {
      if q == last && p == |c.mults[last]| { } else { assert d.mults[q][p] == c.mults[q][p]; }
    }
    forall i | 0 <= i < |d.gates| && d.gates[i].MultGate?
      ensures d.layerOf[i] < |d.mults| && i in d.mults[d.layerOf[i]]
    {
      assert i < id ==> d.gates[i] == c.gates[i] && d.layerOf[i] == c.layerOf[i];
    }
  }

  lemma WithMultGates(c: Circuit, l: nat, r: nat)
    requires |c.layerOf| == |c.gates| && c.mults != []
    ensures var d := WithMult(c, l, r);
            && OneMore(c, d) && d.gates[|c.gates|] == MultGate(l, r) && d.layerOf[|c.gates|] == |c.mults| - 1
            && forall i :: 0 <= i < |c.gates| ==> d.gates[i] == c.gates[i] && d.layerOf[i] == c.layerOf[i]
  {
  }

  lemma InputKeepsWellFormed(c: Circuit, o: nat)
    requires WellFormed(c) && o < |c.inputs|
    ensures WellFormed(WithInput(c, o)) && OneMore(c, WithInput(c, o))
  {
    hide Topological, InputsListed, MultsListed, OutputsListed;
    var d := WithInput(c, o);
    Sizes(c);
    TopologicalGrows(c, d);
    InputsGrow(c, o);
    MultsSame(c, d);
    OutputsSame(c, d);
  }

  lemma Sizes(c: Circuit)
    requires WellFormed(c)
    ensures |c.layerOf| == |c.gates|
  {
  }

  lemma AddKeepsWellFormed(c: Circuit, l: nat, r: nat)
    requires WellFormed(c) && l < |c.gates| && r < |c.gates|
    ensures WellFormed(WithAdd(c, l, r)) && OneMore(c, WithAdd(c, l, r))
  {
    hide Topological, InputsListed, MultsListed, OutputsListed;
    var d := WithAdd(c, l, r);
    Sizes(c);
    TopologicalGrows(c, d);
    InputsSame(c, d);
    MultsSame(c, d);
    OutputsSame(c, d);
  }

  lemma MultKeepsWellFormed(c: Circuit, l: nat, r: nat)
    requires WellFormed(c) && c.mults != [] && l < |c.gates| && r < |c.gates|
    ensures WellFormed(WithMult(c, l, r)) && OneMore(c, WithMult(c, l, r))
  {
    hide Topological, InputsListed, MultsListed, OutputsListed;
    var d := WithMult(c, l, r);
    Sizes(c);
    TopologicalGrows(c, d);
    InputsSame(c, d);
    MultsGrow(c, l, r);
    OutputsSame(c, d);
  }

  lemma OutputKeepsWellFormed(c: Circuit, o: nat, g: nat)
    requires WellFormed(c) && o < |c.outputs| && g < |c.gates|
    ensures WellFormed(WithOutput(c, o, g)) && OneMore(c, WithOutput(c, o, g))
  {
    hide Topological, InputsListed, MultsListed;
    var d := WithOutput(c, o, g);
    Sizes(c);
    TopologicalGrows(c, d);
    InputsSame(c, d);
    MultsSame(c, d);
    OldGates(c, d);
  }

  lemma LayerKeepsWellFormed(c: Circuit)
    requires WellFormed(c)
    ensures WellFormed(WithLayer(c))
    ensures WellLayered(c) ==> WellLayered(WithLayer(c))
    ensures forall id :: 0 <= id < |c.gates| ==> Level(WithLayer(c), id) == Level(c, id)
  {
    var d := WithLayer(c);
    assert forall q :: 0 <= q < |c.mults| ==> d.mults[q] == c.mults[q];
    forall id | 0 <= id < |c.gates| ensures Level(d, id) == Level(c, id) { LevelStable(c, d, id); }
  }

  /** Levels depend only on the gates up to the one asked for. */
  lemma {:induction false} LevelStable(c: Circuit, d: Circuit, id: nat)
    requires Topological(c) && Topological(d) && c.gates <= d.gates && c.layerOf <= d.layerOf && id < |c.gates|
    ensures Level(d, id) == Level(c, id)
    decreases id
  {
    match c.gates[id]
    case InputGate(_) =>
    case AddGate(l, r) => LevelStable(c, d, l); LevelStable(c, d, r);
    case MultGate(_, _) =>
    case OutputGate(_, l) => LevelStable(c, d, l);
  }

  /** The operands of the gate, if it is a multiplication, come from earlier layers. */
  predicate ReadsEarlier(c: Circuit, id: nat)
    requires Topological(c) && id < |c.gates|
  {
    c.gates[id].MultGate? ==> Level(c, c.gates[id].left) <= c.layerOf[id] && Level(c, c.gates[id].right) <= c.layerOf[id]
  }

  /** One more gate keeps a circuit well layered exactly when the new gate reads earlier layers. */
  lemma OneMoreGate(c: Circuit, d: Circuit)
    requires Topological(c) && Topological(d) && OneMore(c, d)
    ensures forall id :: 0 <= id < |c.gates| ==> Level(d, id) == Level(c, id)
    ensures WellLayered(d) <==> WellLayered(c) && ReadsEarlier(d, |c.gates|)
  {
    OldGates(c, d);
    assert c.gates <= d.gates && c.layerOf <= d.layerOf;
    forall id | 0 <= id < |c.gates| ensures Level(d, id) == Level(c, id) { LevelStable(c, d, id); }
    hide Level, WellLayered;
    LayeredByGate(c);
    LayeredByGate(d);
    forall id | 0 <= id < |c.gates| ensures ReadsEarlier(d, id) <==> ReadsEarlier(c, id) { }
  }

  lemma LayeredByGate(c: Circuit)
    requires Topological(c)
    ensures WellLayered(c) <==> forall id :: 0 <= id < |c.gates| ==> ReadsEarlier(c, id)
  {
    hide Level;
    if WellLayered(c) {
      forall id | 0 <= id < |c.gates| ensures ReadsEarlier(c, id) { assert c.gates[id] == c.gates[id]; }
    }
    if forall id :: 0 <= id < |c.gates| ==> ReadsEarlier(c, id) {
      forall id | 0 <= id < |c.gates| && c.gates[id].MultGate?
        ensures Level(c, c.gates[id].left) <= c.layerOf[id] && Level(c, c.gates[id].right) <= c.layerOf[id]
      {
        assert ReadsEarlier(c, id);
      }
    }
  }

  // ---- The circuit under construction ----

  class Builder {
    var gates: seq<Gate>
    var layerOf: seq<nat>
    var inputs: seq<seq<nat>>
    var outputs: seq<seq<nat>>
    var mults: seq<seq<nat>>
    var inputOrder: seq<nat>

    function Built(): Circuit
      reads this
    {
      Circuit(gates, layerOf, inputs, outputs, mults, inputOrder)
    }

    ghost predicate Valid()
      reads this
    {
      WellFormed(Built()) && mults != []
    }

    constructor (clients: nat)
      ensures Valid() && Built() == Start(clients)
    {
      gates, layerOf, mults, inputOrder := [], [], [[]], [];
      inputs := seq(clients, i => []);
      outputs := seq(clients, i => []);
      new;
      StartIsWellFormed(clients);
    }

    method Input(o: nat) returns (id: nat)
      requires Valid() && o < |inputs|
      modifies this
      ensures Valid() && id == |old(gates)| && Built() == WithInput(old(Built()), o)
    {
      hide WellFormed;
      id := |gates|;
      InputKeepsWellFormed(Built(), o);
      gates, layerOf := gates + [InputGate(o)], layerOf + [0];
      inputs := inputs[o := inputs[o] + [id]];
      inputOrder := inputOrder + [id];
    }

    method Add(l: nat, r: nat) returns (id: nat)
      requires Valid() && l < |gates| && r < |gates|
      modifies this
      ensures Valid() && id == |old(gates)| && Built() == WithAdd(old(Built()), l, r)
    {
      hide WellFormed;
      id := |gates|;
      AddKeepsWellFormed(Built(), l, r);
      gates, layerOf := gates + [AddGate(l, r)], layerOf + [0];
    }

    method Mult(l: nat, r: nat) returns (id: nat)
      requires Valid() && l < |gates| && r < |gates|
      modifies this
      ensures Valid() && id == |old(gates)| && Built() == WithMult(old(Built()), l, r)
    {
      hide WellFormed;
      id := |gates|;
      MultKeepsWellFormed(Built(), l, r);
      var last := |mults| - 1;
      gates, layerOf := gates + [MultGate(l, r)], layerOf + [last];
      mults := mults[last := mults[last] + [id]];
    }

    method Output(o: nat, g: nat) returns (id: nat)
      requires Valid() && o < |outputs| && g < |gates|
      modifies this
      ensures Valid() && id == |old(gates)| && Built() == WithOutput(old(Built()), o, g)
    {
      hide WellFormed;
      id := |gates|;
      OutputKeepsWellFormed(Built(), o, g);
      gates, layerOf := gates + [OutputGate(o, g)], layerOf + [0];
      outputs := outputs[o := outputs[o] + [id]];
    }

    method NewLayer()
      requires Valid()
      modifies this
      ensures Valid() && Built() == WithLayer(old(Built()))
    {
      hide WellFormed;
      LayerKeepsWellFormed(Built());
      mults := mults + [[]];
    }
  }

  // ---- The generator ----

  datatype CircuitConfig = CircuitConfig(inpGates: seq<nat>, outGates: seq<nat>, nParties: nat, width: nat, depth: nat)

  datatype ConfigError = InputVectorLength | OutputVectorLength | WidthNotMultiple | OddInputs

  function Sum(s: seq<nat>): nat {
    if s == [] then 0 else Sum(s[..|s| - 1]) + s[|s| - 1]
  }

  lemma SumStep(s: seq<nat>, i: nat)
    requires i < |s|
    ensures Sum(s[..i + 1]) == Sum(s[..i]) + s[i]
  {
    assert s[..i + 1][..i] == s[..i];
  }

  /** A gate the current layer may read: an input, or a multiplication of an earlier layer. */
  predicate EarlierLeaf(c: Circuit, g: nat) {
    IsLeaf(c, g) && |c.layerOf| == |c.gates| && (c.gates[g].MultGate? ==> c.layerOf[g] + 1 < |c.mults|)
  }

  /** Gates m and m' multiply x and y by the sum of x and y. */
  predicate IsPair(gates: seq<Gate>, x: nat, y: nat, m: nat, m': nat) {
    && 1 <= m && m' == m + 1 < |gates|
    && gates[m - 1] == AddGate(x, y) && gates[m] == MultGate(x, m - 1) && gates[m'] == MultGate(y, m - 1)
  }

  /** The i-th pair of the row is made from the i-th pair of operands, taken round robin. */
  predicate PairAt(gates: seq<Gate>, ops: seq<nat>, row: seq<nat>, i: nat) {
    ops != [] && 2 * i + 1 < |row| && IsPair(gates, ops[(2 * i) % |ops|], ops[(2 * i + 1) % |ops|], row[2 * i], row[2 * i + 1])
  }

  predicate PairsOf(gates: seq<Gate>, ops: seq<nat>, row: seq<nat>) {
    forall i :: 0 <= i < |row| / 2 ==> PairAt(gates, ops, row, i)
  }

  lemma PairsKept(gates: seq<Gate>, more: seq<Gate>, ops: seq<nat>, row: seq<nat>)
    requires PairsOf(gates, ops, row) && gates <= more
    ensures PairsOf(more, ops, row)
  {
    forall i | 0 <= i < |row| / 2 ensures PairAt(more, ops, row, i) { assert PairAt(gates, ops, row, i); }
  }

  lemma PairAdded(gates: seq<Gate>, ops: seq<nat>, row: seq<nat>, i: nat, more: seq<Gate>)
    requires PairsOf(gates, ops, row) && |row| == 2 * i && ops != []
    requires more == gates + [AddGate(ops[(2 * i) % |ops|], ops[(2 * i + 1) % |ops|]),
                              MultGate(ops[(2 * i) % |ops|], |gates|), MultGate(ops[(2 * i + 1) % |ops|], |gates|)]
    ensures PairsOf(more, ops, row + [|gates| + 1, |gates| + 2])
  {
    var row' := row + [|gates| + 1, |gates| + 2];
    forall j | 0 <= j < |row'| / 2 ensures PairAt(more, ops, row', j) {
      if j < i { assert PairAt(gates, ops, row, j); }
    }
  }

  /** What a pair computes: the operands times their sum, so the two values add up to its square. */
  lemma PairValues(c: Circuit, x: map<nat, Elem>, l: nat, r: nat, m: nat, m': nat)
    requires Topological(c) && HasInputs(c, x) && IsPair(c.gates, l, r, m, m')
    ensures l < |c.gates| && r < |c.gates|
    ensures Clear(c, x, m) == Mul(Clear(c, x, l), Add(Clear(c, x, l), Clear(c, x, r)))
    ensures Clear(c, x, m') == Mul(Clear(c, x, r), Add(Clear(c, x, l), Clear(c, x, r)))
    ensures Add(Clear(c, x, m), Clear(c, x, m')) == Mul(Add(Clear(c, x, l), Clear(c, x, r)), Add(Clear(c, x, l), Clear(c, x, r)))
  {
    hide Mul, Add, Clear;
    IsPairBounds(c, l, r, m, m');
    ClearGate(c, x, m - 1);
    ClearGate(c, x, m);
    ClearGate(c, x, m');
    Distributes(Add(Clear(c, x, l), Clear(c, x, r)), Clear(c, x, l), Clear(c, x, r));
  }

  lemma IsPairBounds(c: Circuit, l: nat, r: nat, m: nat, m': nat)
    requires Topological(c) && IsPair(c.gates, l, r, m, m')
    ensures l < |c.gates| && r < |c.gates|
  {
    assert c.gates[m - 1] == AddGate(l, r);
  }

  /** The cleartext evaluation of one gate from its operands. */
  lemma ClearGate(c: Circuit, x: map<nat, Elem>, id: nat)
    requires Topological(c) && HasInputs(c, x) && id < |c.gates|
    ensures c.gates[id].AddGate? ==> Clear(c, x, id) == Add(Clear(c, x, c.gates[id].left), Clear(c, x, c.gates[id].right))
    ensures c.gates[id].MultGate? ==> Clear(c, x, id) == Mul(Clear(c, x, c.gates[id].left), Clear(c, x, c.gates[id].right))
  {
    hide Mul, Add;
  }

  /** x, y, their sum, and the two products with the sum. */
  method AddPair(b: Builder, x: nat, y: nat)
    requires b.Valid() && WellLayered(b.Built()) && EarlierLeaf(b.Built(), x) && EarlierLeaf(b.Built(), y)
    modifies b
    ensures b.Valid() && WellLayered(b.Built())
    ensures b.inputs == old(b.inputs) && b.inputOrder == old(b.inputOrder) && b.outputs == old(b.outputs)
    ensures |b.mults| == |old(b.mults)| && b.mults[..|b.mults| - 1] == old(b.mults)[..|b.mults| - 1]
    ensures b.mults[|b.mults| - 1] == old(b.mults)[|b.mults| - 1] + [|old(b.gates)| + 1, |old(b.gates)| + 2]
    ensures b.gates == old(b.gates) + [AddGate(x, y), MultGate(x, |old(b.gates)|), MultGate(y, |old(b.gates)|)]
  {
    hide WellFormed, WellLayered, Level;
    ghost var c0 := b.Built();
    var add := b.Add(x, y);
    ghost var c1 := b.Built();
    AddStays(c0, x, y);
    var first := b.Mult(x, add);
    ghost var c2 := b.Built();
    MultStays(c1, x, add);
    SumStays(c1, c2, x, y, add);
    var second := b.Mult(y, add);
    MultStays(c2, y, add);
  }

  /** A gate of the level of the current layer or below. */
  predicate Readable(c: Circuit, g: nat)
    requires Topological(c)
  {
    g < |c.gates| && c.mults != [] && Level(c, g) <= |c.mults| - 1
  }

  lemma WellFormedIsTopological(c: Circuit)
    requires WellFormed(c)
    ensures Topological(c)
  {
  }

  lemma AddStays(c: Circuit, x: nat, y: nat)
    requires WellFormed(c) && c.mults != [] && WellLayered(c) && EarlierLeaf(c, x) && EarlierLeaf(c, y)
    ensures var d := WithAdd(c, x, y);
            WellFormed(d) && WellLayered(d) && Readable(d, x) && Readable(d, y) && Readable(d, |c.gates|)
  {
    hide InputsListed, MultsListed, OutputsListed;
    AddKeepsWellFormed(c, x, y);
    OneMoreGate(c, WithAdd(c, x, y));
  }

  lemma MultStays(c: Circuit, x: nat, g: nat)
    requires WellFormed(c) && WellLayered(c) && Readable(c, x) && Readable(c, g)
    ensures var d := WithMult(c, x, g);
            WellFormed(d) && WellLayered(d)
  {
    hide InputsListed, MultsListed, OutputsListed, Level;
    MultKeepsWellFormed(c, x, g);
    OneMoreGate(c, WithMult(c, x, g));
  }

  lemma SumStays(c: Circuit, d: Circuit, x: nat, y: nat, g: nat)
    requires WellFormed(c) && Readable(c, x) && Readable(c, y) && Readable(c, g) && d == WithMult(c, x, g)
    ensures WellFormed(d) && Readable(d, y) && Readable(d, g)
  {
    hide InputsListed, MultsListed, OutputsListed, Level;
    MultKeepsWellFormed(c, x, g);
    OneMoreGate(c, d);
  }

  lemma InputStays(c: Circuit, o: nat)
    requires WellFormed(c) && WellLayered(c) && o < |c.inputs|
    ensures WellFormed(WithInput(c, o)) && WellLayered(WithInput(c, o))
  {
    hide InputsListed, MultsListed, OutputsListed, Level;
    InputKeepsWellFormed(c, o);
    OneMoreGate(c, WithInput(c, o));
  }

  lemma OutputStays(c: Circuit, o: nat, g: nat)
    requires WellFormed(c) && WellLayered(c) && o < |c.outputs| && g < |c.gates|
    ensures WellFormed(WithOutput(c, o, g)) && WellLayered(WithOutput(c, o, g))
  {
    hide InputsListed, MultsListed, OutputsListed, Level;
    OutputKeepsWellFormed(c, o, g);
    OneMoreGate(c, WithOutput(c, o, g));
  }

  lemma AnInput(c: Circuit, p: nat)
    requires WellFormed(c) && p < |c.inputOrder|
    ensures EarlierLeaf(c, c.inputOrder[p])
  {
  }

  lemma AMult(c: Circuit, d: nat, p: nat)
    requires WellFormed(c) && d + 1 < |c.mults| && p < |c.mults[d]|
    ensures EarlierLeaf(c, c.mults[d][p])
  {
    hide InputsListed, OutputsListed;
  }

  /** Input gates: party i gets as many as the configuration says. */
  method AddInputs(b: Builder, inpGates: seq<nat>)
    requires b.Valid() && b.Built() == Start(|inpGates|)
    modifies b
    ensures b.Valid() && WellLayered(b.Built()) && b.mults == [[]]
    ensures |b.inputs| == |b.outputs| == |inpGates| && |b.inputOrder| == Sum(inpGates)
    ensures forall i :: 0 <= i < |inpGates| ==> |b.inputs[i]| == inpGates[i] && b.outputs[i] == []
    ensures forall i, j :: 0 <= i < |inpGates| && 0 <= j < inpGates[i] ==> b.inputs[i][j] == Sum(inpGates[..i]) + j
    ensures forall p :: 0 <= p < Sum(inpGates) ==> b.inputOrder[p] == p
  {
    hide WellFormed, WellLayered;
    StartIsWellFormed(|inpGates|);
    assert inpGates[..0] == [];
    for i := 0 to |inpGates|
      invariant b.Valid() && Topological(b.Built()) && WellLayered(b.Built()) && b.mults == [[]]
      invariant InputsUpTo(b.Built(), inpGates, i, 0)
    {
      for j := 0 to inpGates[i]
        invariant b.Valid() && Topological(b.Built()) && WellLayered(b.Built()) && b.mults == [[]]
        invariant InputsUpTo(b.Built(), inpGates, i, j)
      {
        NextInput(b, inpGates, i, j);
      }
      SumStep(inpGates, i);
    }
    assert inpGates[..|inpGates|] == inpGates;
  }

  /** The inputs before the j-th of party i are the only gates, in order. */
  predicate InputsUpTo(c: Circuit, inpGates: seq<nat>, i: nat, j: nat) {
    && |c.inputs| == |c.outputs| == |inpGates| && i <= |inpGates|
    && |c.gates| == |c.inputOrder| == Sum(inpGates[..i]) + j
    && (forall p :: 0 <= p < |c.inputOrder| ==> c.inputOrder[p] == p)
    && (forall q :: 0 <= q < |inpGates| ==> |c.inputs[q]| == (if q < i then inpGates[q] else if q == i then j else 0) && c.outputs[q] == [])
    && forall q, d :: 0 <= q < |inpGates| && 0 <= d < |c.inputs[q]| ==> c.inputs[q][d] == Sum(inpGates[..q]) + d
  }

  method NextInput(b: Builder, ghost inpGates: seq<nat>, i: nat, ghost j: nat)
    requires b.Valid() && WellLayered(b.Built()) && b.mults == [[]] && i < |inpGates| && InputsUpTo(b.Built(), inpGates, i, j)
    modifies b
    ensures b.Valid() && Topological(b.Built()) && WellLayered(b.Built()) && b.mults == [[]] && InputsUpTo(b.Built(), inpGates, i, j + 1)
  {
    hide WellFormed, WellLayered, InputsUpTo;
    InputAdded(b.Built(), inpGates, i, j);
    InputStays(b.Built(), i);
    var id := b.Input(i);
    WellFormedIsTopological(b.Built());
  }

  lemma InputAdded(c: Circuit, inpGates: seq<nat>, i: nat, j: nat)
    requires i < |inpGates| && InputsUpTo(c, inpGates, i, j)
    ensures i < |c.inputs| && InputsUpTo(WithInput(c, i), inpGates, i, j + 1)
  {
    hide Sum;
  }

  /** Output gates of all parties, reading the last layer round robin. */
  method AddOutputs(b: Builder, outGates: seq<nat>, width: nat, depth: nat)
    requires b.Valid() && WellLayered(b.Built()) && |b.outputs| == |outGates|
    requires forall i :: 0 <= i < |outGates| ==> b.outputs[i] == []
    requires 0 < depth == |b.mults| && |b.mults[depth - 1]| == width && (width > 0 || Sum(outGates) == 0)
    modifies b
    ensures b.Valid() && WellLayered(b.Built())
    ensures b.inputs == old(b.inputs) && b.inputOrder == old(b.inputOrder) && b.mults == old(b.mults) && |b.outputs| == |outGates|
    ensures forall i :: 0 <= i < |outGates| ==> |b.outputs[i]| == outGates[i]
    ensures old(b.gates) <= b.gates && OutputsRead(b.gates, b.outputs, b.mults[depth - 1], outGates)
  {
    hide WellLayered, WellFormed, OutputAt;
    ghost var last := b.mults[depth - 1];
    var ctr := 0;
    assert outGates[..0] == [];
    WellFormedIsTopological(b.Built());
    for i := 0 to |outGates|
      invariant b.Valid() && Topological(b.Built()) && WellLayered(b.Built()) && |b.outputs| == |outGates|
      invariant b.inputs == old(b.inputs) && b.inputOrder == old(b.inputOrder) && b.mults == old(b.mults) && old(b.gates) <= b.gates
      invariant ctr == Sum(outGates[..i]) && OutputsUpTo(b.gates, b.outputs, last, outGates, i, 0)
    {
      for j := 0 to outGates[i]
        invariant b.Valid() && Topological(b.Built()) && WellLayered(b.Built()) && |b.outputs| == |outGates|
        invariant b.inputs == old(b.inputs) && b.inputOrder == old(b.inputOrder) && b.mults == old(b.mults) && old(b.gates) <= b.gates
        invariant ctr == Sum(outGates[..i]) + j && OutputsUpTo(b.gates, b.outputs, last, outGates, i, j)
      {
        SomeOutput(outGates, |outGates|, i);
        NextOutput(b, outGates, width, depth, i, j, ctr);
        ctr := ctr + 1;
      }
      SumStep(outGates, i);
    }
  }

  lemma {:induction false} SomeOutput(s: seq<nat>, m: nat, i: nat)
    requires i < m <= |s|
    ensures Sum(s[..m]) >= s[i] && s[..|s|] == s
  {
    SumStep(s, m - 1);
    if i < m - 1 { SomeOutput(s, m - 1, i); }
  }

  method NextOutput(b: Builder, ghost outGates: seq<nat>, width: nat, depth: nat, i: nat, ghost j: nat, ctr: nat)
    requires b.Valid() && WellLayered(b.Built()) && i < |b.outputs| == |outGates|
    requires 0 < depth == |b.mults| && |b.mults[depth - 1]| == width > 0
    requires ctr == Sum(outGates[..i]) + j && OutputsUpTo(b.gates, b.outputs, b.mults[depth - 1], outGates, i, j)
    modifies b
    ensures b.Valid() && Topological(b.Built()) && WellLayered(b.Built()) && |b.outputs| == |outGates|
    ensures b.inputs == old(b.inputs) && b.inputOrder == old(b.inputOrder) && b.mults == old(b.mults) && old(b.gates) <= b.gates
    ensures OutputsUpTo(b.gates, b.outputs, b.mults[depth - 1], outGates, i, j + 1)
  {
    hide WellLayered, WellFormed, OutputsUpTo;
    WellFormedIsTopological(b.Built());
    ghost var last := b.mults[depth - 1];
    var x := b.mults[depth - 1][ctr % width];
    GateThere(b.Built(), depth - 1, ctr % width);
    OutputStays(b.Built(), i, x);
    OutputAdded(b.gates, b.outputs, last, outGates, i, j, x);
    var id := b.Output(i, x);
    WellFormedIsTopological(b.Built());
  }

  /** The j-th output gate of party i reads the row round robin, counting all outputs. */
  predicate OutputAt(gates: seq<Gate>, outputs: seq<seq<nat>>, row: seq<nat>, outGates: seq<nat>, i: nat, j: nat) {
    && i < |outputs| && i < |outGates| && j < |outputs[i]| && outputs[i][j] < |gates| && row != []
    && gates[outputs[i][j]] == OutputGate(i, row[(Sum(outGates[..i]) + j) % |row|])
  }

  predicate OutputsRead(gates: seq<Gate>, outputs: seq<seq<nat>>, row: seq<nat>, outGates: seq<nat>) {
    forall i, j :: 0 <= i < |outGates| && 0 <= j < outGates[i] ==> OutputAt(gates, outputs, row, outGates, i, j)
  }

  /** The outputs before the j-th of party i are in place, and no others. */
  predicate OutputsUpTo(gates: seq<Gate>, outputs: seq<seq<nat>>, row: seq<nat>, outGates: seq<nat>, i: nat, j: nat) {
    && |outputs| == |outGates|
    && (forall q :: 0 <= q < |outputs| ==> |outputs[q]| == if q < i then outGates[q] else if q == i then j else 0)
    && forall q, d :: 0 <= q < |outputs| && 0 <= d < |outputs[q]| ==> OutputAt(gates, outputs, row, outGates, q, d)
  }

  lemma OutputAdded(gates: seq<Gate>, outputs: seq<seq<nat>>, row: seq<nat>, outGates: seq<nat>, i: nat, j: nat, x: nat)
    requires i < |outputs| && OutputsUpTo(gates, outputs, row, outGates, i, j)
    requires row != [] && x == row[(Sum(outGates[..i]) + j) % |row|]
    ensures OutputsUpTo(gates + [OutputGate(i, x)], outputs[i := outputs[i] + [|gates|]], row, outGates, i, j + 1)
  {
    hide Sum;
    var more, outs := gates + [OutputGate(i, x)], outputs[i := outputs[i] + [|gates|]];
    forall q, d | 0 <= q < |outs| && 0 <= d < |outs[q]| ensures OutputAt(more, outs, row, outGates, q, d) {
      if q != i || d < j { assert OutputAt(gates, outputs, row, outGates, q, d); }
    }
  }

  lemma GateThere(c: Circuit, l: nat, p: nat)
    requires WellFormed(c) && l < |c.mults| && p < |c.mults[l]|
    ensures c.mults[l][p] < |c.gates|
  {
  }

  /** The four checks of FromConfig. */
  predicate Accepted(config: CircuitConfig) {
    && config.nParties == |config.inpGates| == |config.outGates| && Sum(config.inpGates) > 0
    && config.width % Sum(config.inpGates) == 0 && Sum(config.inpGates) % 2 == 0
  }

  /** FromConfig, wherever the source neither divides by zero nor reads a gate that does not exist: the
      circuit has the requested shape, meets the layering precondition of both protocols and computes
      what ConfigValue says. A circuit has a first layer even when no layers are asked for. */
  method FromConfig(config: CircuitConfig) returns (r: Result<Circuit, ConfigError>)
    requires config.nParties == |config.inpGates| == |config.outGates| ==> Sum(config.inpGates) > 0
    requires Accepted(config) ==> Sum(config.outGates) == 0 || (config.width > 0 && config.depth > 0)
    ensures config.nParties != |config.inpGates| ==> r == Failure(InputVectorLength)
    ensures config.nParties == |config.inpGates| != |config.outGates| ==> r == Failure(OutputVectorLength)
    ensures config.nParties == |config.inpGates| == |config.outGates| ==>
              if config.width % Sum(config.inpGates) != 0 then r == Failure(WidthNotMultiple)
              else if Sum(config.inpGates) % 2 != 0 then r == Failure(OddInputs)
              else r.Success?
    ensures r.Success? ==> WellFormed(r.value) && WellLayered(r.value)
    ensures r.Success? ==> |r.value.mults| == (if config.depth > 0 then config.depth else 1)
    ensures r.Success? ==> forall d :: 0 <= d < |r.value.mults| ==> |r.value.mults[d]| == config.width
    ensures r.Success? ==> |r.value.inputs| == |r.value.outputs| == config.nParties
    ensures r.Success? ==> forall i :: 0 <= i < config.nParties ==>
              |r.value.inputs[i]| == config.inpGates[i] && |r.value.outputs[i]| == config.outGates[i]
    ensures r.Success? ==> |r.value.inputOrder| == Sum(config.inpGates) && PairsOf(r.value.gates, r.value.inputOrder, r.value.mults[0])
    ensures r.Success? ==> forall p :: 0 <= p < |r.value.inputOrder| ==> r.value.inputOrder[p] == p
    ensures r.Success? ==> forall i, j :: 0 <= i < config.nParties && 0 <= j < config.inpGates[i] ==>
              r.value.inputs[i][j] == Sum(config.inpGates[..i]) + j
    ensures r.Success? ==> forall d :: 1 <= d < |r.value.mults| ==> PairsOf(r.value.gates, r.value.mults[d - 1], r.value.mults[d])
    ensures r.Success? && config.depth > 0 ==> OutputsRead(r.value.gates, r.value.outputs, r.value.mults[config.depth - 1], config.outGates)
    ensures r.Success? ==> forall x :: HasInputs(r.value, x) ==> Computes(r.value, config, x)
  {
    hide WellLayered, Topological, InputsListed, MultsListed, OutputsListed, Computes, PairsOf, OutputsRead;
    var nInputs := Sum(config.inpGates);
    if config.nParties != |config.inpGates| { return Failure(InputVectorLength); }
    if config.nParties != |config.outGates| { return Failure(OutputVectorLength); }
    if config.width % nInputs != 0 { return Failure(WidthNotMultiple); }
    if nInputs % 2 != 0 { return Failure(OddInputs); }
    EvenWidth(config.width, nInputs);
    var b := new Builder(config.nParties);
    AddInputs(b, config.inpGates);
    FirstLayer(b, nInputs, config.width);
    var layers := if config.depth > 0 then config.depth else 1;
    for d := 1 to layers
      invariant b.Valid() && WellLayered(b.Built()) && Shape(b.Built(), config, d)
    {
      ghost var c := b.Built();
      NextLayer(b, config.width, d);
      ShapeGrows(c, b.Built(), config, d);
    }
    ghost var before := b.Built();
    AddOutputs(b, config.outGates, config.width, layers);
    ShapeKept(before, config, b.gates);
    forall x | HasInputs(b.Built(), x) ensures Computes(b.Built(), config, x) { ConfigComputes(b.Built(), config, x); }
    return Success(b.Built());
  }

  // ---- What the circuit computes ----

  /** The value of gate p of layer d for inputs v: products of two neighbours with their sum, where the
      first layer goes through the inputs again and again. */
  function ConfigValue(v: seq<Elem>, d: nat, p: nat): Elem
    requires v != []
  {
    var even := p - p % 2;
    var a := if d == 0 then v[even % |v|] else ConfigValue(v, d - 1, even);
    var b := if d == 0 then v[(even + 1) % |v|] else ConfigValue(v, d - 1, even + 1);
    Mul(if p % 2 == 0 then a else b, Add(a, b))
  }

  /** The inputs of all parties, one party after the other. */
  function InputValues(n: nat, x: map<nat, Elem>): (v: seq<Elem>)
    requires forall p :: 0 <= p < n ==> p in x
    ensures |v| == n
  {
    seq(n, p requires 0 <= p < n => x[p])
  }

  /** Every output is the value of a gate of the last layer, which they share out round robin. */
  ghost predicate Computes(c: Circuit, config: CircuitConfig, x: map<nat, Elem>)
    requires Topological(c) && HasInputs(c, x)
  {
    var n := Sum(config.inpGates);
    && n > 0 && (forall p :: 0 <= p < n ==> p in x) && |c.outputs| == |config.outGates|
    && forall i, j :: 0 <= i < |c.outputs| && 0 <= j < |c.outputs[i]| ==>
         && config.width > 0 && config.depth > 0 && c.outputs[i][j] < |c.gates|
         && Clear(c, x, c.outputs[i][j]) == ConfigValue(InputValues(n, x), config.depth - 1, (Sum(config.outGates[..i]) + j) % config.width)
  }

  /** The first n gates are the inputs, and every layer pairs the row before it. */
  ghost predicate Paired(c: Circuit, width: nat) {
    && WellFormed(c) && 0 < |c.inputOrder| && width % 2 == 0 && (forall p :: 0 <= p < |c.inputOrder| ==> c.inputOrder[p] == p)
    && (forall d :: 0 <= d < |c.mults| ==> |c.mults[d]| == width) && LayersPaired(c.gates, c.inputOrder, c.mults)
  }

  /** The value of entry p of a row that pairs the given operands. */
  lemma RowValue(c: Circuit, x: map<nat, Elem>, ops: seq<nat>, row: seq<nat>, p: nat, l: nat, r: nat)
    requires Topological(c) && HasInputs(c, x) && PairsOf(c.gates, ops, row) && |row| % 2 == 0 && p < |row| && ops != []
    requires l == ops[(p - p % 2) % |ops|] && r == ops[(p - p % 2 + 1) % |ops|]
    ensures l < |c.gates| && r < |c.gates| && row[p] < |c.gates|
    ensures Clear(c, x, row[p]) == Mul(if p % 2 == 0 then Clear(c, x, l) else Clear(c, x, r), Add(Clear(c, x, l), Clear(c, x, r)))
  {
    hide Mul, Add, Clear, IsPair, Topological, HasInputs;
    var i := p / 2;
    assert p - p % 2 == 2 * i && i < |row| / 2;
    assert PairAt(c.gates, ops, row, i);
    PairValues(c, x, l, r, row[2 * i], row[2 * i + 1]);
    IsPairGates(c, l, r, row[2 * i], row[2 * i + 1]);
  }

  lemma {:induction false} LayerValues(c: Circuit, width: nat, x: map<nat, Elem>, d: nat, p: nat)
    requires Paired(c, width) && HasInputs(c, x) && d < |c.mults| && p < width
    ensures forall q :: 0 <= q < |c.inputOrder| ==> q in x
    ensures c.mults[d][p] < |c.gates| && Clear(c, x, c.mults[d][p]) == ConfigValue(InputValues(|c.inputOrder|, x), d, p)
    decreases d
  {
    hide Mul, Add, Clear, PairsOf, InputsListed, MultsListed, OutputsListed, Topological, HasInputs;
    OrderInputs(c, x);
    var even := p - p % 2;
    if d > 0 {
      EvenNext(p, width);
      SmallRemainder(even, width);
      SmallRemainder(even + 1, width);
      RowValue(c, x, c.mults[d - 1], c.mults[d], p, c.mults[d - 1][even], c.mults[d - 1][even + 1]);
      LayerValues(c, width, x, d - 1, even);
      LayerValues(c, width, x, d - 1, even + 1);
    } else {
      var n := |c.inputOrder|;
      RowValue(c, x, c.inputOrder, c.mults[0], p, c.inputOrder[even % n], c.inputOrder[(even + 1) % n]);
      InputValue(c, x, even % n);
      InputValue(c, x, (even + 1) % n);
    }
  }

  lemma EvenNext(p: nat, width: nat)
    requires p < width && width % 2 == 0
    ensures p - p % 2 + 1 < width
  {
  }

  lemma IsPairGates(c: Circuit, l: nat, r: nat, m: nat, m': nat)
    requires IsPair(c.gates, l, r, m, m')
    ensures m < |c.gates| && m' < |c.gates|
  {
  }

  lemma OrderInputs(c: Circuit, x: map<nat, Elem>)
    requires WellFormed(c) && HasInputs(c, x) && forall p :: 0 <= p < |c.inputOrder| ==> c.inputOrder[p] == p
    ensures forall q :: 0 <= q < |c.inputOrder| ==> q in x && q < |c.gates| && c.gates[q].InputGate?
  {
    hide Topological, MultsListed, OutputsListed;
    forall q | 0 <= q < |c.inputOrder| ensures q in x && q < |c.gates| && c.gates[q].InputGate? { assert c.inputOrder[q] == q; }
  }

  lemma InputValue(c: Circuit, x: map<nat, Elem>, id: nat)
    requires Topological(c) && HasInputs(c, x) && id < |c.gates| && c.gates[id].InputGate?
    ensures Clear(c, x, id) == x[id]
  {
  }

  lemma ConfigComputes(c: Circuit, config: CircuitConfig, x: map<nat, Elem>)
    requires Paired(c, config.width) && HasInputs(c, x) && |c.inputOrder| == Sum(config.inpGates) && |c.outputs| == |config.outGates|
    requires |c.mults| == (if config.depth > 0 then config.depth else 1) && forall i :: 0 <= i < |c.outputs| ==> |c.outputs[i]| == config.outGates[i]
    requires Sum(config.outGates) == 0 || (config.width > 0 && config.depth > 0)
    requires OutputsRead(c.gates, c.outputs, c.mults[|c.mults| - 1], config.outGates)
    ensures Computes(c, config, x)
  {
    hide Clear, ConfigValue, InputsListed, MultsListed, OutputsListed, Topological, LayersPaired;
    OrderInputs(c, x);
    forall i, j | 0 <= i < |c.outputs| && 0 <= j < |c.outputs[i]|
      ensures config.width > 0 && config.depth > 0 && c.outputs[i][j] < |c.gates|
      ensures Clear(c, x, c.outputs[i][j])
           == ConfigValue(InputValues(|c.inputOrder|, x), config.depth - 1, (Sum(config.outGates[..i]) + j) % config.width)
    {
      SomeOutput(config.outGates, |config.outGates|, i);
      assert OutputAt(c.gates, c.outputs, c.mults[|c.mults| - 1], config.outGates, i, j);
      var p := (Sum(config.outGates[..i]) + j) % config.width;
      LayerValues(c, config.width, x, config.depth - 1, p);
      OutputValue(c, x, c.outputs[i][j]);
    }
  }

  lemma OutputValue(c: Circuit, x: map<nat, Elem>, id: nat)
    requires Topological(c) && HasInputs(c, x) && id < |c.gates| && c.gates[id].OutputGate?
    ensures Clear(c, x, id) == Clear(c, x, c.gates[id].left)
  {
  }

  /** The circuit after d layers, before outputs. */
  ghost predicate Shape(c: Circuit, config: CircuitConfig, d: nat) {
    && |c.inputs| == |c.outputs| == |config.inpGates| && |c.inputOrder| == Sum(config.inpGates)
    && (forall i :: 0 <= i < |c.inputs| ==> |c.inputs[i]| == config.inpGates[i] && c.outputs[i] == [])
    && (forall i, j :: 0 <= i < |c.inputs| && 0 <= j < config.inpGates[i] ==> c.inputs[i][j] == Sum(config.inpGates[..i]) + j)
    && (forall p :: 0 <= p < |c.inputOrder| ==> c.inputOrder[p] == p)
    && |c.mults| == d && (forall q :: 0 <= q < d ==> |c.mults[q]| == config.width)
    && LayersPaired(c.gates, c.inputOrder, c.mults)
  }

  ghost predicate LayersPaired(gates: seq<Gate>, inputOrder: seq<nat>, mults: seq<seq<nat>>) {
    && (mults != [] ==> PairsOf(gates, inputOrder, mults[0]))
    && forall q :: 1 <= q < |mults| ==> PairsOf(gates, mults[q - 1], mults[q])
  }

  lemma ShapeKept(c: Circuit, config: CircuitConfig, more: seq<Gate>)
    requires Shape(c, config, |c.mults|) && c.gates <= more
    ensures LayersPaired(more, c.inputOrder, c.mults)
  {
    if c.mults != [] { PairsKept(c.gates, more, c.inputOrder, c.mults[0]); }
    forall q | 1 <= q < |c.mults| ensures PairsOf(more, c.mults[q - 1], c.mults[q]) {
      PairsKept(c.gates, more, c.mults[q - 1], c.mults[q]);
    }
  }

  lemma ShapeGrows(c: Circuit, d: Circuit, config: CircuitConfig, layers: nat)
    requires Shape(c, config, layers) && layers > 0 && c.gates <= d.gates && |d.mults| == layers + 1 && d.mults[..layers] == c.mults
    requires d.inputs == c.inputs && d.outputs == c.outputs && d.inputOrder == c.inputOrder
    requires |d.mults[layers]| == config.width && PairsOf(d.gates, d.mults[layers - 1], d.mults[layers])
    ensures Shape(d, config, layers + 1)
  {
    hide PairsOf;
    ShapeKept(c, config, d.gates);
    assert forall q :: 0 <= q < layers ==> d.mults[q] == d.mults[..layers][q];
  }

  lemma EvenWidth(width: nat, nInputs: nat)
    requires nInputs > 0 && width % nInputs == 0 && nInputs % 2 == 0
    ensures width % 2 == 0 && 2 * (width / 2) == width
  {
    var q, h := width / nInputs, nInputs / 2;
    assert width == q * nInputs == 2 * (q * h) by { assert nInputs == 2 * h; }
  }

  /** The next pair of the current layer. */
  method NextPair(b: Builder, ops: seq<nat>, i: nat)
    requires b.Valid() && WellLayered(b.Built()) && ops != []
    requires EarlierLeaf(b.Built(), ops[(2 * i) % |ops|]) && EarlierLeaf(b.Built(), ops[(2 * i + 1) % |ops|])
    requires |b.mults[|b.mults| - 1]| == 2 * i && PairsOf(b.gates, ops, b.mults[|b.mults| - 1])
    modifies b
    ensures b.Valid() && Topological(b.Built()) && WellLayered(b.Built())
    ensures b.inputs == old(b.inputs) && b.inputOrder == old(b.inputOrder) && b.outputs == old(b.outputs)
    ensures |b.mults| == |old(b.mults)| && b.mults[..|b.mults| - 1] == old(b.mults)[..|b.mults| - 1]
    ensures old(b.gates) <= b.gates
    ensures |b.mults[|b.mults| - 1]| == 2 * i + 2 && PairsOf(b.gates, ops, b.mults[|b.mults| - 1])
  {
    hide WellLayered, WellFormed, EarlierLeaf, PairsOf;
    var x := ops[(2 * i) % |ops|];
    var y := ops[(2 * i + 1) % |ops|];
    PairAdded(b.gates, ops, b.mults[|b.mults| - 1], i, b.gates + [AddGate(x, y), MultGate(x, |b.gates|), MultGate(y, |b.gates|)]);
    AddPair(b, x, y);
    WellFormedIsTopological(b.Built());
  }

  method FirstLayer(b: Builder, nInputs: nat, width: nat)
    requires b.Valid() && WellLayered(b.Built()) && b.mults == [[]] && |b.inputOrder| == nInputs > 0 && 2 * (width / 2) == width
    modifies b
    ensures b.Valid() && WellLayered(b.Built()) && |b.mults| == 1 && |b.mults[0]| == width
    ensures b.inputs == old(b.inputs) && b.outputs == old(b.outputs) && b.inputOrder == old(b.inputOrder)
    ensures old(b.gates) <= b.gates && PairsOf(b.gates, b.inputOrder, b.mults[0])
  {
    hide WellLayered, WellFormed, EarlierLeaf, PairsOf;
    WellFormedIsTopological(b.Built());
    NoPairs(b.gates, b.inputOrder);
    for i := 0 to width / 2
      invariant b.Valid() && Topological(b.Built()) && WellLayered(b.Built()) && |b.mults| == 1 && |b.mults[0]| == 2 * i
      invariant b.inputs == old(b.inputs) && b.outputs == old(b.outputs) && b.inputOrder == old(b.inputOrder)
      invariant old(b.gates) <= b.gates && PairsOf(b.gates, b.inputOrder, b.mults[0])
    {
      AnInput(b.Built(), (2 * i) % nInputs);
      AnInput(b.Built(), (2 * i + 1) % nInputs);
      NextPair(b, b.inputOrder, i);
    }
  }

  method NextLayer(b: Builder, width: nat, d: nat)
    requires b.Valid() && WellLayered(b.Built()) && |b.mults| == d > 0 && |b.mults[d - 1]| == width && 2 * (width / 2) == width
    modifies b
    ensures b.Valid() && WellLayered(b.Built()) && |b.mults| == d + 1 && b.mults[..d] == old(b.mults) && |b.mults[d]| == width
    ensures b.inputs == old(b.inputs) && b.outputs == old(b.outputs) && b.inputOrder == old(b.inputOrder)
    ensures old(b.gates) <= b.gates && PairsOf(b.gates, b.mults[d - 1], b.mults[d])
  {
    hide WellLayered, WellFormed, EarlierLeaf, PairsOf;
    LayerKeepsWellFormed(b.Built());
    b.NewLayer();
    WellFormedIsTopological(b.Built());
    ghost var before := old(b.mults);
    var ops := b.mults[d - 1];
    NoPairs(b.gates, ops);
    for i := 0 to width / 2
      invariant b.Valid() && Topological(b.Built()) && WellLayered(b.Built())
      invariant |b.mults| == d + 1 && b.mults[..d] == before && b.mults[d - 1] == ops && |b.mults[d]| == 2 * i
      invariant b.inputs == old(b.inputs) && b.outputs == old(b.outputs) && b.inputOrder == old(b.inputOrder)
      invariant old(b.gates) <= b.gates && PairsOf(b.gates, ops, b.mults[d])
    {
      OperandsReady(b.Built(), d, i);
      NextPair(b, ops, i);
      assert b.mults[d - 1] == b.mults[..d][d - 1];
    }
  }

  lemma NoPairs(gates: seq<Gate>, ops: seq<nat>)
    ensures PairsOf(gates, ops, [])
  {
  }

  lemma OperandsReady(c: Circuit, d: nat, i: nat)
    requires WellFormed(c) && 0 < d == |c.mults| - 1 && 2 * i + 1 < |c.mults[d - 1]|
    ensures var ops := c.mults[d - 1]; EarlierLeaf(c, ops[(2 * i) % |ops|]) && EarlierLeaf(c, ops[(2 * i + 1) % |ops|])
  {
    hide WellFormed, EarlierLeaf;
    SmallRemainder(2 * i, |c.mults[d - 1]|);
    SmallRemainder(2 * i + 1, |c.mults[d - 1]|);
    AMult(c, d - 1, 2 * i);
    AMult(c, d - 1, 2 * i + 1);
  }

  lemma SmallRemainder(a: nat, n: nat)
    requires a < n
    ensures a % n == a
  {
  }
}
