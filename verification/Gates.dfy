/** Values cached in gates and the recursion over operands (gate.h, input_gate.h, mult_gate.h,
    output_gate.h, cleartext.cc), and the layers that collect gates into batches. Gates are known by
    their position in the circuit; a table holds one field of all of them. */
module Gates {
  import opened Field
  import opened Circuits
  import opened Wrappers

  // ---- mMu and mDn07Share: leaves are set by the protocol, the rest is computed on demand ----

  /** More leaves do not change the values that were available before. */
  lemma {:induction false} SpreadGrows(c: Circuit, leaf: map<nat, Elem>, more: map<nat, Elem>, id: nat)
    requires Topological(c) && id < |c.gates| && Known(c, leaf.Keys, id)
    requires forall g :: g in leaf ==> g in more && more[g] == leaf[g]
    ensures Known(c, more.Keys, id) && Spread(c, more, id) == Spread(c, leaf, id)
    decreases id
  {
    match c.gates[id]
    case InputGate(_) =>
    case AddGate(l, r) => SpreadGrows(c, leaf, more, l); SpreadGrows(c, leaf, more, r);
    case MultGate(_, _) =>
    case OutputGate(_, l) => SpreadGrows(c, leaf, more, l);
  }

  class WireValues {
    const c: Circuit
    var leaf: map<nat, Elem>
    var memo: map<nat, Elem>

    /** Only leaves are set, and every cached value is the sum of its leaves. */
    ghost predicate Valid()
      reads this
    {
      && Topological(c)
      && (forall id :: id in leaf ==> IsLeaf(c, id))
      && (forall id :: id in memo ==> Cached(id))
    }

    ghost predicate Cached(id: nat)
      requires Topological(c)
      reads this
    {
      id in memo && id < |c.gates| && Known(c, leaf.Keys, id) && memo[id] == Spread(c, leaf, id)
    }

    constructor (c: Circuit)
      requires Topological(c)
      ensures Valid() && this.c == c && leaf == map[] && memo == map[]
    {
      this.c, leaf, memo := c, map[], map[];
    }

    /** Set a leaf (SetDn07Share, or mMu and mLearned in P1Receives). Cached values are not cleared, so
        they stay right unless a leaf that has been set before gets another value. */
    method Learn(id: nat, v: Elem)
      requires Valid() && IsLeaf(c, id)
      modifies this
      ensures leaf == old(leaf)[id := v] && memo == old(memo)
      ensures (id in old(leaf) ==> old(leaf)[id] == v) || memo == map[] ==> Valid()
    {
      leaf := leaf[id := v];
      if id in old(leaf) ==> old(leaf)[id] == v {
        forall g | g in memo ensures Cached(g) {
          assert old(Cached(g));
          SpreadGrows(c, old(leaf), leaf, g);
        }
      }
    }

    /** GetMu and GetDn07Share: None where the code throws because a leaf is not set. */
    method Get(id: nat) returns (r: Option<Elem>)
      requires Valid() && id < |c.gates|
      modifies this`memo
      ensures Valid() && leaf == old(leaf)
      ensures r.Some? <==> Known(c, leaf.Keys, id)
      ensures r.Some? ==> r.value == Spread(c, leaf, id)
      decreases id
    {
      match c.gates[id]
      case InputGate(_) =>
        if id in leaf { return Some(leaf[id]); }
        return None;
      case MultGate(_, _) =>
        if id in leaf { return Some(leaf[id]); }
        return None;
      case AddGate(l, q) =>
        if id in memo { assert Cached(id); return Some(memo[id]); }
        var a := Get(l);
        if a.None? { return None; }
        var b := Get(q);
        if b.None? { return None; }
        memo := memo[id := Add(a.value, b.value)];
        return Some(memo[id]);
      case OutputGate(_, l) =>
        if id in memo { assert Cached(id); return Some(memo[id]); }
        var a := Get(l);
        if a.None? { return None; }
        memo := memo[id := a.value];
        return Some(memo[id]);
    }
  }

  // ---- mClear ----

  /** Cleartext evaluation when some inputs may be missing. */
  function ClearOrNone(c: Circuit, x: map<nat, Elem>, id: nat): Option<Elem>
    requires Topological(c) && id < |c.gates|
    decreases id
  {
    match c.gates[id]
    case InputGate(_) => if id in x then Some(x[id]) else None
    case AddGate(l, r) =>
      var a, b := ClearOrNone(c, x, l), ClearOrNone(c, x, r);
      if a.Some? && b.Some? then Some(Add(a.value, b.value)) else None
    case MultGate(l, r) =>
      var a, b := ClearOrNone(c, x, l), ClearOrNone(c, x, r);
      if a.Some? && b.Some? then Some(Mul(a.value, b.value)) else None
    case OutputGate(_, l) => ClearOrNone(c, x, l)
  }

  /** With all inputs it is the reference semantics. */
  lemma {:induction false} ClearWithInputs(c: Circuit, x: map<nat, Elem>, id: nat)
    requires Topological(c) && id < |c.gates| && HasInputs(c, x)
    ensures ClearOrNone(c, x, id) == Some(Clear(c, x, id))
    decreases id
  {
    match c.gates[id]
    case InputGate(_) =>
    case AddGate(l, r) => ClearWithInputs(c, x, l); ClearWithInputs(c, x, r);
    case MultGate(l, r) => ClearWithInputs(c, x, l); ClearWithInputs(c, x, r);
    case OutputGate(_, l) => ClearWithInputs(c, x, l);
  }

  // ---- Which inputs an evaluation needs ----

  predicate IsOperand(c: Circuit, id: nat, g: nat)
    requires id < |c.gates|
  {
    match c.gates[id]
    case InputGate(_) => false
    case AddGate(l, r) => g == l || g == r
    case MultGate(l, r) => g == l || g == r
    case OutputGate(_, l) => g == l
  }

  /** Each gate of the path is an operand of the one before. */
  ghost predicate IsPath(c: Circuit, path: seq<nat>) {
    && path != [] && (forall i :: 0 <= i < |path| ==> path[i] < |c.gates|)
    && forall i :: 0 <= i < |path| - 1 ==> IsOperand(c, path[i], path[i + 1])
  }

  /** Gate g is found from gate id by going from operand to operand. */
  ghost predicate Reaches(c: Circuit, id: nat, g: nat) {
    exists path :: IsPath(c, path) && path[0] == id && path[|path| - 1] == g
  }

  /** All input gates that can be reached from the gate have their values. */
  ghost predicate NeededThere(c: Circuit, x: map<nat, Elem>, id: nat) {
    forall g :: 0 <= g < |c.gates| && c.gates[g].InputGate? && Reaches(c, id, g) ==> g in x
  }

  lemma ReachesSelf(c: Circuit, id: nat)
    requires id < |c.gates|
    ensures Reaches(c, id, id)
  {
    assert IsPath(c, [id]);
  }

  lemma ReachesFurther(c: Circuit, id: nat, q: nat, g: nat)
    requires id < |c.gates| && IsOperand(c, id, q) && Reaches(c, q, g)
    ensures Reaches(c, id, g)
  {
    var path :| IsPath(c, path) && path[0] == q && path[|path| - 1] == g;
    assert IsPath(c, [id] + path);
  }

  /** A path either ends where it starts or goes on from an operand. */
  lemma ReachesFirst(c: Circuit, id: nat, g: nat) returns (q: nat)
    requires id < |c.gates| && Reaches(c, id, g) && g != id
    ensures IsOperand(c, id, q) && Reaches(c, q, g)
  {
    var path :| IsPath(c, path) && path[0] == id && path[|path| - 1] == g;
    q := path[1];
    assert IsPath(c, path[1..]);
  }

  /** An evaluation has a value if and only if every input gate reachable from the gate has one. */
  lemma {:induction false} SomeExactly(c: Circuit, x: map<nat, Elem>, id: nat)
    requires Topological(c) && id < |c.gates|
    ensures ClearOrNone(c, x, id).Some? <==> NeededThere(c, x, id)
    decreases id
  {
    hide Reaches;
    match c.gates[id]
    case InputGate(_) =>
      ReachesSelf(c, id);
      forall g | 0 <= g < |c.gates| && Reaches(c, id, g) ensures g == id {
        if g != id { var q := ReachesFirst(c, id, g); }
      }
    case AddGate(l, r) => OperandsNeeded(c, x, id, l, r); SomeExactly(c, x, l); SomeExactly(c, x, r);
    case MultGate(l, r) => OperandsNeeded(c, x, id, l, r); SomeExactly(c, x, l); SomeExactly(c, x, r);
    case OutputGate(_, l) => OperandsNeeded(c, x, id, l, l); SomeExactly(c, x, l);
  }

  lemma OperandsNeeded(c: Circuit, x: map<nat, Elem>, id: nat, l: nat, r: nat)
    requires id < |c.gates| && !c.gates[id].InputGate? && forall q: nat :: IsOperand(c, id, q) <==> q == l || q == r
    ensures NeededThere(c, x, id) <==> NeededThere(c, x, l) && NeededThere(c, x, r)
  {
    hide Reaches, IsOperand;
    forall g | 0 <= g < |c.gates| && c.gates[g].InputGate? ensures Reaches(c, id, g) <==> Reaches(c, l, g) || Reaches(c, r, g) {
      if Reaches(c, id, g) { var q := ReachesFirst(c, id, g); }
      if Reaches(c, l, g) { ReachesFurther(c, id, l, g); }
      if Reaches(c, r, g) { ReachesFurther(c, id, r, g); }
    }
  }

  /** What it gives is the value under every assignment that agrees with the inputs set so far. */
  lemma {:induction false} SomeIsClear(c: Circuit, x: map<nat, Elem>, id: nat, more: map<nat, Elem>)
    requires Topological(c) && id < |c.gates| && ClearOrNone(c, x, id).Some? && Completes(c, x, more)
    ensures ClearOrNone(c, x, id).value == Clear(c, more, id)
    decreases id
  {
    match c.gates[id]
    case InputGate(_) =>
    case AddGate(l, r) => SomeIsClear(c, x, l, more); SomeIsClear(c, x, r, more);
    case MultGate(l, r) => SomeIsClear(c, x, l, more); SomeIsClear(c, x, r, more);
    case OutputGate(_, l) => SomeIsClear(c, x, l, more);
  }

  /** All inputs have values, and those of x are the same. */
  ghost predicate Completes(c: Circuit, x: map<nat, Elem>, more: map<nat, Elem>) {
    HasInputs(c, more) && forall g :: g in x ==> g in more && more[g] == x[g]
  }

  /** The value is that of the cleartext semantics, whatever the inputs that are missing may be. */
  ghost predicate IsValue(c: Circuit, x: map<nat, Elem>, id: nat, v: Elem)
    requires Topological(c) && id < |c.gates|
  {
    forall more :: Completes(c, x, more) ==> v == Clear(c, more, id)
  }

  lemma Evaluated(c: Circuit, x: map<nat, Elem>, id: nat)
    requires Topological(c) && id < |c.gates|
    ensures ClearOrNone(c, x, id).Some? <==> NeededThere(c, x, id)
    ensures ClearOrNone(c, x, id).Some? ==> IsValue(c, x, id, ClearOrNone(c, x, id).value)
  {
    hide ClearOrNone, Clear, NeededThere;
    SomeExactly(c, x, id);
    if ClearOrNone(c, x, id).Some? {
      forall more | Completes(c, x, more) ensures ClearOrNone(c, x, id).value == Clear(c, more, id) { SomeIsClear(c, x, id, more); }
    }
  }

  class ClearValues {
    const c: Circuit
    var inputs: map<nat, Elem>
    var memo: map<nat, Elem>

    ghost predicate Valid()
      reads this
    {
      WellFormed(c) && forall id :: id in memo ==> id < |c.gates| && ClearOrNone(c, inputs, id) == Some(memo[id])
    }

    constructor (c: Circuit)
      requires WellFormed(c)
      ensures Valid() && this.c == c && inputs == map[] && memo == map[]
    {
      this.c, inputs, memo := c, map[], map[];
    }

    /** Throws exactly when an input gate that can be reached from the gate has no value, and otherwise
        gives the gate's value, whatever the other inputs are. */
    method GetClear(id: nat) returns (r: Option<Elem>)
      requires Valid() && id < |c.gates|
      modifies this`memo
      ensures Valid() && inputs == old(inputs) && r == ClearOrNone(c, inputs, id)
      ensures r.Some? <==> NeededThere(c, inputs, id)
      ensures r.Some? ==> IsValue(c, inputs, id, r.value)
      decreases id
    {
      hide Mul, Mod, Add, InputsListed, MultsListed, OutputsListed, NeededThere, IsValue;
      Evaluated(c, inputs, id);
      if id in memo { return Some(memo[id]); }
      match c.gates[id]
      case InputGate(_) =>
        if id in inputs { return Some(inputs[id]); }
        return None;
      case AddGate(l, q) =>
        var a := GetClear(l);
        if a.None? { return None; }
        var b := GetClear(q);
        if b.None? { return None; }
        memo := memo[id := Add(a.value, b.value)];
        return Some(memo[id]);
      case MultGate(l, q) =>
        var a := GetClear(l);
        if a.None? { return None; }
        var b := GetClear(q);
        if b.None? { return None; }
        memo := memo[id := Mul(a.value, b.value)];
        return Some(memo[id]);
      case OutputGate(_, l) =>
        var a := GetClear(l);
        if a.None? { return None; }
        memo := memo[id := a.value];
        return Some(memo[id]);
    }

    /** SetClearInputs: rejected unless there is one list per client and it has one value per input gate.
        Values cached by an earlier evaluation are not cleared. */
    method SetClearInputs(perClient: seq<seq<Elem>>) returns (ok: bool)
      requires Valid()
      modifies this`inputs
      ensures memo == map[] ==> Valid()
      ensures ok <==> |perClient| == |c.inputs| && forall i :: 0 <= i < |c.inputs| ==> |perClient[i]| == |c.inputs[i]|
      ensures ok ==> forall i, j :: 0 <= i < |c.inputs| && 0 <= j < |c.inputs[i]| ==>
                       c.inputs[i][j] in inputs && inputs[c.inputs[i][j]] == perClient[i][j]
      ensures ok ==> HasInputs(c, inputs)
    {
      if |perClient| != |c.inputs| { return false; }
      for i := 0 to |c.inputs|
        invariant forall q :: 0 <= q < i ==> |perClient[q]| == |c.inputs[q]|
        invariant forall q, j :: 0 <= q < i && 0 <= j < |c.inputs[q]| ==>
          c.inputs[q][j] in inputs && inputs[c.inputs[q][j]] == perClient[q][j]
      {
        if |perClient[i]| != |c.inputs[i]| { return false; }
        for m := 0 to |c.inputs[i]|
          invariant forall q, j :: 0 <= q < i && 0 <= j < |c.inputs[q]| ==>
            c.inputs[q][j] in inputs && inputs[c.inputs[q][j]] == perClient[q][j]
          invariant forall j :: 0 <= j < m ==> c.inputs[i][j] in inputs && inputs[c.inputs[i][j]] == perClient[i][j]
        {
          OwnerListsDiffer(c, i, m);
          inputs := inputs[c.inputs[i][m] := perClient[i][m]];
        }
      }
      forall id | 0 <= id < |c.gates| && c.gates[id].InputGate? ensures id in inputs {
        var p := IndexOf(c.inputs[c.gates[id].owner], id);
      }
      return true;
    }

    /** GetClearOutputs: the values of the output gates per client; throws exactly when an input gate that
        can be reached from one of them has no value. */
    method GetClearOutputs() returns (r: Option<seq<seq<Elem>>>)
      requires Valid()
      modifies this`memo
      ensures Valid() && inputs == old(inputs)
      ensures r.Some? <==> forall i, j :: 0 <= i < |c.outputs| && 0 <= j < |c.outputs[i]| ==> NeededThere(c, inputs, c.outputs[i][j])
      ensures r.Some? ==> |r.value| == |c.outputs| && forall i :: 0 <= i < |c.outputs| ==> IsRow(c, inputs, c.outputs[i], r.value[i])
      ensures HasInputs(c, inputs) ==> r.Some? && IsTable(c, inputs, r.value)
    {
      hide Clear, ClearOrNone, HasInputs, Topological, InputsListed, MultsListed, NeededThere, IsRow, IsTable;
      var all: seq<seq<Elem>> := [];
      for i := 0 to |c.outputs|
        invariant Valid() && inputs == old(inputs) && |all| == i
        invariant forall q :: 0 <= q < i ==> IsRow(c, inputs, c.outputs[q], all[q])
      {
        var row := GetClearRow(i);
        if row.None? {
          if HasInputs(c, inputs) { AllThere(c, inputs, i); }
          return None;
        }
        all := all + [row.value];
      }
      RowsNeeded(c, inputs, all);
      return Some(all);
    }

    method GetClearRow(i: nat) returns (r: Option<seq<Elem>>)
      requires Valid() && i < |c.outputs|
      modifies this`memo
      ensures Valid() && inputs == old(inputs)
      ensures r.None? ==> exists j :: 0 <= j < |c.outputs[i]| && !NeededThere(c, inputs, c.outputs[i][j])
      ensures r.Some? ==> IsRow(c, inputs, c.outputs[i], r.value)
    {
      hide Clear, ClearOrNone, Topological, InputsListed, MultsListed, NeededThere, IsValue;
      var row: seq<Elem> := [];
      for m := 0 to |c.outputs[i]|
        invariant Valid() && inputs == old(inputs) && |row| == m
        invariant forall j :: 0 <= j < m ==> NeededThere(c, inputs, c.outputs[i][j]) && IsValue(c, inputs, c.outputs[i][j], row[j])
      {
        var v := GetClear(c.outputs[i][m]);
        if v.None? { return None; }
        row := row + [v.value];
      }
      return Some(row);
    }
  }

  /** The row has the values of the gates. */
  ghost predicate IsRow(c: Circuit, inputs: map<nat, Elem>, gates: seq<nat>, row: seq<Elem>)
    requires Topological(c) && forall j :: 0 <= j < |gates| ==> gates[j] < |c.gates|
  {
    |row| == |gates| && forall j :: 0 <= j < |gates| ==> NeededThere(c, inputs, gates[j]) && IsValue(c, inputs, gates[j], row[j])
  }

  /** Per client the cleartext values of its outputs. */
  ghost predicate IsTable(c: Circuit, x: map<nat, Elem>, all: seq<seq<Elem>>)
    requires WellFormed(c) && HasInputs(c, x)
  {
    && |all| == |c.outputs| && (forall i :: 0 <= i < |all| ==> |all[i]| == |c.outputs[i]|)
    && forall i, j :: 0 <= i < |all| && 0 <= j < |all[i]| ==> all[i][j] == Clear(c, x, c.outputs[i][j])
  }

  lemma RowsNeeded(c: Circuit, x: map<nat, Elem>, all: seq<seq<Elem>>)
    requires WellFormed(c) && |all| == |c.outputs| && forall i :: 0 <= i < |c.outputs| ==> IsRow(c, x, c.outputs[i], all[i])
    ensures forall i, j :: 0 <= i < |c.outputs| && 0 <= j < |c.outputs[i]| ==> NeededThere(c, x, c.outputs[i][j])
    ensures HasInputs(c, x) ==> IsTable(c, x, all)
  {
    hide Clear, NeededThere, Topological, InputsListed, MultsListed, HasInputs;
    forall i | 0 <= i < |all| ensures |all[i]| == |c.outputs[i]| { assert IsRow(c, x, c.outputs[i], all[i]); }
    forall i, j | 0 <= i < |c.outputs| && 0 <= j < |c.outputs[i]|
      ensures NeededThere(c, x, c.outputs[i][j]) && (HasInputs(c, x) ==> all[i][j] == Clear(c, x, c.outputs[i][j]))
    {
      assert IsRow(c, x, c.outputs[i], all[i]);
      if HasInputs(c, x) { assert Completes(c, x, x); }
    }
  }

  lemma AllThere(c: Circuit, x: map<nat, Elem>, i: nat)
    requires WellFormed(c) && HasInputs(c, x) && i < |c.outputs|
    ensures forall j :: 0 <= j < |c.outputs[i]| ==> NeededThere(c, x, c.outputs[i][j])
  {
    hide Reaches;
  }

  /** An input gate is listed once, with its owner. */
  lemma OwnerListsDiffer(c: Circuit, i: nat, m: nat)
    requires WellFormed(c) && i < |c.inputs| && m < |c.inputs[i]|
    ensures forall q, j :: 0 <= q < |c.inputs| && 0 <= j < |c.inputs[q]| && c.inputs[q][j] == c.inputs[i][m] ==> q == i && j == m
  {
    forall q, j | 0 <= q < |c.inputs| && 0 <= j < |c.inputs[q]| && c.inputs[q][j] == c.inputs[i][m] ensures q == i && j == m {
      assert c.gates[c.inputs[q][j]] == InputGate(q) && c.gates[c.inputs[i][m]] == InputGate(i);
    }
  }

  // ---- MultLayer, InputLayer and OutputLayer ----

  /** The batches of a layer that is still open: full ones, and a last one that is not empty unless
      nothing has been appended. */
  ghost predicate OpenLayer(batches: seq<seq<Slot>>, flat: seq<nat>, k: nat) {
    && k > 0 && |batches| > 0
    && (forall b :: 0 <= b < |batches| - 1 ==> |batches[b]| == k)
    && |batches[|batches| - 1]| <= k && (|batches| > 1 ==> |batches[|batches| - 1]| > 0)
    && |flat| == Place(|batches| - 1, |batches[|batches| - 1]|, k)
    && (forall b, j :: 0 <= b < |batches| && 0 <= j < |batches[b]| ==>
          Place(b, j, k) < |flat| && batches[b][j] == Wire(flat[Place(b, j, k)]))
  }

  /** The position in the layer of slot j of batch b. */
  function Place(b: int, j: int, k: int): int {
    b * k + j
  }

  lemma PlaceNext(b: nat, k: nat)
    ensures Place(b, k, k) == Place(b + 1, 0, k)
  {
  }

  lemma PlaceOrder(b: nat, j: nat, b': nat, j': nat, k: nat)
    requires b < b' && j < k
    ensures Place(b, j, k) < Place(b', j', k)
  {
    MulOrder(b + 1, b', k);
    PlaceNext(b, k);
  }

  class Layer {
    const k: nat
    var batches: seq<seq<Slot>>
    ghost var flat: seq<nat>

    ghost predicate Valid()
      reads this
    {
      OpenLayer(batches, flat, k)
    }

    constructor (k: nat)
      requires k > 0
      ensures Valid() && this.k == k && flat == []
    {
      this.k, batches, flat := k, [[]], [];
    }

    predicate HasRoom()
      requires |batches| > 0
      reads this
    {
      |batches[|batches| - 1]| < k
    }

    /** Append to the last batch, or to a new one if it is full. */
    method Append(id: nat)
      requires Valid()
      modifies this
      ensures Valid() && flat == old(flat) + [id]
    {
      var last := |batches| - 1;
      forall b, j | 0 <= b < last && 0 <= j < k ensures Place(b, j, k) < |flat| { PlaceOrder(b, j, last, |batches[last]|, k); }
      if HasRoom() {
        batches := batches[last := batches[last] + [Wire(id)]];
      } else {
        PlaceNext(last, k);
        batches := batches + [[Wire(id)]];
      }
      flat := flat + [id];
    }

    /** Pad the last batch: afterwards the layer's batches are those of its gates, in order. */
    method Close()
      requires Valid()
      modifies this`batches
      ensures batches == Batches(flat, k)
    {
      var last := |batches| - 1;
      ghost var size := |batches[last]|;
      while HasRoom()
        invariant |batches| == last + 1 && size <= |batches[last]| <= k
        invariant batches[..last] == old(batches)[..last]
        invariant forall j :: 0 <= j < |batches[last]| ==> batches[last][j] == if j < size then old(batches)[last][j] else Pad
        decreases k - |batches[last]|
      {
        batches := batches[last := batches[last] + [Pad]];
      }
      ClosedIsBatches(old(batches), flat, k, batches, batches[last]);
    }
  }

  lemma ClosedIsBatches(open: seq<seq<Slot>>, flat: seq<nat>, k: nat, closed: seq<seq<Slot>>, tail: seq<Slot>)
    requires OpenLayer(open, flat, k) && closed == open[..|open| - 1] + [tail] && |tail| == k
    requires forall j :: 0 <= j < k ==> tail[j] == if j < |open[|open| - 1]| then open[|open| - 1][j] else Pad
    ensures closed == Batches(flat, k)
  {
    var last := |open| - 1;
    CountOfOpen(open, flat, k);
    forall b | 0 <= b <= last ensures closed[b] == BatchAt(flat, k, b) {
      forall j | 0 <= j < k ensures closed[b][j] == SlotAt(flat, k, b, j) {
        assert Place(b, j, k) == b * k + j;
        if b < last { PlaceOrder(b, j, last, |open[last]|, k); }
      }
    }
  }

  lemma CountOfOpen(open: seq<seq<Slot>>, flat: seq<nat>, k: nat)
    requires OpenLayer(open, flat, k)
    ensures BatchCount(|flat|, k) == |open|
  {
    var last, m := |open| - 1, |open[|open| - 1]|;
    if |flat| > 0 {
      assert |flat| + k - 1 == (last + 1) * k + (m - 1) by { assert (last + 1) * k == last * k + k; }
      assert last == 0 ==> Place(last, m, k) == m;
      RemainderUnique(|flat| + k - 1, last + 1, m - 1, k);
    } else {
      if last > 0 { MulOrder(1, last, k); }
    }
  }
}
