/** One party's function-dependent preprocessing: mapping the function-independent data to gates and
    batches (offline.cc:132-167, correlator.h:123-147), and the steps of correlator.cc. */
module PartyPrep {
  import opened Field
  import opened Packed
  import opened Combine
  import opened FIPrep
  import opened Triples
  import opened Batch
  import opened Circuits
  import opened Mapping
  import opened TurboPack
  import opened Network
  import Correlator

  /** The individual sharing of every leaf, as handed out in order. */
  function Leaves(c: Circuit, ind: Vec): (m: map<nat, Elem>)
    requires WellFormed(c) && |ind| >= |IndOrder(c)|
    ensures m.Keys == LeafIds(c)
  {
    map id | id in LeafIds(c) :: ind[IndIndex(c, id)]
  }

  /** The share of a wire: its entry when all passes are done. */
  function WireOf(c: Circuit, ind: Vec, id: nat): Elem
    requires WellFormed(c) && |ind| >= |IndOrder(c)| && id < |c.gates|
  {
    Entry(Populated(c, Leaves(c, ind)), id)
  }

  // ---- No gate gets two sharings ----

  lemma InputOrderAt(c: Circuit, p: nat)
    requires WellFormed(c) && p < |c.inputOrder|
    ensures p < |IndOrder(c)| && IndOrder(c)[p] == c.inputOrder[p] && IsLeaf(c, c.inputOrder[p])
    ensures IndIndex(c, c.inputOrder[p]) == p
  {
    hide Topological, OutputsListed;
    var id := c.inputOrder[p];
    FirstIndex(c.inputOrder, Flatten(c.mults), id);
  }

  /** The p-th gate of layer l gets the sharing after those of all inputs and earlier gates. */
  lemma MultOrderAt(c: Circuit, l: nat, p: nat)
    requires WellFormed(c) && l < |c.mults| && p < |c.mults[l]|
    ensures IsLeaf(c, c.mults[l][p])
    ensures IndIndex(c, c.mults[l][p]) == |c.inputOrder| + Offset(c.mults, l) + p
  {
    hide Topological, OutputsListed;
    var id := c.mults[l][p];
    assert id !in c.inputOrder;
    LeafInOrder(c, id);
    ListsDistinct(c);
    FlattenIndex(c.mults, l, p);
    SecondIndex(c.inputOrder, Flatten(c.mults), id);
  }

  // ---- Entries of batches ----

  /** Batch b of list l has its own entry, number first + BatchTotal(l) + b. */
  ghost predicate HasEntry<T>(m: map<(nat, nat), T>, prep: seq<T>, lists: seq<seq<nat>>, k: nat, first: nat, l: nat, b: nat)
    requires k > 0
  {
    && l < |lists| && (l, b) in m && first + BatchTotal(lists, k, l) + b < |prep|
    && m[(l, b)] == prep[first + BatchTotal(lists, k, l) + b]
  }

  ghost predicate BatchesMapped<T>(m: map<(nat, nat), T>, prep: seq<T>, lists: seq<seq<nat>>, k: nat, first: nat)
    requires k > 0
  {
    forall l, b :: 0 <= l < |lists| && 0 <= b < BatchCount(|lists[l]|, k) ==> HasEntry(m, prep, lists, k, first, l, b)
  }

  /** Setting an entry to what it has to be leaves all entries right. */
  lemma EntryKept<T>(m: map<(nat, nat), T>, prep: seq<T>, lists: seq<seq<nat>>, k: nat, first: nat, l: nat, b: nat, q: nat, d: nat)
    requires k > 0 && l < |lists| && first + BatchTotal(lists, k, l) + b < |prep| && HasEntry(m, prep, lists, k, first, q, d)
    ensures HasEntry(m[(l, b) := prep[first + BatchTotal(lists, k, l) + b]], prep, lists, k, first, q, d)
  {
    hide BatchTotal;
    if q == l && d == b { } else { assert (q, d) != (l, b); }
  }

  lemma EntryAdded<T>(m: map<(nat, nat), T>, prep: seq<T>, lists: seq<seq<nat>>, k: nat, first: nat, l: nat, b: nat)
    requires k > 0 && l < |lists| && first + BatchTotal(lists, k, l) + b < |prep|
    ensures HasEntry(m[(l, b) := prep[first + BatchTotal(lists, k, l) + b]], prep, lists, k, first, l, b)
  {
    hide BatchTotal;
  }

  lemma TotalStep(lists: seq<seq<nat>>, k: nat, l: nat)
    requires k > 0 && l <= |lists|
    ensures BatchTotal(lists, k, l) == if l == 0 then 0 else BatchTotal(lists, k, l - 1) + BatchCount(|lists[l - 1]|, k)
  {
  }

  // ---- The class ----

  class PartyPrep {
    const pp: Params
    const c: Circuit
    const id: nat
    const net: Net
    const sharesOfEi: Vec
    const indShrs: Vec
    const multPrep: seq<MultPrep>
    const ioPrep: Vec

    var mapIndShrs: map<nat, Elem>
    var mapMultBatch: map<(nat, nat), MultPrep>
    var mapInputBatch: map<(nat, nat), Elem>
    var mapOutputBatch: map<(nat, nat), Elem>
    var ctrIndShrs: nat
    var ctrMultBatches: nat
    var ctrInOutBatches: nat

    /** The party has been given enough of everything (GenCorrelator). */
    ghost predicate Ready() {
      && pp.Valid() && WellFormed(c) && net.n == pp.n && id < pp.n
      && sharesOfEi == EiShares(pp.k, id)
      && |indShrs| >= CircuitSizes(c, pp.k).inds
      && |multPrep| == CircuitSizes(c, pp.k).mults
      && |ioPrep| >= CircuitSizes(c, pp.k).ios
    }

    constructor (pp: Params, c: Circuit, id: nat, net: Net, indShrs: Vec, multPrep: seq<MultPrep>, ioPrep: Vec)
      requires pp.Valid() && WellFormed(c) && net.n == pp.n && id < pp.n
      requires |indShrs| >= CircuitSizes(c, pp.k).inds && |multPrep| == CircuitSizes(c, pp.k).mults
      requires |ioPrep| >= CircuitSizes(c, pp.k).ios
      ensures Ready() && this.pp == pp && this.c == c && this.id == id && this.net == net
      ensures this.indShrs == indShrs && this.multPrep == multPrep && this.ioPrep == ioPrep
      ensures ctrIndShrs == ctrMultBatches == ctrInOutBatches == 0 && mapIndShrs == map[]
    {
      this.pp, this.c, this.id, this.net := pp, c, id, net;
      this.indShrs, this.multPrep, this.ioPrep := indShrs, multPrep, ioPrep;
      mapIndShrs, mapMultBatch, mapInputBatch, mapOutputBatch := map[], map[], map[], map[];
      ctrIndShrs, ctrMultBatches, ctrInOutBatches := 0, 0, 0;
      var ei := PrecomputeEi(pp.k, id);
      sharesOfEi := ei;
    }

    /** The gate has the entry that the passes give it. */
    ghost predicate Mapped(g: nat)
      requires Ready()
      reads `mapIndShrs
    {
      g < |c.gates| && g in mapIndShrs && mapIndShrs[g] == WireOf(c, indShrs, g)
    }

    // ---- MapCorrToCircuit ----

    /** The leaf has its own sharing. */
    ghost predicate LeafMapped(g: nat)
      requires Ready()
      reads `mapIndShrs
    {
      OrderLength();
      IsLeaf(c, g) && g in mapIndShrs && mapIndShrs[g] == indShrs[IndIndex(c, g)]
    }

    ghost predicate OnlyLeavesMapped()
      requires Ready()
      reads `mapIndShrs
    {
      forall g: nat :: g in mapIndShrs ==> LeafMapped(g)
    }

    method MapInputs()
      requires Ready() && ctrIndShrs == 0 && mapIndShrs == map[]
      modifies `mapIndShrs, `ctrIndShrs
      ensures ctrIndShrs == |c.inputOrder| && OnlyLeavesMapped()
      ensures forall g :: 0 <= g < |c.gates| && c.gates[g].InputGate? ==> LeafMapped(g)
    {
      hide Topological, MultsListed, OutputsListed, EiShares, BatchTotal, BatchCount, IndOrder, IndIndex;
      OrderLength();
      for p := 0 to |c.inputOrder|
        invariant ctrIndShrs == p && OnlyLeavesMapped() && forall q :: 0 <= q < p ==> LeafMapped(c.inputOrder[q])
      {
        InputOrderAt(c, p);
        mapIndShrs := mapIndShrs[c.inputOrder[p] := indShrs[ctrIndShrs]];
        ctrIndShrs := ctrIndShrs + 1;
      }
      forall g | 0 <= g < |c.gates| && c.gates[g].InputGate? ensures LeafMapped(g) {
        var p := IndexOf(c.inputOrder, g);
        assert LeafMapped(c.inputOrder[p]);
      }
    }

    lemma OrderLength()
      requires Ready()
      ensures |indShrs| >= |IndOrder(c)| == |c.inputOrder| + |Flatten(c.mults)|
    {
    }

    method MapMults()
      requires Ready() && ctrIndShrs == |c.inputOrder| && OnlyLeavesMapped()
      requires forall g :: 0 <= g < |c.gates| && c.gates[g].InputGate? ==> LeafMapped(g)
      modifies `mapIndShrs, `ctrIndShrs
      ensures |indShrs| >= |IndOrder(c)| && mapIndShrs == Leaves(c, indShrs)
    {
      hide Topological, OutputsListed, InputsListed, EiShares, BatchTotal, BatchCount, IndOrder, IndIndex, Offset;
      OrderLength();
      OffsetZero(c.mults);
      for l := 0 to |c.mults|
        invariant ctrIndShrs == |c.inputOrder| + Offset(c.mults, l) && OnlyLeavesMapped()
        invariant forall g :: 0 <= g < |c.gates| && c.gates[g].InputGate? ==> LeafMapped(g)
        invariant forall g :: 0 <= g < |c.gates| && c.gates[g].MultGate? && c.layerOf[g] < l ==> LeafMapped(g)
      {
        for p := 0 to |c.mults[l]|
          invariant ctrIndShrs == |c.inputOrder| + Offset(c.mults, l) + p && OnlyLeavesMapped()
          invariant forall g :: 0 <= g < |c.gates| && c.gates[g].InputGate? ==> LeafMapped(g)
          invariant forall g :: 0 <= g < |c.gates| && c.gates[g].MultGate? && c.layerOf[g] < l ==> LeafMapped(g)
          invariant forall q :: 0 <= q < p ==> LeafMapped(c.mults[l][q])
        {
          FlattenAt(c.mults, l, p);
          MultOrderAt(c, l, p);
          mapIndShrs := mapIndShrs[c.mults[l][p] := indShrs[ctrIndShrs]];
          ctrIndShrs := ctrIndShrs + 1;
        }
        OffsetStep(c.mults, l);
        forall g | 0 <= g < |c.gates| && c.gates[g].MultGate? && c.layerOf[g] == l ensures LeafMapped(g) {
          assert LeafMapped(c.mults[l][IndexOf(c.mults[l], g)]);
        }
      }
      assert forall g :: 0 <= g < |c.gates| && IsLeaf(c, g) ==> LeafMapped(g);
      LeavesMapped();
    }

    lemma LeavesMapped()
      requires Ready() && OnlyLeavesMapped() && forall g :: 0 <= g < |c.gates| && IsLeaf(c, g) ==> LeafMapped(g)
      ensures |indShrs| >= |IndOrder(c)| && mapIndShrs == Leaves(c, indShrs)
    {
      hide Topological, OutputsListed, InputsListed, MultsListed, EiShares, BatchTotal, BatchCount, IndOrder, IndIndex;
      OrderLength();
      forall g: nat ensures g in mapIndShrs <==> g in LeafIds(c) {
        assert g in mapIndShrs ==> LeafMapped(g);
        assert g in LeafIds(c) ==> LeafMapped(g);
      }
    }

    /** An operand without an entry reads as 0; the entry a read creates is overwritten by the pass
        over the outputs. */
    method MapAdds()
      requires Ready() && |indShrs| >= |IndOrder(c)| && mapIndShrs == Leaves(c, indShrs)
      modifies `mapIndShrs
      ensures mapIndShrs == AfterAdds(c, Leaves(c, indShrs), |c.gates|)
    {
      hide OutputsListed, InputsListed, MultsListed, EiShares, BatchTotal, BatchCount, IndOrder, Leaves;
      for g := 0 to |c.gates|
        invariant mapIndShrs == AfterAdds(c, Leaves(c, indShrs), g)
      {
        if c.gates[g].AddGate? {
          var left, right := Entry(mapIndShrs, c.gates[g].left), Entry(mapIndShrs, c.gates[g].right);
          mapIndShrs := mapIndShrs[g := Add(left, right)];
        }
      }
    }

    method MapOutputs()
      requires Ready() && |indShrs| >= |IndOrder(c)| && mapIndShrs == AfterAdds(c, Leaves(c, indShrs), |c.gates|)
      modifies `mapIndShrs
      ensures mapIndShrs == Populated(c, Leaves(c, indShrs))
    {
      hide OutputsListed, InputsListed, MultsListed, EiShares, BatchTotal, BatchCount, IndOrder, Leaves, AfterAdds;
      for g := 0 to |c.gates|
        invariant mapIndShrs == AfterOutputs(c, AfterAdds(c, Leaves(c, indShrs), |c.gates|), g)
      {
        if c.gates[g].OutputGate? {
          mapIndShrs := mapIndShrs[g := Entry(mapIndShrs, c.gates[g].left)];
        }
      }
    }

    /** PopulateInputBatches, PopulateOutputBatches and PopulateMultBatches over all batches. */
    method MapBatches<T(!new)>(prep: seq<T>, lists: seq<seq<nat>>, first: nat) returns (m: map<(nat, nat), T>, ctr: nat)
      requires pp.k > 0 && first + BatchTotal(lists, pp.k, |lists|) <= |prep|
      ensures BatchesMapped(m, prep, lists, pp.k, first) && ctr == first + BatchTotal(lists, pp.k, |lists|)
    {
      hide BatchCount, BatchTotal;
      m, ctr := map[], first;
      TotalStep(lists, pp.k, 0);
      for l := 0 to |lists|
        invariant ctr == first + BatchTotal(lists, pp.k, l)
        invariant forall q, b :: 0 <= q < l && 0 <= b < BatchCount(|lists[q]|, pp.k) ==> HasEntry(m, prep, lists, pp.k, first, q, b)
      {
        BatchTotalMonotone(lists, pp.k, l, |lists|);
        for b := 0 to BatchCount(|lists[l]|, pp.k)
          invariant ctr == first + BatchTotal(lists, pp.k, l) + b
          invariant forall q, d :: 0 <= q < l && 0 <= d < BatchCount(|lists[q]|, pp.k) ==> HasEntry(m, prep, lists, pp.k, first, q, d)
          invariant forall d :: 0 <= d < b ==> HasEntry(m, prep, lists, pp.k, first, l, d)
        {
          ghost var before := m;
          m := m[(l, b) := prep[ctr]];
          forall q, d | 0 <= q <= l && HasEntry(before, prep, lists, pp.k, first, q, d) ensures HasEntry(m, prep, lists, pp.k, first, q, d) {
            EntryKept(before, prep, lists, pp.k, first, l, b, q, d);
          }
          EntryAdded(before, prep, lists, pp.k, first, l, b);
          ctr := ctr + 1;
        }
        TotalStep(lists, pp.k, l + 1);
      }
    }

    /** MapCorrToCircuit: the map is what the four passes produce, every batch has its own entry. */
    method MapCorrToCircuit()
      requires Ready() && ctrIndShrs == ctrMultBatches == ctrInOutBatches == 0 && mapIndShrs == map[]
      modifies this
      ensures |indShrs| >= |IndOrder(c)| && mapIndShrs == Populated(c, Leaves(c, indShrs)) && AllMapped()
      ensures BatchesMapped(mapMultBatch, multPrep, c.mults, pp.k, 0)
      ensures BatchesMapped(mapInputBatch, ioPrep, c.inputs, pp.k, 0)
      ensures BatchesMapped(mapOutputBatch, ioPrep, c.outputs, pp.k, BatchTotal(c.inputs, pp.k, |c.inputs|))
    {
      hide BatchesMapped, WellFormed, EiShares, BatchTotal, IndOrder, Populated, AllMapped, Leaves;
      MapInputs();
      MapMults();
      MapAdds();
      MapOutputs();
      PassesMapAll();
      var ins, ctr := MapBatches(ioPrep, c.inputs, ctrInOutBatches);
      var outs, ctr' := MapBatches(ioPrep, c.outputs, ctr);
      var mults, ctr'' := MapBatches(multPrep, c.mults, ctrMultBatches);
      mapInputBatch, mapOutputBatch, mapMultBatch := ins, outs, mults;
      ctrInOutBatches, ctrMultBatches := ctr', ctr'';
    }

    lemma PassesMapAll()
      requires Ready() && |indShrs| >= |IndOrder(c)| && mapIndShrs == Populated(c, Leaves(c, indShrs))
      ensures AllMapped()
    {
      hide IndOrder, EiShares, BatchTotal, Populated, Leaves;
      forall g | 0 <= g < |c.gates| ensures Mapped(g) { PopulatedGives(c, Leaves(c, indShrs), g); }
    }

    // ---- The steps of correlator.cc ----

    ghost predicate AllMapped()
      requires Ready()
      reads `mapIndShrs
    {
      forall g :: 0 <= g < |c.gates| ==> Mapped(g)
    }

    /** The packed share of a batch of wires; padding has no entry and reads as 0. */
    method Collect(slots: seq<Slot>) returns (shr: Elem)
      requires Ready() && AllMapped() && SlotsOk(c, slots) && |slots| == pp.k
      ensures shr == Dot(sharesOfEi, SlotShares(c, indShrs, slots), pp.k)
    {
      hide WellFormed, EiShares, WireOf, IndOrder, Mul, Add, Mod;
      shr := 0;
      for i := 0 to pp.k
        invariant shr == Dot(sharesOfEi, SlotShares(c, indShrs, slots), i)
      {
        var share: Elem := 0;
        if slots[i].Wire? {
          assert Mapped(slots[i].id);
          share := mapIndShrs[slots[i].id];
        }
        shr := Add(shr, Mul(sharesOfEi[i], share));
      }
    }

    method PrepMultPartiesSendP1(l: nat, b: nat)
      requires Ready() && AllMapped() && net.Valid() && BatchesMapped(mapMultBatch, multPrep, c.mults, pp.k, 0)
      requires l < |c.mults| && b < BatchCount(|c.mults[l]|, pp.k)
      modifies net`outbox
      ensures net.Valid()
      ensures var batch, prep := MultBatch(c, pp.k, l, b), multPrep[MultIndex(c, pp.k, l, b)];
              net.outbox[0] == old(net.outbox)[0]
                + [MaskedFactor(sharesOfEi, SlotShares(c, indShrs, Lefts(c, batch)), prep.a, prep.o1),
                   MaskedFactor(sharesOfEi, SlotShares(c, indShrs, Rights(c, batch)), prep.b, prep.o2)]
      ensures forall j :: 0 < j < pp.n ==> net.outbox[j] == old(net.outbox)[j]
    {
      hide EiShares, SlotShares, Mul, Add, Mod, Dot, Lefts, Rights, InputsListed, MultsListed, OutputsListed, AllMapped;
      assert HasEntry(mapMultBatch, multPrep, c.mults, pp.k, 0, l, b);
      var batch, prep := MultBatch(c, pp.k, l, b), mapMultBatch[(l, b)];
      var left := Collect(Lefts(c, batch));
      var right := Collect(Rights(c, batch));
      net.Send(0, Add(left, Add(prep.a, prep.o1)));
      net.Send(0, Add(right, Add(prep.b, prep.o2)));
    }

    /** P1 receives two shares from everybody, opens both vectors and shares them again. */
    method PrepMultP1ReceivesAndSends()
      requires Ready() && net.Valid() && (id == 0 ==> forall e :: 0 <= e < pp.n ==> |net.inbox[e]| >= 2)
      modifies net`inbox, net`outbox
      ensures net.Valid()
      ensures id == 0 ==> forall e :: 0 <= e < pp.n ==> net.inbox[e] == old(net.inbox)[e][2..]
      ensures id == 0 ==> forall j :: 0 <= j < pp.n ==>
                net.outbox[j] == old(net.outbox)[j]
                  + [Reshare(pp, Reconstruct(Heads(old(net.inbox), pp.n, 0), pp.k))[j], Reshare(pp, Reconstruct(Heads(old(net.inbox), pp.n, 1), pp.k))[j]]
      ensures id != 0 ==> net.inbox == old(net.inbox) && net.outbox == old(net.outbox)
    {
      hide EiShares, WellFormed, Reconstruct, Deal, IndOrder, BatchTotal;
      if id == 0 {
        var sharesA, sharesB := net.RecvPairs();
        assert sharesA == Heads(old(net.inbox), pp.n, 0) && sharesB == Heads(old(net.inbox), pp.n, 1);
        var secretA := SecretsFromSharesAndLength(sharesA, pp.k);
        var secretB := SecretsFromSharesAndLength(sharesB, pp.k);
        var newA := Correlator.DealShares(secretA, pp.k - 1, [], pp.n);
        var newB := Correlator.DealShares(secretB, pp.k - 1, [], pp.n);
        net.SendPairs(newA, newB);
      }
    }

    method PrepMultPartiesReceive(l: nat, b: nat) returns (r: BatchPrep)
      requires Ready() && AllMapped() && net.Valid() && BatchesMapped(mapMultBatch, multPrep, c.mults, pp.k, 0)
      requires l < |c.mults| && b < BatchCount(|c.mults[l]|, pp.k) && |net.inbox[0]| >= 2
      modifies net`inbox
      ensures net.Valid() && net.inbox[0] == old(net.inbox)[0][2..]
      ensures forall e :: 0 < e < pp.n ==> net.inbox[e] == old(net.inbox)[e]
      ensures r == FinishPrep(sharesOfEi, SlotShares(c, indShrs, MultBatch(c, pp.k, l, b)),
                              multPrep[MultIndex(c, pp.k, l, b)], old(net.inbox)[0][0], old(net.inbox)[0][1])
    {
      hide EiShares, Mul, Add, Sub, Mod, InputsListed, MultsListed, OutputsListed, AllMapped, WireOf, IndOrder;
      assert HasEntry(mapMultBatch, multPrep, c.mults, pp.k, 0, l, b);
      var batch, prep := MultBatch(c, pp.k, l, b), mapMultBatch[(l, b)];
      var recvA := net.Recv(0);
      var recvB := net.Recv(0);
      var lambdaA, lambdaB := Sub(recvA, prep.a), Sub(recvB, prep.b);
      var delta := NegCollect(batch);
      delta := Add(delta, Add(Add(Sub(Sub(Mul(recvA, recvB), Mul(recvA, prep.b)), Mul(recvB, prep.a)), prep.c), prep.o3));
      return BatchPrep(lambdaA, lambdaB, delta);
    }

    method NegCollect(slots: seq<Slot>) returns (shr: Elem)
      requires Ready() && AllMapped() && SlotsOk(c, slots) && |slots| == pp.k
      ensures shr == NegDot(sharesOfEi, SlotShares(c, indShrs, slots), pp.k)
    {
      hide WellFormed, EiShares, WireOf, IndOrder, Mul, Sub, Mod;
      shr := 0;
      for i := 0 to pp.k
        invariant shr == NegDot(sharesOfEi, SlotShares(c, indShrs, slots), i)
      {
        var share: Elem := 0;
        if slots[i].Wire? {
          assert Mapped(slots[i].id);
          share := mapIndShrs[slots[i].id];
        }
        shr := Sub(shr, Mul(sharesOfEi[i], share));
      }
    }

    /** PrepInputPartiesSendOwner and PrepOutputPartiesSendOwner, with the batch's own mask of zero. */
    method PrepPartiesSendOwner(batch: seq<Slot>, owner: nat, zero: Elem)
      requires Ready() && AllMapped() && net.Valid() && SlotsOk(c, batch) && |batch| == pp.k && owner < pp.n
      modifies net`outbox
      ensures net.Valid() && net.outbox[owner] == old(net.outbox)[owner] + [MaskedWires(sharesOfEi, SlotShares(c, indShrs, batch), zero)]
      ensures forall j :: 0 <= j < pp.n && j != owner ==> net.outbox[j] == old(net.outbox)[j]
    {
      hide EiShares, SlotShares, Mul, Add, Mod, Dot, WellFormed, AllMapped;
      var shr := Collect(batch);
      net.Send(owner, Add(shr, zero));
    }

    /** PrepInputOwnerReceives and PrepOutputOwnerReceives: the lambdas of the batch, slot by slot. */
    method PrepOwnerReceives(owner: nat) returns (lambdas: Vec)
      requires Ready() && net.Valid() && (id == owner ==> forall e :: 0 <= e < pp.n ==> net.inbox[e] != [])
      modifies net`inbox
      ensures net.Valid()
      ensures id == owner ==> lambdas == Reconstruct(Heads(old(net.inbox), pp.n, 0), pp.k)
      ensures id == owner ==> forall e :: 0 <= e < pp.n ==> net.inbox[e] == old(net.inbox)[e][1..]
      ensures id != owner ==> net.inbox == old(net.inbox)
    {
      hide EiShares, WellFormed, Reconstruct, IndOrder, BatchTotal;
      lambdas := [];
      if id == owner {
        var recv := net.RecvEach(pp.n);
        assert recv == Heads(old(net.inbox), pp.n, 0);
        lambdas := SecretsFromSharesAndLength(recv, pp.k);
      }
    }
  }

  /** Message number q of every queue. */
  function Heads(inbox: seq<Vec>, n: nat, q: nat): (v: Vec)
    requires |inbox| == n && forall e :: 0 <= e < n ==> q < |inbox[e]|
    ensures |v| == n
  {
    seq(n, e requires 0 <= e < n => inbox[e][q])
  }

  function SlotShares(c: Circuit, ind: Vec, slots: seq<Slot>): (v: Vec)
    requires WellFormed(c) && |ind| >= |IndOrder(c)| && SlotsOk(c, slots)
    ensures |v| == |slots|
  {
    seq(|slots|, j requires 0 <= j < |slots| => if slots[j].Pad? then 0 else WireOf(c, ind, slots[j].id))
  }

  // ---- One party's part of the vectors of all parties ----

  /** With the party's own sharings, its slot shares are its column of the shares of all parties. */
  lemma SlotSharesAreColumn(pp: Params, c: Circuit, r: Randomness, id: nat, slots: seq<Slot>)
    requires Setup(pp, c, r) && id < pp.n && SlotsOk(c, slots)
    ensures var ind := HeldBy(pp, CircuitSizes(c, pp.k), r, id).ind;
            |ind| >= |IndOrder(c)| && SlotShares(c, ind, slots) == Column(SlotVecs(pp, c, r, slots), id)
  {
    hide HeldBy, RandomnessShape, IndOrder, WellFormed, Spread, IndIndex;
    var ind := HeldBy(pp, CircuitSizes(c, pp.k), r, id).ind;
    assert Leaves(c, ind) == ShareLeaves(pp, c, r, id);
  }

  /** What the party sends P1 is its entry of the masked vectors. */
  lemma SendsItsPart(pp: Params, c: Circuit, r: Randomness, id: nat, l: nat, b: nat)
    requires Setup(pp, c, r) && id < pp.n && l < |c.mults| && b < BatchCount(|c.mults[l]|, pp.k)
    ensures var sz := CircuitSizes(c, pp.k);
            var ind, prep := HeldBy(pp, sz, r, id).ind, PrepBy(pp, sz, r, id, MultIndex(c, pp.k, l, b));
            var batch, v := MultBatch(c, pp.k, l, b), PrepVec(pp, sz, r, MultIndex(c, pp.k, l, b));
            && |ind| >= |IndOrder(c)|
            && MaskedFactor(EiShares(pp.k, id), SlotShares(c, ind, Lefts(c, batch)), prep.a, prep.o1)
               == MaskedVec(pp.k, SlotVecs(pp, c, r, Lefts(c, batch)), pp.n, ShrA(v), ShrO1(v))[id]
            && MaskedFactor(EiShares(pp.k, id), SlotShares(c, ind, Rights(c, batch)), prep.b, prep.o2)
               == MaskedVec(pp.k, SlotVecs(pp, c, r, Rights(c, batch)), pp.n, ShrB(v), ShrO2(v))[id]
  {
    hide HeldBy, RandomnessShape, IndOrder, WellFormed, SlotShares, SlotVecs, EiShares, MaskedFactor, PrepBy, Lefts, Rights;
    SetupParams(pp, c, r);
    var batch := MultBatch(c, pp.k, l, b);
    SlotSharesAreColumn(pp, c, r, id, Lefts(c, batch));
    SlotSharesAreColumn(pp, c, r, id, Rights(c, batch));
  }

  /** What the party computes in the end is its entry of the batch's preprocessing. */
  lemma FinishesItsPart(pp: Params, c: Circuit, r: Randomness, id: nat, l: nat, b: nat)
    requires Setup(pp, c, r) && id < pp.n && l < |c.mults| && b < BatchCount(|c.mults[l]|, pp.k)
    ensures var sz := CircuitSizes(c, pp.k);
            var ind, prep := HeldBy(pp, sz, r, id).ind, PrepBy(pp, sz, r, id, MultIndex(c, pp.k, l, b));
            var batch, v := MultBatch(c, pp.k, l, b), PrepVec(pp, sz, r, MultIndex(c, pp.k, l, b));
            var backA := Reshare(pp, Reconstruct(MaskedVec(pp.k, SlotVecs(pp, c, r, Lefts(c, batch)), pp.n, ShrA(v), ShrO1(v)), pp.k));
            var backB := Reshare(pp, Reconstruct(MaskedVec(pp.k, SlotVecs(pp, c, r, Rights(c, batch)), pp.n, ShrB(v), ShrO2(v)), pp.k));
            |ind| >= |IndOrder(c)|
            && FinishPrep(EiShares(pp.k, id), SlotShares(c, ind, batch), prep, backA[id], backB[id]) == PrepFor(pp, c, r, l, b)[id]
  {
    hide HeldBy, RandomnessShape, IndOrder, WellFormed, SlotShares, SlotVecs, EiShares, MaskedFactor, PrepBy, Lefts, Rights, FinishPrep, Reshare, Reconstruct, MaskedVec;
    SetupParams(pp, c, r);
    SlotSharesAreColumn(pp, c, r, id, MultBatch(c, pp.k, l, b));
  }

  lemma OffsetZero(ss: seq<seq<nat>>)
    ensures Offset(ss, 0) == 0
  {
    assert ss[..0] == [];
  }
}
