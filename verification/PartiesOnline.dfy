/** All parties together in the online phase: the loops of PartyCircuit taken in turn by one object
    per party, with the messages delivered in between, from the masked inputs to the outputs. */
module PartiesOnline {
  import opened Field
  import opened Packed
  import opened FIPrep
  import opened Batch
  import opened Circuits
  import opened Mapping
  import opened TurboPack
  import opened Online
  import opened Gates
  import opened Network
  import opened PartyOnline
  import opened PartyCircuit
  import opened Wrappers
  import Parties
  import PartyPrep
  import PartyOffline

  // ---- The objects of a layer ----

  /** The batches of layer l at party i, with the party's preprocessing. */
  ghost predicate LayerAt(runs: seq<MultBatchRun>, pp: Params, c: Circuit, r: Randomness, l: nat, i: nat, net: Net)
    requires Setup(pp, c, r) && l < |c.mults| && i < pp.n
  {
    && LayerOf(runs, pp, c, i, net) && |runs| == BatchCount(|c.mults[l]|, pp.k)
    && forall b :: 0 <= b < |runs| ==> runs[b].slots == MultBatch(c, pp.k, l, b) && runs[b].prep == PrepFor(pp, c, r, l, b)[i]
  }

  method MakeBatches(pp: Params, c: Circuit, ghost r: Randomness, l: nat, i: nat, net: Net, preps: seq<seq<BatchPrep>>) returns (runs: seq<MultBatchRun>)
    requires Setup(pp, c, r) && l < |c.mults| && i < pp.n && net.Valid() && net.n == pp.n && Parties.HasPrep(pp, c, r, i, preps)
    ensures LayerAt(runs, pp, c, r, l, i, net) && fresh(runs)
  {
    hide WellFormed, BatchCount, RandomnessShape, PrepFor, MultSlots;
    runs := [];
    assert Topological(c) by { TopologicalOf(c); }
    for b := 0 to BatchCount(|c.mults[l]|, pp.k)
      invariant |runs| == b && fresh(runs) && LayerOf(runs, pp, c, i, net)
      invariant forall d :: 0 <= d < b ==> runs[d].slots == MultBatch(c, pp.k, l, d) && runs[d].prep == PrepFor(pp, c, r, l, d)[i]
    {
      var run := new MultBatchRun(pp, c, i, net, MultBatch(c, pp.k, l, b), preps[l][b]);
      runs := runs + [run];
    }
  }

  lemma TopologicalOf(c: Circuit)
    requires WellFormed(c)
    ensures Topological(c)
  {
  }

  /** The batches of a layer name different gates. */
  lemma LayerDiffers(c: Circuit, k: nat, l: nat)
    requires WellFormed(c) && k > 0 && l < |c.mults|
    ensures GatesDiffer(Batches(c.mults[l], k))
  {
    hide BatchCount, Topological, InputsListed, OutputsListed;
    BatchesDiffer(c.mults[l], k);
  }

  lemma BatchesDiffer(flat: seq<nat>, k: nat)
    requires NoRepeats(flat) && k > 0
    ensures GatesDiffer(Batches(flat, k))
  {
    hide BatchCount;
    var slots: seq<seq<Slot>> := Batches(flat, k);
    forall b, i, d, j | 0 <= b <= d < |slots| && 0 <= i < k && 0 <= j < k && (b < d || i < j) && slots[b][i].Wire? && slots[d][j].Wire?
      ensures slots[b][i].id != slots[d][j].id
    {
      assert slots[b][i] == SlotAt(flat, k, b, i) && slots[d][j] == SlotAt(flat, k, d, j);
      SlotOrder(k, b, i, d, j);
    }
  }

  lemma SlotOrder(k: nat, b: nat, i: nat, d: nat, j: nat)
    requires i < k && j < k && (b < d || (b == d && i < j))
    ensures b * k + i < d * k + j
  {
    if b < d { MulOrder(b + 1, d, k); }
  }

  // ---- One layer: operands ----

  /** The objects of layer l at all parties. */
  ghost predicate AllRuns(runs: seq<seq<MultBatchRun>>, nets: seq<Net>, pp: Params, c: Circuit, r: Randomness, l: nat) {
    && Setup(pp, c, r) && l < |c.mults| && |runs| == |nets| == pp.n
    && forall i :: 0 <= i < pp.n ==> LayerAt(runs[i], pp, c, r, l, i, nets[i])
  }

  /** Every party has its own table for the circuit; only P1 learns anything. */
  ghost predicate AllTables(tables: seq<WireValues>, n: nat, c: Circuit)
    reads tables
  {
    && |tables| == n && (forall i :: 0 <= i < n ==> tables[i].c == c && tables[i].Valid())
    && (forall i :: 0 < i < n ==> tables[i].leaf == map[])
    && forall i, j :: 0 <= i < j < n ==> tables[i] != tables[j]
  }

  /** What P1 sends for the layer's batches. */
  ghost predicate OperandsSent(pp: Params, c: Circuit, learned: map<nat, Elem>, l: nat, sent: seq<Vec>)
    requires pp.Valid() && WellFormed(c) && l < |c.mults|
  {
    && LayerAvailable(c, pp.k, learned, l) && |sent| == pp.n
    && (forall j :: 0 <= j < pp.n ==> |sent[j]| == 2 * BatchCount(|c.mults[l]|, pp.k))
    && forall b, j :: 0 <= b < BatchCount(|c.mults[l]|, pp.k) && 0 <= j < pp.n ==> OperandSent(pp, c, learned, l, sent[j], b, j)
  }

  ghost predicate OperandSent(pp: Params, c: Circuit, learned: map<nat, Elem>, l: nat, queue: Vec, b: nat, j: nat)
    requires pp.Valid() && WellFormed(c) && l < |c.mults| && b < BatchCount(|c.mults[l]|, pp.k) && j < pp.n
    requires LayerAvailable(c, pp.k, learned, l)
  {
    var batch := MultBatch(c, pp.k, l, b);
    && 2 * b + 1 < |queue| && queue[2 * b] == Reshare(pp, Mus(c, learned, Lefts(c, batch)))[j]
    && queue[2 * b + 1] == Reshare(pp, Mus(c, learned, Rights(c, batch)))[j]
  }

  lemma LayerSendable(runs: seq<MultBatchRun>, pp: Params, c: Circuit, r: Randomness, l: nat, i: nat, net: Net, learned: map<nat, Elem>)
    requires Setup(pp, c, r) && l < |c.mults| && i < pp.n && LayerAt(runs, pp, c, r, l, i, net)
    ensures (forall b :: 0 <= b < |runs| ==> Sendable(c, learned, runs[b].slots)) <==> LayerAvailable(c, pp.k, learned, l)
  {
    hide BatchCount, RandomnessShape, PrepFor, AllAvailable, InputsListed, MultsListed, OutputsListed, Topological;
    if LayerAvailable(c, pp.k, learned, l) {
      forall b | 0 <= b < |runs| ensures Sendable(c, learned, runs[b].slots) { assert runs[b].slots == MultBatch(c, pp.k, l, b); }
    }
    if forall b :: 0 <= b < |runs| ==> Sendable(c, learned, runs[b].slots) {
      forall b | 0 <= b < BatchCount(|c.mults[l]|, pp.k)
        ensures AllAvailable(c, learned, Lefts(c, MultBatch(c, pp.k, l, b))) && AllAvailable(c, learned, Rights(c, MultBatch(c, pp.k, l, b)))
      {
        assert Sendable(c, learned, runs[b].slots);
      }
    }
  }

  lemma BatchesAreOperands(runs: seq<MultBatchRun>, pp: Params, c: Circuit, r: Randomness, l: nat, net: Net, learned: map<nat, Elem>, sent: seq<Vec>)
    requires Setup(pp, c, r) && pp.Valid() && l < |c.mults| && LayerAt(runs, pp, c, r, l, 0, net)
    requires BatchesSent(runs, pp, c, 0, net, learned, NoMsgs(pp.n), sent, |runs|)
    ensures OperandsSent(pp, c, learned, l, sent)
  {
    hide BatchCount, RandomnessShape, PrepFor, AllAvailable, InputsListed, MultsListed, OutputsListed, Topological, Reshare, Mus, MultSlots;
    assert forall b :: 0 <= b < |runs| ==> Sendable(c, learned, runs[b].slots) by {
      forall b | 0 <= b < |runs| ensures Sendable(c, learned, runs[b].slots) { assert BatchSent(pp, c, learned, runs[b].slots, NoMsgs(pp.n), sent, b); }
    }
    LayerSendable(runs, pp, c, r, l, 0, net, learned);
    forall b, j | 0 <= b < BatchCount(|c.mults[l]|, pp.k) && 0 <= j < pp.n ensures OperandSent(pp, c, learned, l, sent[j], b, j) {
      assert BatchSent(pp, c, learned, runs[b].slots, NoMsgs(pp.n), sent, b);
      assert runs[b].slots == MultBatch(c, pp.k, l, b);
      assert SharesAt(pp, Mus(c, learned, Lefts(c, runs[b].slots)), Mus(c, learned, Rights(c, runs[b].slots)), [], sent[j], j, b);
    }
  }

  /** Circuit::MultP1Sends at all parties: throws exactly when some operand is not available at P1. */
  method SendOperands(runs: seq<seq<MultBatchRun>>, nets: seq<Net>, tables: seq<WireValues>, ghost pp: Params, c: Circuit, ghost r: Randomness, ghost l: nat)
      returns (ok: bool)
    requires AllRuns(runs, nets, pp, c, r, l) && Connected(nets) && AllTables(tables, pp.n, c) && forall i :: 0 <= i < pp.n ==> Idle(nets[i])
    modifies nets, tables
    ensures Connected(nets) && AllTables(tables, pp.n, c) && tables[0].leaf == old(tables[0].leaf)
    ensures ok <==> LayerAvailable(c, pp.k, tables[0].leaf, l)
    ensures ok ==> OperandsSent(pp, c, tables[0].leaf, l, nets[0].outbox) && nets[0].inbox == NoMsgs(pp.n)
    ensures ok ==> forall i :: 0 < i < pp.n ==> Idle(nets[i])
  {
    hide BatchCount, RandomnessShape, PrepFor, LayerAvailable, WellFormed, OperandSent, Sendable, BatchesSent;
    assert LayerAt(runs[0], pp, c, r, l, 0, nets[0]);
    LayerSendable(runs[0], pp, c, r, l, 0, nets[0], tables[0].leaf);
    for i := 0 to |runs|
      invariant Connected(nets) && AllTables(tables, pp.n, c) && tables[0].leaf == old(tables[0].leaf)
      invariant i == 0 ==> Idle(nets[0])
      invariant i > 0 ==> nets[0].inbox == NoMsgs(pp.n) && OperandsSent(pp, c, tables[0].leaf, l, nets[0].outbox)
      invariant forall j :: 0 < j < pp.n ==> Idle(nets[j])
    {
      assert LayerAt(runs[i], pp, c, r, l, i, nets[i]);
      var sent := LayerP1Sends(runs[i], pp, c, i, nets[i], tables[i]);
      if !sent { return false; }
      if i == 0 { BatchesAreOperands(runs[0], pp, c, r, l, nets[0], tables[0].leaf, nets[0].outbox); }
    }
    return true;
  }

  // ---- One layer: products ----

  /** Everybody has received P1's messages, and nothing else is on its way. */
  ghost predicate FromP1(nets: seq<Net>, sent: seq<Vec>)
    reads nets
  {
    && Connected(nets) && |sent| == |nets|
    && forall i :: 0 <= i < |nets| ==> nets[i].inbox == NoMsgs(|nets|)[0 := sent[i]] && nets[i].outbox == NoMsgs(|nets|)
  }

  /** The batches hold the party's shares of the operands. */
  ghost predicate HoldsOperands(runs: seq<MultBatchRun>, queue: Vec)
    reads runs
  {
    |queue| == 2 * |runs| && forall b :: 0 <= b < |runs| ==> runs[b].shrMuA == queue[2 * b] && runs[b].shrMuB == queue[2 * b + 1]
  }

  method ReceiveOperandsOne(runs: seq<MultBatchRun>, net: Net, ghost pp: Params, ghost c: Circuit, ghost i: nat, ghost queue: Vec)
    requires net.Valid() && LayerOf(runs, pp, c, i, net) && |queue| == 2 * |runs|
    requires net.inbox == NoMsgs(pp.n)[0 := queue] && net.outbox == NoMsgs(pp.n)
    modifies (set b | 0 <= b < |runs| :: runs[b]), net`inbox
    ensures net.Valid() && Idle(net) && HoldsOperands(runs, queue)
  {
    LayerPartiesReceive(runs, pp, c, i, net);
    assert net.inbox == NoMsgs(pp.n);
  }

  /** Circuit::MultPartiesReceive at all parties. */
  method ReceiveOperands(runs: seq<seq<MultBatchRun>>, nets: seq<Net>, ghost pp: Params, ghost c: Circuit, ghost r: Randomness, ghost l: nat, ghost sent: seq<Vec>)
    requires AllRuns(runs, nets, pp, c, r, l) && FromP1(nets, sent) && forall i :: 0 <= i < pp.n ==> |sent[i]| == 2 * |runs[i]|
    modifies (set i, b | 0 <= i < |runs| && 0 <= b < |runs[i]| :: runs[i][b]), nets
    ensures Connected(nets) && forall i :: 0 <= i < pp.n ==> Idle(nets[i]) && HoldsOperands(runs[i], sent[i])
  {
    hide AllRuns, LayerOf, Idle, HoldsOperands;
    RunsAre(runs, nets, pp, c, r, l);
    for i := 0 to |runs|
      invariant Connected(nets) && forall e :: 0 <= e < i ==> Idle(nets[e]) && HoldsOperands(runs[e], sent[e])
      invariant forall e :: i <= e < pp.n ==> nets[e].inbox == NoMsgs(pp.n)[0 := sent[e]] && nets[e].outbox == NoMsgs(pp.n)
    {
      ReceiveOperandsOne(runs[i], nets[i], pp, c, i, sent[i]);
    }
  }

  lemma RunsAre(runs: seq<seq<MultBatchRun>>, nets: seq<Net>, pp: Params, c: Circuit, r: Randomness, l: nat)
    requires AllRuns(runs, nets, pp, c, r, l)
    ensures Setup(pp, c, r) && pp.Valid() && l < |c.mults| && |runs| == |nets| == pp.n
    ensures forall i :: 0 <= i < pp.n ==> LayerOf(runs[i], pp, c, i, nets[i]) && |runs[i]| == BatchCount(|c.mults[l]|, pp.k)
    ensures forall i, b :: 0 <= i < pp.n && 0 <= b < |runs[i]| ==> runs[i][b].id == i
  {
    hide BatchCount, RandomnessShape, PrepFor, WellFormed, MultSlots;
    forall i | 0 <= i < pp.n
      ensures LayerOf(runs[i], pp, c, i, nets[i]) && |runs[i]| == BatchCount(|c.mults[l]|, pp.k)
      ensures forall b :: 0 <= b < |runs[i]| ==> runs[i][b].id == i
    {
      assert LayerAt(runs[i], pp, c, r, l, i, nets[i]);
    }
  }

  /** The party's shares of the products. */
  ghost predicate SharesOut(runs: seq<MultBatchRun>, queue: Vec)
    reads runs
  {
    |queue| == |runs| && forall b :: 0 <= b < |runs| ==> queue[b] == OnlineShare(runs[b].prep, runs[b].shrMuA, runs[b].shrMuB)
  }

  method SendSharesOne(runs: seq<MultBatchRun>, net: Net, ghost pp: Params, ghost c: Circuit, ghost i: nat)
    requires net.Valid() && LayerOf(runs, pp, c, i, net) && Idle(net)
    modifies net`outbox
    ensures net.Valid() && net.inbox == NoMsgs(net.n) && net.outbox == NoMsgs(net.n)[0 := net.outbox[0]]
    ensures SharesOut(runs, net.outbox[0])
  {
    hide Topological, MultSlots, OnlineShare;
    LayerPartiesSend(runs, pp, c, i, net);
  }

  /** Circuit::MultPartiesSend at all parties. */
  method SendShares(runs: seq<seq<MultBatchRun>>, nets: seq<Net>, ghost pp: Params, ghost c: Circuit, ghost r: Randomness, ghost l: nat)
    requires AllRuns(runs, nets, pp, c, r, l) && Connected(nets) && forall i :: 0 <= i < pp.n ==> Idle(nets[i])
    modifies nets
    ensures Connected(nets) && OnlyToFirst(nets) && forall i :: 0 <= i < pp.n ==> SharesOut(runs[i], nets[i].outbox[0])
  {
    hide AllRuns, LayerOf, Idle, SharesOut;
    RunsAre(runs, nets, pp, c, r, l);
    for i := 0 to |runs|
      invariant Connected(nets) && forall e :: i <= e < pp.n ==> Idle(nets[e])
      invariant forall e :: 0 <= e < i ==> nets[e].inbox == NoMsgs(pp.n) && nets[e].outbox == NoMsgs(pp.n)[0 := nets[e].outbox[0]]
      invariant forall e :: 0 <= e < i ==> SharesOut(runs[e], nets[e].outbox[0])
    {
      SendSharesOne(runs[i], nets[i], pp, c, i);
    }
  }

  /** Party e's queue to P1 when it holds what P1 sent it. */
  lemma SharesAre(runs: seq<MultBatchRun>, net: Net, pp: Params, c: Circuit, r: Randomness, l: nat, e: nat, learned: map<nat, Elem>, sent: seq<Vec>, queue: seq<Vec>, b: nat)
    requires Setup(pp, c, r) && l < |c.mults| && e < pp.n && LayerAt(runs, pp, c, r, l, e, net)
    requires OperandsSent(pp, c, learned, l, sent) && HoldsOperands(runs, sent[e])
    requires |queue| == pp.n && SharesOut(runs, queue[e]) && b < BatchCount(|c.mults[l]|, pp.k)
    ensures ShareFrom(pp, c, r, learned, l, queue, b, e)
  {
    hide BatchCount, RandomnessShape, PrepFor, LayerAvailable, WellFormed, OnlineShare, Mus, Reshare, LayerOf;
    assert OperandSent(pp, c, learned, l, sent[e], b, e);
    assert LayerAvailable(c, pp.k, learned, l);
    BatchReady(c, pp.k, learned, l, b);
  }

  lemma BatchReady(c: Circuit, k: nat, learned: map<nat, Elem>, l: nat, b: nat)
    requires WellFormed(c) && k > 0 && l < |c.mults| && LayerAvailable(c, k, learned, l) && b < BatchCount(|c.mults[l]|, k)
    ensures AllAvailable(c, learned, Lefts(c, MultBatch(c, k, l, b))) && AllAvailable(c, learned, Rights(c, MultBatch(c, k, l, b)))
  {
  }

  /** P1 opens the products of one layer; the others pass. */
  method LearnOne(runs: seq<MultBatchRun>, net: Net, table: WireValues, pp: Params, ghost c: Circuit, ghost r: Randomness, ghost l: nat, i: nat, ghost queues: seq<Vec>)
    requires Setup(pp, c, r) && l < |c.mults| && i < pp.n && LayerAt(runs, pp, c, r, l, i, net) && net.Valid() && table.Valid() && table.c == c
    requires i > 0 ==> Idle(net) && table.leaf == map[]
    requires i == 0 ==> CanLearn(pp, c, r, l, table.leaf, queues) && net.inbox == queues && net.outbox == NoMsgs(pp.n)
    modifies net`inbox, table
    ensures net.Valid() && Idle(net) && table.Valid() && (i > 0 ==> table.leaf == map[])
    ensures i == 0 ==> RunLayer(pp, c, r, old(table.leaf), l) == Some(table.leaf)
  {
    hide BatchCount, RandomnessShape, PrepFor, LayerAvailable, WellFormed, ShareFrom, LearnedBatches, RunLayer, MultSlots, GatesDiffer;
    ghost var learned := table.leaf;
    RunSlots(runs, pp, c, r, l, i, net);
    if i == 0 { LayerUnlearned(runs, pp, c, r, l, net, learned); }
    LayerP1Receives(runs, pp, c, i, net, table);
    if i == 0 {
      LayerIsRun(pp, c, r, learned, l, queues, table.leaf);
      assert net.inbox == NoMsgs(pp.n);
    }
  }

  lemma RunSlots(runs: seq<MultBatchRun>, pp: Params, c: Circuit, r: Randomness, l: nat, i: nat, net: Net)
    requires Setup(pp, c, r) && l < |c.mults| && i < pp.n && LayerAt(runs, pp, c, r, l, i, net)
    ensures SlotLists(runs) == Batches(c.mults[l], pp.k) && GatesDiffer(SlotLists(runs))
  {
    hide BatchCount, RandomnessShape, PrepFor, WellFormed, MultSlots, GatesDiffer;
    LayerDiffers(c, pp.k, l);
    forall b | 0 <= b < |runs| ensures SlotLists(runs)[b] == Batches(c.mults[l], pp.k)[b] { assert runs[b].slots == MultBatch(c, pp.k, l, b); }
  }

  lemma LayerUnlearned(runs: seq<MultBatchRun>, pp: Params, c: Circuit, r: Randomness, l: nat, net: Net, learned: map<nat, Elem>)
    requires Setup(pp, c, r) && l < |c.mults| && 0 < pp.n && LayerAt(runs, pp, c, r, l, 0, net)
    requires forall p :: 0 <= p < |c.mults[l]| ==> c.mults[l][p] !in learned
    ensures forall b, j :: 0 <= b < |runs| && 0 <= j < pp.k && runs[b].slots[j].Wire? ==> runs[b].slots[j].id !in learned
  {
    hide BatchCount, RandomnessShape, PrepFor, WellFormed, MultSlots;
    RunSlots(runs, pp, c, r, l, 0, net);
    forall b, j | 0 <= b < |runs| && 0 <= j < pp.k && runs[b].slots[j].Wire? ensures runs[b].slots[j].id !in learned {
      assert Wire(runs[b].slots[j].id) in Batches(c.mults[l], pp.k)[b];
      LearnedOnlyLayer(c.mults[l], pp.k, runs[b].slots[j].id, b);
    }
  }

  /** All shares of the layer's products have arrived at P1, which has not learned them before. */
  ghost predicate CanLearn(pp: Params, c: Circuit, r: Randomness, l: nat, learned: map<nat, Elem>, queues: seq<Vec>)
    requires Setup(pp, c, r) && l < |c.mults|
  {
    && pp.Valid() && |queues| == pp.n && (forall e :: 0 <= e < pp.n ==> |queues[e]| == BatchCount(|c.mults[l]|, pp.k))
    && LayerAvailable(c, pp.k, learned, l) && (forall p :: 0 <= p < |c.mults[l]| ==> c.mults[l][p] !in learned)
    && forall b, e :: 0 <= b < BatchCount(|c.mults[l]|, pp.k) && 0 <= e < pp.n ==> ShareFrom(pp, c, r, learned, l, queues, b, e)
  }

  /** Circuit::MultP1Receives at all parties: P1's table becomes what RunLayer says. */
  method LearnProducts(runs: seq<seq<MultBatchRun>>, nets: seq<Net>, tables: seq<WireValues>, pp: Params, ghost c: Circuit, ghost r: Randomness, ghost l: nat,
                       ghost queues: seq<Vec>)
    requires AllRuns(runs, nets, pp, c, r, l) && Connected(nets) && AllTables(tables, pp.n, c) && CanLearn(pp, c, r, l, tables[0].leaf, queues)
    requires nets[0].inbox == queues && nets[0].outbox == NoMsgs(pp.n) && forall i :: 0 < i < pp.n ==> Idle(nets[i])
    modifies nets, tables
    ensures Connected(nets) && AllTables(tables, pp.n, c) && forall i :: 0 <= i < pp.n ==> Idle(nets[i])
    ensures RunLayer(pp, c, r, old(tables[0].leaf), l) == Some(tables[0].leaf)
  {
    hide LayerAt, Setup, CanLearn, RunLayer, Idle;
    RunsAre(runs, nets, pp, c, r, l);
    ghost var learned := tables[0].leaf;
    for i := 0 to |runs|
      invariant Connected(nets) && AllTables(tables, pp.n, c) && forall e :: 0 < e < pp.n ==> Idle(nets[e])
      invariant i == 0 ==> nets[0].inbox == queues && nets[0].outbox == NoMsgs(pp.n) && tables[0].leaf == learned
      invariant i > 0 ==> Idle(nets[0]) && RunLayer(pp, c, r, learned, l) == Some(tables[0].leaf)
    {
      LearnOne(runs[i], nets[i], tables[i], pp, c, r, l, i, queues);
    }
  }

  lemma SharesArrive(runs: seq<seq<MultBatchRun>>, nets: seq<Net>, pp: Params, c: Circuit, r: Randomness, l: nat, learned: map<nat, Elem>, sent: seq<Vec>, queues: seq<Vec>)
    requires AllRuns(runs, nets, pp, c, r, l) && OperandsSent(pp, c, learned, l, sent) && |queues| == pp.n
    requires forall i :: 0 <= i < pp.n ==> HoldsOperands(runs[i], sent[i]) && SharesOut(runs[i], queues[i])
    requires forall p :: 0 <= p < |c.mults[l]| ==> c.mults[l][p] !in learned
    ensures CanLearn(pp, c, r, l, learned, queues)
  {
    hide BatchCount, RandomnessShape, LayerAvailable, WellFormed, HoldsOperands, ShareFrom, OperandSent, LayerOf;
    RunsAre(runs, nets, pp, c, r, l);
    forall e | 0 <= e < pp.n ensures |queues[e]| == BatchCount(|c.mults[l]|, pp.k) { assert SharesOut(runs[e], queues[e]); }
    forall b, e | 0 <= b < BatchCount(|c.mults[l]|, pp.k) && 0 <= e < pp.n ensures ShareFrom(pp, c, r, learned, l, queues, b, e) {
      assert LayerAt(runs[e], pp, c, r, l, e, nets[e]);
      SharesAre(runs[e], nets[e], pp, c, r, l, e, learned, sent, queues, b);
    }
  }

  /** The parties' part of a layer, from what P1 sent them to what it can learn. */
  method Products(runs: seq<seq<MultBatchRun>>, nets: seq<Net>, ghost pp: Params, ghost c: Circuit, ghost r: Randomness, ghost l: nat,
                  ghost learned: map<nat, Elem>, ghost sent: seq<Vec>) returns (ghost queues: seq<Vec>)
    requires AllRuns(runs, nets, pp, c, r, l) && FromP1(nets, sent) && OperandsSent(pp, c, learned, l, sent)
    requires forall p :: 0 <= p < |c.mults[l]| ==> c.mults[l][p] !in learned
    modifies (set i, b | 0 <= i < |runs| && 0 <= b < |runs[i]| :: runs[i][b]), nets
    ensures Connected(nets) && CanLearn(pp, c, r, l, learned, queues) && nets[0].inbox == queues && nets[0].outbox == NoMsgs(pp.n)
    ensures forall i :: 0 < i < pp.n ==> Idle(nets[i])
  {
    hide AllRuns, Setup, OperandsSent, HoldsOperands, SharesOut, CanLearn, Arrived, OnlyToFirst, LayerOf, BatchCount, Idle;
    RunsAre(runs, nets, pp, c, r, l);
    SentSizes(pp, c, r, l, learned, sent);
    ReceiveOperands(runs, nets, pp, c, r, l, sent);
    SendShares(runs, nets, pp, c, r, l);
    AtFirst(nets);
    queues := Arrived(nets, 0);
    SharesArrive(runs, nets, pp, c, r, l, learned, sent, queues);
    Deliver(nets);
    Quiet(nets);
  }

  lemma SentSizes(pp: Params, c: Circuit, r: Randomness, l: nat, learned: map<nat, Elem>, sent: seq<Vec>)
    requires Setup(pp, c, r) && l < |c.mults| && pp.Valid() && OperandsSent(pp, c, learned, l, sent)
    ensures |sent| == pp.n && forall j :: 0 <= j < pp.n ==> |sent[j]| == 2 * BatchCount(|c.mults[l]|, pp.k)
  {
  }

  /** One layer at all parties: what RunLayer says, with an exception where it has none. */
  method MultLayer(runs: seq<seq<MultBatchRun>>, nets: seq<Net>, tables: seq<WireValues>, pp: Params, c: Circuit, ghost r: Randomness, ghost l: nat)
      returns (ok: bool)
    requires AllRuns(runs, nets, pp, c, r, l) && Connected(nets) && AllTables(tables, pp.n, c) && forall i :: 0 <= i < pp.n ==> Idle(nets[i])
    requires pp.n > 0 && forall p :: 0 <= p < |c.mults[l]| ==> c.mults[l][p] !in tables[0].leaf
    modifies (set i, b | 0 <= i < |runs| && 0 <= b < |runs[i]| :: runs[i][b]), nets, tables
    ensures Connected(nets) && AllTables(tables, pp.n, c)
    ensures ok <==> RunLayer(pp, c, r, old(tables[0].leaf), l).Some?
    ensures ok ==> RunLayer(pp, c, r, old(tables[0].leaf), l) == Some(tables[0].leaf) && forall i :: 0 <= i < pp.n ==> Idle(nets[i])
  {
    hide AllRuns, RunLayer, LayerAvailable, OperandsSent, Arrived, LayerOf, Setup, CanLearn;
    RunsAre(runs, nets, pp, c, r, l);
    RunLayerDomain(pp, c, r, tables[0].leaf, l);
    ok := SendOperands(runs, nets, tables, pp, c, r, l);
    if !ok { return; }
    ghost var sent := nets[0].outbox;
    FirstArrives(nets);
    Deliver(nets);
    ghost var queues := Products(runs, nets, pp, c, r, l, tables[0].leaf, sent);
    LearnProducts(runs, nets, tables, pp, c, r, l, queues);
  }

  // ---- Inputs ----

  /** Every owner knows the values of its inputs and the masks of its wires. */
  ghost predicate OwnersKnow(pp: Params, c: Circuit, r: Randomness, x: map<nat, Elem>, values: seq<map<nat, Elem>>, lambdas: seq<map<nat, Elem>>)
    requires Setup(pp, c, r)
  {
    && HasInputs(c, x) && |values| == |lambdas| == pp.n && |c.inputs| <= pp.n && |c.outputs| <= pp.n
    && (forall o, p :: 0 <= o < |c.inputs| && 0 <= p < |c.inputs[o]| ==> KnowsInput(pp, c, r, x, values[o], lambdas[o], o, p))
    && forall o, p :: 0 <= o < |c.outputs| && 0 <= p < |c.outputs[o]| ==> KnowsOutput(pp, c, r, lambdas[o], o, p)
  }

  ghost predicate KnowsInput(pp: Params, c: Circuit, r: Randomness, x: map<nat, Elem>, values: map<nat, Elem>, lambdas: map<nat, Elem>, o: nat, p: nat)
    requires Setup(pp, c, r) && HasInputs(c, x) && o < |c.inputs| && p < |c.inputs[o]|
  {
    var g := c.inputs[o][p];
    g in x && g in values && values[g] == x[g] && g in lambdas && lambdas[g] == InputMask(pp, c, r, o, p)
  }

  ghost predicate KnowsOutput(pp: Params, c: Circuit, r: Randomness, lambdas: map<nat, Elem>, o: nat, p: nat)
    requires Setup(pp, c, r) && o < |c.outputs| && p < |c.outputs[o]|
  {
    c.outputs[o][p] in lambdas && lambdas[c.outputs[o][p]] == OutputMask(pp, c, r, o, p)
  }

  method SendInputsOne(net: Net, c: Circuit, i: nat, values: map<nat, Elem>, lambdas: map<nat, Elem>)
    requires net.Valid() && net.n > 0 && Idle(net)
    modifies net`outbox
    ensures net.Valid() && net.inbox == NoMsgs(net.n) && net.outbox == NoMsgs(net.n)[0 := InputMsgs(c, values, lambdas, i)]
  {
    hide InputMsgs;
    PartyCircuit.InputOwnerSendsP1(net, c, i, values, lambdas);
    assert net.outbox[0] == InputMsgs(c, values, lambdas, i);
    assert forall j :: 0 <= j < net.n ==> net.outbox[j] == NoMsgs(net.n)[0 := InputMsgs(c, values, lambdas, i)][j];
  }

  /** Circuit::InputOwnerSendsP1 at all parties. */
  method SendInputs(nets: seq<Net>, c: Circuit, values: seq<map<nat, Elem>>, lambdas: seq<map<nat, Elem>>)
    requires Connected(nets) && |nets| == |values| == |lambdas| && forall i :: 0 <= i < |nets| ==> Idle(nets[i])
    modifies nets
    ensures Connected(nets) && OnlyToFirst(nets)
    ensures forall i :: 0 <= i < |nets| ==> nets[i].outbox[0] == InputMsgs(c, values[i], lambdas[i], i)
  {
    hide InputMsgs;
    for i := 0 to |nets|
      invariant Connected(nets) && forall e :: i <= e < |nets| ==> Idle(nets[e])
      invariant forall e :: 0 <= e < i ==>
        nets[e].inbox == NoMsgs(|nets|) && nets[e].outbox == NoMsgs(|nets|)[0 := InputMsgs(c, values[e], lambdas[e], e)]
    {
      SendInputsOne(nets[i], c, i, values[i], lambdas[i]);
    }
  }

  /** What P1 learns of these messages is what the protocol says. */
  lemma InputsAre(pp: Params, c: Circuit, r: Randomness, x: map<nat, Elem>, values: seq<map<nat, Elem>>, lambdas: seq<map<nat, Elem>>, queues: seq<Vec>, leaf: map<nat, Elem>)
    requires Setup(pp, c, r) && OwnersKnow(pp, c, r, x, values, lambdas) && |queues| == pp.n && leaf.Keys == InputIds(c)
    requires forall i :: 0 <= i < pp.n ==> queues[i] == InputMsgs(c, values[i], lambdas[i], i)
    requires forall o, p :: 0 <= o < |c.inputs| && 0 <= p < |c.inputs[o]| ==> InputLearned(c, queues, leaf, o, p)
    ensures leaf == LearnInputs(pp, c, r, x)
  {
    hide RandomnessShape, InputMask, Topological, MultsListed, OutputsListed, InputMu, KnowsOutput;
    forall g | g in InputIds(c) ensures leaf[g] == InputMu(pp, c, r, x, g) {
      var o := c.gates[g].owner;
      var p := IndexOf(c.inputs[o], g);
      assert InputLearned(c, queues, leaf, o, p) && KnowsInput(pp, c, r, x, values[o], lambdas[o], o, p);
      InputMsgIsMu(pp, c, r, x, lambdas[o], o, p);
    }
  }

  method LearnInputsOne(net: Net, i: nat, table: WireValues, ghost queues: seq<Vec>)
    requires net.Valid() && table.Valid() && WellFormed(table.c) && |table.c.inputs| <= net.n && table.leaf == map[]
    requires i > 0 ==> Idle(net)
    requires i == 0 ==> net.inbox == queues && net.outbox == NoMsgs(net.n) && |queues| == net.n
                        && forall o :: 0 <= o < net.n ==> |queues[o]| == if o < |table.c.inputs| then |table.c.inputs[o]| else 0
    modifies net`inbox, table
    ensures net.Valid() && Idle(net) && table.Valid() && (i > 0 ==> table.leaf == map[])
    ensures i == 0 ==> table.leaf.Keys == InputIds(table.c) && forall o, p :: 0 <= o < |table.c.inputs| && 0 <= p < |table.c.inputs[o]| ==>
                         InputLearned(table.c, queues, table.leaf, o, p)
  {
    hide WellFormed, InputLearned;
    PartyCircuit.InputP1Receives(net, i, table);
    assert net.inbox == NoMsgs(net.n);
  }

  /** The input phase at all parties: P1's table becomes LearnInputs. */
  method InputPhase(nets: seq<Net>, tables: seq<WireValues>, ghost pp: Params, c: Circuit, ghost r: Randomness, ghost x: map<nat, Elem>,
                    values: seq<map<nat, Elem>>, lambdas: seq<map<nat, Elem>>)
    requires Setup(pp, c, r) && OwnersKnow(pp, c, r, x, values, lambdas) && |nets| == pp.n > 0
    requires Connected(nets) && AllTables(tables, pp.n, c) && forall i :: 0 <= i < pp.n ==> Idle(nets[i]) && tables[i].leaf == map[]
    modifies nets, tables
    ensures Connected(nets) && AllTables(tables, pp.n, c) && forall i :: 0 <= i < pp.n ==> Idle(nets[i])
    ensures tables[0].leaf == LearnInputs(pp, c, r, x)
  {
    hide WellFormed, Setup, InputMsgs, OwnersKnow, Arrived, OnlyToFirst, Idle;
    KnowSizes(pp, c, r, x, values, lambdas);
    SendInputs(nets, c, values, lambdas);
    AtFirst(nets);
    ghost var queues := Arrived(nets, 0);
    Deliver(nets);
    Quiet(nets);
    LearnInputsAll(nets, tables, pp, c, r, x, values, lambdas, queues);
  }

  lemma KnowSizes(pp: Params, c: Circuit, r: Randomness, x: map<nat, Elem>, values: seq<map<nat, Elem>>, lambdas: seq<map<nat, Elem>>)
    requires Setup(pp, c, r) && OwnersKnow(pp, c, r, x, values, lambdas)
    ensures WellFormed(c) && HasInputs(c, x) && |values| == |lambdas| == pp.n && |c.inputs| <= pp.n && |c.outputs| <= pp.n
  {
  }

  /** Circuit::InputP1Receives at all parties. */
  method LearnInputsAll(nets: seq<Net>, tables: seq<WireValues>, ghost pp: Params, c: Circuit, ghost r: Randomness, ghost x: map<nat, Elem>,
                        ghost values: seq<map<nat, Elem>>, ghost lambdas: seq<map<nat, Elem>>, ghost queues: seq<Vec>)
    requires Setup(pp, c, r) && OwnersKnow(pp, c, r, x, values, lambdas) && |nets| == |queues| == pp.n > 0
    requires forall i :: 0 <= i < pp.n ==> queues[i] == InputMsgs(c, values[i], lambdas[i], i)
    requires Connected(nets) && AllTables(tables, pp.n, c) && tables[0].leaf == map[]
    requires nets[0].inbox == queues && nets[0].outbox == NoMsgs(pp.n) && forall i :: 0 < i < pp.n ==> Idle(nets[i])
    modifies nets, tables
    ensures Connected(nets) && AllTables(tables, pp.n, c) && forall i :: 0 <= i < pp.n ==> Idle(nets[i])
    ensures tables[0].leaf == LearnInputs(pp, c, r, x)
  {
    hide WellFormed, Setup, InputLearned, OwnersKnow, Idle;
    KnowSizes(pp, c, r, x, values, lambdas);
    for i := 0 to |nets|
      invariant Connected(nets) && AllTables(tables, pp.n, c) && forall e :: 0 < e < pp.n ==> Idle(nets[e])
      invariant i == 0 ==> nets[0].inbox == queues && nets[0].outbox == NoMsgs(pp.n) && tables[0].leaf == map[]
      invariant i > 0 ==> Idle(nets[0]) && tables[0].leaf == LearnInputs(pp, c, r, x)
    {
      LearnInputsOne(nets[i], i, tables[i], queues);
      if i == 0 { InputsAre(pp, c, r, x, values, lambdas, queues, tables[0].leaf); }
    }
  }

  // ---- All layers ----

  method MakeLayer(nets: seq<Net>, pp: Params, c: Circuit, ghost r: Randomness, l: nat, preps: seq<seq<seq<BatchPrep>>>) returns (runs: seq<seq<MultBatchRun>>)
    requires Setup(pp, c, r) && l < |c.mults| && Connected(nets) && |nets| == |preps| == pp.n
    requires forall i :: 0 <= i < pp.n ==> Parties.HasPrep(pp, c, r, i, preps[i])
    ensures AllRuns(runs, nets, pp, c, r, l) && forall i :: 0 <= i < |runs| ==> fresh(runs[i])
  {
    hide Setup, LayerAt, Parties.HasPrep;
    runs := [];
    for i := 0 to |nets|
      invariant |runs| == i && forall e :: 0 <= e < i ==> LayerAt(runs[e], pp, c, r, l, e, nets[e]) && fresh(runs[e])
    {
      var mine := MakeBatches(pp, c, r, l, i, nets[i], preps[i]);
      runs := runs + [mine];
    }
  }

  /** Gates of the next layer have not been learned yet. */
  lemma LayerIsNew(pp: Params, c: Circuit, r: Randomness, x: map<nat, Elem>, l: nat)
    requires Setup(pp, c, r) && HasInputs(c, x) && l < |c.mults| && RunLayers(pp, c, r, x, l).Some?
    ensures forall p :: 0 <= p < |c.mults[l]| ==> c.mults[l][p] !in RunLayers(pp, c, r, x, l).value
  {
    hide RandomnessShape, InputsListed, OutputsListed, RunLayers, Learned;
    LayersRunExactly(pp, c, r, x, l);
    LearnedKeys(pp, c, r, x, l, RunLayers(pp, c, r, x, l).value);
  }

  lemma {:induction false} NoneStays(pp: Params, c: Circuit, r: Randomness, x: map<nat, Elem>, l: nat, m: nat)
    requires Setup(pp, c, r) && HasInputs(c, x) && l <= m <= |c.mults| && RunLayers(pp, c, r, x, l).None?
    ensures RunLayers(pp, c, r, x, m).None?
  {
    hide Setup, RunLayer, HasInputs;
    if l < m { NoneStays(pp, c, r, x, l, m - 1); }
  }

  lemma NextLayer(pp: Params, c: Circuit, r: Randomness, x: map<nat, Elem>, l: nat)
    requires Setup(pp, c, r) && HasInputs(c, x) && l < |c.mults| && RunLayers(pp, c, r, x, l).Some?
    ensures RunLayers(pp, c, r, x, l + 1) == RunLayer(pp, c, r, RunLayers(pp, c, r, x, l).value, l)
  {
    hide Setup, RunLayer, HasInputs;
  }

  /** All multiplication layers at all parties. */
  method MultLayers(nets: seq<Net>, tables: seq<WireValues>, pp: Params, c: Circuit, ghost r: Randomness, ghost x: map<nat, Elem>, preps: seq<seq<seq<BatchPrep>>>)
      returns (ok: bool)
    requires Setup(pp, c, r) && HasInputs(c, x) && |nets| == |preps| == pp.n > 0 && forall i :: 0 <= i < pp.n ==> Parties.HasPrep(pp, c, r, i, preps[i])
    requires Connected(nets) && AllTables(tables, pp.n, c) && (forall i :: 0 <= i < pp.n ==> Idle(nets[i])) && tables[0].leaf == LearnInputs(pp, c, r, x)
    modifies nets, tables
    ensures Connected(nets) && AllTables(tables, pp.n, c)
    ensures ok <==> RunLayers(pp, c, r, x, |c.mults|).Some?
    ensures ok ==> RunLayers(pp, c, r, x, |c.mults|) == Some(tables[0].leaf) && forall i :: 0 <= i < pp.n ==> Idle(nets[i])
  {
    hide Setup, HasInputs, RunLayers, RunLayer, AllRuns, Idle, Parties.HasPrep;
    FirstLayers(pp, c, r, x);
    for l := 0 to |c.mults|
      invariant Connected(nets) && AllTables(tables, pp.n, c) && forall i :: 0 <= i < pp.n ==> Idle(nets[i])
      invariant RunLayers(pp, c, r, x, l) == Some(tables[0].leaf)
    {
      LayerIsNew(pp, c, r, x, l);
      NextLayer(pp, c, r, x, l);
      var runs := MakeLayer(nets, pp, c, r, l, preps);
      var done := MultLayer(runs, nets, tables, pp, c, r, l);
      if !done {
        NoneStays(pp, c, r, x, l + 1, |c.mults|);
        return false;
      }
    }
    return true;
  }

  lemma FirstLayers(pp: Params, c: Circuit, r: Randomness, x: map<nat, Elem>)
    requires Setup(pp, c, r) && HasInputs(c, x)
    ensures RunLayers(pp, c, r, x, 0) == Some(LearnInputs(pp, c, r, x))
  {
    hide Setup, HasInputs;
  }

  // ---- Outputs ----

  /** P1's messages to owner o. */
  ghost function OutputMsgs(c: Circuit, leaf: map<nat, Elem>, o: nat): (v: Vec)
    requires WellFormed(c) && (o < |c.outputs| ==> OutputsKnown(c, leaf, o))
    ensures |v| == if o < |c.outputs| then |c.outputs[o]| else 0
  {
    if o < |c.outputs| then OutputMus(c, leaf, o) else []
  }

  /** After all layers every output is known. */
  lemma AllOutputsKnown(pp: Params, c: Circuit, r: Randomness, x: map<nat, Elem>, leaf: map<nat, Elem>)
    requires Setup(pp, c, r) && HasInputs(c, x) && RunLayers(pp, c, r, x, |c.mults|) == Some(leaf)
    ensures forall o :: 0 <= o < |c.outputs| ==> OutputsKnown(c, leaf, o)
  {
    hide RandomnessShape, InputsListed, MultsListed, Topological, RunLayers, Learned, LearnedAfter, Level, Known;
    LayersRunExactly(pp, c, r, x, |c.mults|);
    LearnedKeys(pp, c, r, x, |c.mults|, leaf);
    forall o, p | 0 <= o < |c.outputs| && 0 <= p < |c.outputs[o]| ensures Known(c, leaf.Keys, c.outputs[o][p]) {
      LevelAtMostDepth(c, c.outputs[o][p]);
      KnownByLevel(c, |c.mults|, leaf.Keys, c.outputs[o][p]);
    }
  }

  /** Circuit::OutputP1SendsMu at all parties. */
  method SendOutputs(nets: seq<Net>, tables: seq<WireValues>, ghost n: nat, ghost c: Circuit) returns (ok: bool)
    requires WellFormed(c) && |c.outputs| <= n == |nets| && n > 0
    requires Connected(nets) && AllTables(tables, n, c) && forall i :: 0 <= i < n ==> Idle(nets[i])
    modifies nets, tables
    ensures Connected(nets) && AllTables(tables, n, c) && tables[0].leaf == old(tables[0].leaf)
    ensures ok <==> forall o :: 0 <= o < |c.outputs| ==> OutputsKnown(c, tables[0].leaf, o)
    ensures ok ==> OnlyFirstSends(nets) && forall o :: 0 <= o < n ==> nets[0].outbox[o] == OutputMsgs(c, tables[0].leaf, o)
  {
    hide WellFormed, OutputsKnown, OutputMus;
    for i := 0 to |nets|
      invariant Connected(nets) && AllTables(tables, n, c) && tables[0].leaf == old(tables[0].leaf)
      invariant forall e :: 0 < e < n ==> Idle(nets[e])
      invariant i == 0 ==> Idle(nets[0])
      invariant i > 0 ==> forall o :: 0 <= o < |c.outputs| ==> OutputsKnown(c, tables[0].leaf, o)
      invariant i > 0 ==> nets[0].inbox == NoMsgs(n) && forall o :: 0 <= o < n ==> nets[0].outbox[o] == OutputMsgs(c, tables[0].leaf, o)
    {
      var sent := OutputP1SendsMu(nets[i], i, tables[i]);
      if !sent { return false; }
    }
    return true;
  }

  /** The owner has its outputs as they are read. */
  ghost predicate HasOutputs(pp: Params, c: Circuit, r: Randomness, x: map<nat, Elem>, o: nat, outputs: Vec)
    requires Setup(pp, c, r) && HasInputs(c, x)
  {
    && |outputs| == (if o < |c.outputs| then |c.outputs[o]| else 0)
    && forall p :: 0 <= p < |outputs| ==> RunProtocol(pp, c, r, x, o, p) == Some(outputs[p])
  }

  method ReceiveOutputsOne(net: Net, pp: Params, c: Circuit, ghost r: Randomness, ghost x: map<nat, Elem>, i: nat, lambdas: map<nat, Elem>, ghost leaf: map<nat, Elem>)
      returns (outputs: Vec)
    requires Setup(pp, c, r) && HasInputs(c, x) && i < pp.n && net.Valid() && net.n == pp.n && RunLayers(pp, c, r, x, |c.mults|) == Some(leaf)
    requires forall o :: 0 <= o < |c.outputs| ==> OutputsKnown(c, leaf, o)
    requires net.inbox == NoMsgs(pp.n)[0 := OutputMsgs(c, leaf, i)] && net.outbox == NoMsgs(pp.n)
    requires i < |c.outputs| ==> forall p :: 0 <= p < |c.outputs[i]| ==> KnowsOutput(pp, c, r, lambdas, i, p)
    modifies net`inbox
    ensures net.Valid() && Idle(net) && HasOutputs(pp, c, r, x, i, outputs)
  {
    hide RandomnessShape, Topological, InputsListed, MultsListed, RunLayers, OutputMask, Known, Spread, Add, HasInputs;
    ghost var msgs := OutputMsgs(c, leaf, i);
    assert net.inbox[0] == msgs;
    outputs := PartyCircuit.OutputOwnerReceivesMu(net, c, i, lambdas);
    assert msgs[|outputs|..] == [];
    assert net.inbox == NoMsgs(pp.n);
    forall p | 0 <= p < |outputs| ensures RunProtocol(pp, c, r, x, i, p) == Some(outputs[p]) {
      assert KnowsOutput(pp, c, r, lambdas, i, p) && OutputsKnown(c, leaf, i);
    }
  }

  /** Circuit::OutputOwnerReceivesMu at all parties. */
  method ReceiveOutputs(nets: seq<Net>, pp: Params, c: Circuit, ghost r: Randomness, ghost x: map<nat, Elem>, ghost values: seq<map<nat, Elem>>,
                        lambdas: seq<map<nat, Elem>>, ghost leaf: map<nat, Elem>) returns (outputs: seq<Vec>)
    requires Setup(pp, c, r) && OwnersKnow(pp, c, r, x, values, lambdas) && RunLayers(pp, c, r, x, |c.mults|) == Some(leaf)
    requires |nets| == pp.n && forall o :: 0 <= o < |c.outputs| ==> OutputsKnown(c, leaf, o)
    requires Connected(nets) && forall i :: 0 <= i < pp.n ==> nets[i].inbox == NoMsgs(pp.n)[0 := OutputMsgs(c, leaf, i)] && nets[i].outbox == NoMsgs(pp.n)
    modifies nets
    ensures Connected(nets) && |outputs| == pp.n && forall i :: 0 <= i < pp.n ==> Idle(nets[i]) && HasOutputs(pp, c, r, x, i, outputs[i])
  {
    hide Setup, RunLayers, HasInputs, KnowsInput, KnowsOutput, OutputsKnown, OutputMsgs, HasOutputs, Idle;
    KnowSizes(pp, c, r, x, values, lambdas);
    outputs := [];
    for i := 0 to |nets|
      invariant Connected(nets) && |outputs| == i
      invariant forall e :: 0 <= e < i ==> Idle(nets[e]) && HasOutputs(pp, c, r, x, e, outputs[e])
      invariant forall e :: i <= e < pp.n ==> nets[e].inbox == NoMsgs(pp.n)[0 := OutputMsgs(c, leaf, e)] && nets[e].outbox == NoMsgs(pp.n)
    {
      var mine := ReceiveOutputsOne(nets[i], pp, c, r, x, i, lambdas[i], leaf);
      outputs := outputs + [mine];
    }
  }

  // ---- The online phase ----

  method MakeTables(n: nat, c: Circuit) returns (tables: seq<WireValues>)
    requires Topological(c)
    ensures fresh(tables) && AllTables(tables, n, c) && forall i :: 0 <= i < n ==> tables[i].leaf == map[]
  {
    hide Topological;
    tables := [];
    for i := 0 to n
      invariant |tables| == i && fresh(tables) && AllTables(tables, i, c) && forall e :: 0 <= e < i ==> tables[e].leaf == map[]
    {
      var mine := new WireValues(c);
      tables := tables + [mine];
    }
  }

  /** The online phase of a circuit, all parties together: it throws exactly when the circuit is not well
      layered, and otherwise every owner obtains what the protocol's functions give it. */
  method RunOnline(nets: seq<Net>, pp: Params, c: Circuit, ghost r: Randomness, ghost x: map<nat, Elem>, preps: seq<seq<seq<BatchPrep>>>,
                   values: seq<map<nat, Elem>>, lambdas: seq<map<nat, Elem>>) returns (res: Option<seq<Vec>>)
    requires Setup(pp, c, r) && OwnersKnow(pp, c, r, x, values, lambdas) && |nets| == |preps| == pp.n > 0
    requires Connected(nets) && forall i :: 0 <= i < pp.n ==> Idle(nets[i]) && Parties.HasPrep(pp, c, r, i, preps[i])
    modifies nets
    ensures res.Some? <==> WellLayered(c)
    ensures res.Some? ==> |res.value| == pp.n && forall i :: 0 <= i < pp.n ==> Idle(nets[i]) && HasOutputs(pp, c, r, x, i, res.value[i])
  {
    hide Setup, OwnersKnow, RunLayers, OutputsKnown, HasOutputs, Parties.HasPrep, Idle, LearnInputs, WellLayered, LayerReads, Learned;
    KnowSizes(pp, c, r, x, values, lambdas);
    LayersRunExactly(pp, c, r, x, |c.mults|);
    WellLayeredByLayers(c);
    var tables := MakeTables(pp.n, c);
    InputPhase(nets, tables, pp, c, r, x, values, lambdas);
    var ok := MultLayers(nets, tables, pp, c, r, x, preps);
    if !ok { return None; }
    AllOutputsKnown(pp, c, r, x, tables[0].leaf);
    ok := SendOutputs(nets, tables, pp.n, c);
    ghost var leaf := tables[0].leaf;
    FirstArrives(nets);
    Deliver(nets);
    var outputs := ReceiveOutputs(nets, pp, c, r, x, values, lambdas, leaf);
    return Some(outputs);
  }

  // ---- From the masks to the lambdas of the gates ----

  /** Every lambda that is set is the mask its wire is read with. */
  ghost predicate RightLambdas(pp: Params, c: Circuit, r: Randomness, m: map<nat, Elem>)
    requires Setup(pp, c, r)
  {
    forall g: nat :: g in m ==> g < |c.gates| && m[g] == MappedMask(pp, c, r, g)
  }

  /** The gates of the first b batches have their lambdas. */
  ghost predicate LambdasSet(list: seq<nat>, k: nat, m: map<nat, Elem>, b: nat) {
    forall d, j :: 0 <= d < b && 0 <= j < k && SlotAt(list, k, d, j).Wire? ==> SlotAt(list, k, d, j).id in m
  }

  method SetBatchLambdas(ghost pp: Params, ghost c: Circuit, ghost r: Randomness, slots: seq<Slot>, masks: Vec, before: map<nat, Elem>) returns (m: map<nat, Elem>)
    requires Setup(pp, c, r) && SlotsOk(c, slots) && masks == SlotMasks(pp, c, r, slots) && RightLambdas(pp, c, r, before)
    ensures RightLambdas(pp, c, r, m) && before.Keys <= m.Keys
    ensures forall j :: 0 <= j < |slots| && slots[j].Wire? ==> slots[j].id in m
  {
    hide RandomnessShape, WellFormed, MappedMask;
    m := before;
    for j := 0 to |slots|
      invariant RightLambdas(pp, c, r, m) && before.Keys <= m.Keys
      invariant forall q :: 0 <= q < j && slots[q].Wire? ==> slots[q].id in m
    {
      if slots[j].Wire? { m := m[slots[j].id := masks[j]]; }
    }
  }

  /** SetLambda on the gates of the owner's batches (PrepInputOwnerReceives, PrepOutputOwnerReceives). */
  method SetLambdas(ghost pp: Params, ghost c: Circuit, ghost r: Randomness, lists: seq<seq<nat>>, k: nat, i: nat, masks: seq<Vec>, before: map<nat, Elem>)
      returns (m: map<nat, Elem>)
    requires Setup(pp, c, r) && k == pp.k > 0 && PartyOffline.GatesIn(c, lists) && Parties.HasMasks(pp, c, r, lists, i, masks) && RightLambdas(pp, c, r, before)
    ensures RightLambdas(pp, c, r, m) && before.Keys <= m.Keys
    ensures i < |lists| ==> forall p :: 0 <= p < |lists[i]| ==> lists[i][p] in m
  {
    hide Setup, RightLambdas, BatchCount, SlotMasks, SlotAt;
    m := before;
    if i < |lists| {
      for b := 0 to BatchCount(|lists[i]|, k)
        invariant RightLambdas(pp, c, r, m) && before.Keys <= m.Keys && LambdasSet(lists[i], k, m, b)
      {
        assert Parties.OpensTo(pp, c, r, lists, i, b, masks[b]);
        PartyOffline.BatchGates(c, lists, k, i, b);
        m := SetBatchLambdas(pp, c, r, BatchAt(lists[i], k, b), masks[b], m);
        forall j | 0 <= j < k && SlotAt(lists[i], k, b, j).Wire? ensures SlotAt(lists[i], k, b, j).id in m {
          assert BatchAt(lists[i], k, b)[j] == SlotAt(lists[i], k, b, j);
        }
      }
      forall p | 0 <= p < |lists[i]| ensures lists[i][p] in m {
        GateInBatch(lists[i], k, p);
        assert SlotAt(lists[i], k, BatchIndex(p, k), SlotIndex(p, k)) == Wire(lists[i][p]);
      }
    }
  }

  method AllLambdas(pp: Params, c: Circuit, ghost r: Randomness, ins: seq<seq<Vec>>, outs: seq<seq<Vec>>) returns (lambdas: seq<map<nat, Elem>>)
    requires Setup(pp, c, r) && pp.k > 0 && |ins| == |outs| == pp.n && PartyOffline.GatesIn(c, c.inputs) && PartyOffline.GatesIn(c, c.outputs)
    requires forall i :: 0 <= i < pp.n ==> Parties.HasMasks(pp, c, r, c.inputs, i, ins[i]) && Parties.HasMasks(pp, c, r, c.outputs, i, outs[i])
    ensures |lambdas| == pp.n && forall i :: 0 <= i < pp.n ==> RightLambdas(pp, c, r, lambdas[i]) && OwnLambdas(c, lambdas[i], i)
  {
    hide Setup, Parties.HasMasks, RightLambdas, PartyOffline.GatesIn;
    lambdas := [];
    assert RightLambdas(pp, c, r, map[]) by { NoLambdas(pp, c, r); }
    for i := 0 to pp.n
      invariant |lambdas| == i && forall e :: 0 <= e < i ==> RightLambdas(pp, c, r, lambdas[e]) && OwnLambdas(c, lambdas[e], e)
    {
      var mine := SetLambdas(pp, c, r, c.inputs, pp.k, i, ins[i], map[]);
      mine := SetLambdas(pp, c, r, c.outputs, pp.k, i, outs[i], mine);
      lambdas := lambdas + [mine];
    }
  }

  lemma NoLambdas(pp: Params, c: Circuit, r: Randomness)
    requires Setup(pp, c, r)
    ensures RightLambdas(pp, c, r, map[])
  {
  }

  /** The owner has the lambdas of all its gates. */
  ghost predicate OwnLambdas(c: Circuit, m: map<nat, Elem>, i: nat) {
    && (i < |c.inputs| ==> forall p :: 0 <= p < |c.inputs[i]| ==> c.inputs[i][p] in m)
    && (i < |c.outputs| ==> forall p :: 0 <= p < |c.outputs[i]| ==> c.outputs[i][p] in m)
  }

  /** The owners then know what the online phase asks of them. */
  lemma LambdasKnown(pp: Params, c: Circuit, r: Randomness, x: map<nat, Elem>, values: seq<map<nat, Elem>>, lambdas: seq<map<nat, Elem>>)
    requires Setup(pp, c, r) && HasInputs(c, x) && |values| == |lambdas| == pp.n && |c.inputs| <= pp.n && |c.outputs| <= pp.n
    requires forall o, p :: 0 <= o < |c.inputs| && 0 <= p < |c.inputs[o]| ==> OwnValue(c, x, values[o], o, p)
    requires forall i :: 0 <= i < pp.n ==> RightLambdas(pp, c, r, lambdas[i]) && OwnLambdas(c, lambdas[i], i)
    ensures OwnersKnow(pp, c, r, x, values, lambdas)
  {
    hide RandomnessShape, Topological, MultsListed, InputMask, OutputMask, MappedMask, Mask;
    forall o, p | 0 <= o < |c.inputs| && 0 <= p < |c.inputs[o]| ensures KnowsInput(pp, c, r, x, values[o], lambdas[o], o, p) {
      assert OwnValue(c, x, values[o], o, p);
      InputMaskCorrect(pp, c, r, o, p);
      LeafSharing(pp, c, r, c.inputs[o][p]);
    }
    forall o, p | 0 <= o < |c.outputs| && 0 <= p < |c.outputs[o]| ensures KnowsOutput(pp, c, r, lambdas[o], o, p) {
      OutputMaskCorrect(pp, c, r, o, p);
    }
  }

  /** The owner has set the value of its p-th input gate. */
  ghost predicate OwnValue(c: Circuit, x: map<nat, Elem>, values: map<nat, Elem>, o: nat, p: nat)
    requires o < |c.inputs| && p < |c.inputs[o]|
  {
    var g := c.inputs[o][p];
    g in x && g in values && values[g] == x[g]
  }

  // ---- Preprocessing and online phase together ----

  /** The function-dependent preprocessing and the online phase, run by n objects over their networks:
      for all circuits, inputs, randomness and parameters the run throws exactly when the circuit is
      not well layered, and otherwise every owner's outputs are its output wires as they are read, which
      are the values of the cleartext evaluation wherever nothing that is read is missed. */
  method RunTurboPack(ps: seq<PartyPrep.PartyPrep>, nets: seq<Net>, pp: Params, c: Circuit, ghost r: Randomness, ghost x: map<nat, Elem>,
                      values: seq<map<nat, Elem>>) returns (res: Option<seq<Vec>>)
    requires Parties.Together(ps, nets, pp, c, r) && Parties.ClientsFit(pp, c) && Connected(nets)
    requires forall i :: 0 <= i < pp.n ==> Parties.Unmapped(ps[i]) && Idle(nets[i])
    requires HasInputs(c, x) && |values| == pp.n
    requires forall o, p :: 0 <= o < |c.inputs| && 0 <= p < |c.inputs[o]| ==> OwnValue(c, x, values[o], o, p)
    modifies ps, nets
    ensures res.Some? <==> WellLayered(c)
    ensures res.Some? ==> |res.value| == pp.n && forall o :: 0 <= o < |c.outputs| ==> |res.value[o]| == |c.outputs[o]|
    ensures res.Some? ==> forall o, p :: 0 <= o < |c.outputs| && 0 <= p < |c.outputs[o]| ==> Obtains(pp, c, r, x, o, p, res.value[o][p])
    ensures res.Some? ==> forall i :: 0 <= i < pp.n ==> Idle(nets[i])
  {
    hide Setup, Parties.Together, OwnersKnow, Parties.HasPrep, Parties.HasMasks, Idle, WellLayered, HasInputs, RightLambdas, PartyOffline.GatesIn, Obtains;
    Parties.PartyIs(ps, nets, pp, c, r);
    var preps, ins, outs := Parties.RunFDPhase(ps, nets, pp, c, r);
    var lambdas := AllLambdas(pp, c, r, ins, outs);
    LambdasKnown(pp, c, r, x, values, lambdas);
    res := RunOnline(nets, pp, c, r, x, preps, values, lambdas);
    if res.Some? {
      forall o, p | 0 <= o < |c.outputs| && 0 <= p < |c.outputs[o]| ensures Obtains(pp, c, r, x, o, p, res.value[o][p]) {
        assert HasOutputs(pp, c, r, x, o, res.value[o]);
        RunObtains(pp, c, r, x, o, p);
      }
    }
  }
}
