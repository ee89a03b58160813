/** One party's online phase of a whole circuit: the loops of circuits/online.cc over owners and
    gates, and of a layer over its batches, around the steps of PartyOnline. */
module PartyCircuit {
  import opened Field
  import opened Packed
  import opened FIPrep
  import opened Batch
  import opened Circuits
  import opened TurboPack
  import opened Online
  import opened Gates
  import opened Network
  import opened PartyOnline
  import opened Wrappers
  import PartyPrep

  /** mValue and mLambda of the gates; a field that was never set reads as 0. */
  function FieldOf(m: map<nat, Elem>, g: nat): Elem {
    if g in m then m[g] else 0
  }

  // ---- Inputs ----

  /** The owner's masked inputs, in order. */
  function InputMsgs(c: Circuit, values: map<nat, Elem>, lambdas: map<nat, Elem>, o: nat): (v: Vec)
    ensures |v| == if o < |c.inputs| then |c.inputs[o]| else 0
  {
    if o < |c.inputs| then
      seq(|c.inputs[o]|, p requires 0 <= p < |c.inputs[o]| => Sub(FieldOf(values, c.inputs[o][p]), FieldOf(lambdas, c.inputs[o][p])))
    else []
  }

  /** Circuit::InputOwnerSendsP1: P1 is sent the party's own masked inputs and nothing else. */
  method InputOwnerSendsP1(net: Net, c: Circuit, id: nat, values: map<nat, Elem>, lambdas: map<nat, Elem>)
    requires net.Valid() && net.n > 0
    modifies net`outbox
    ensures net.Valid() && net.outbox[0] == old(net.outbox)[0] + InputMsgs(c, values, lambdas, id)
    ensures forall j :: 0 < j < net.n ==> net.outbox[j] == old(net.outbox)[j]
  {
    hide Sub, FieldOf;
    for o := 0 to |c.inputs|
      invariant net.Valid() && net.outbox[0] == old(net.outbox)[0] + (if id < o then InputMsgs(c, values, lambdas, id) else [])
      invariant forall j :: 0 < j < net.n ==> net.outbox[j] == old(net.outbox)[j]
    {
      for p := 0 to |c.inputs[o]|
        invariant net.Valid()
        invariant net.outbox[0] == old(net.outbox)[0] + (if id < o then InputMsgs(c, values, lambdas, id)
                                                        else if id == o then InputMsgs(c, values, lambdas, id)[..p] else [])
        invariant forall j :: 0 < j < net.n ==> net.outbox[j] == old(net.outbox)[j]
      {
        OwnerSendsP1(net, id, o, FieldOf(values, c.inputs[o][p]), FieldOf(lambdas, c.inputs[o][p]));
      }
      if id == o { assert InputMsgs(c, values, lambdas, id)[..|c.inputs[o]|] == InputMsgs(c, values, lambdas, id); }
    }
  }

  /** With the owner's values and the lambdas it opened, its messages are those of the protocol. */
  lemma InputMsgIsMu(pp: Params, c: Circuit, r: Randomness, x: map<nat, Elem>, lambdas: map<nat, Elem>, o: nat, p: nat)
    requires Setup(pp, c, r) && HasInputs(c, x) && o < |c.inputs| && p < |c.inputs[o]|
    requires c.inputs[o][p] in lambdas && lambdas[c.inputs[o][p]] == InputMask(pp, c, r, o, p)
    ensures c.inputs[o][p] < |c.gates| && c.gates[c.inputs[o][p]].InputGate?
    ensures InputMsgs(c, x, lambdas, o)[p] == InputMu(pp, c, r, x, c.inputs[o][p])
  {
    hide RandomnessShape, InputMask, Topological, MultsListed, OutputsListed;
    var g := c.inputs[o][p];
    assert c.gates[g] == InputGate(o) && IndexOf(c.inputs[o], g) == p;
  }

  /** P1 has learned message p of owner o for that owner's p-th input. */
  predicate InputLearned(c: Circuit, start: seq<Vec>, leaf: map<nat, Elem>, o: nat, p: nat) {
    && o < |c.inputs| && p < |c.inputs[o]| && o < |start| && p < |start[o]|
    && c.inputs[o][p] in leaf && leaf[c.inputs[o][p]] == start[o][p]
  }

  /** The inputs of owners before o, and the first p of owner o, are what has been learned. */
  ghost predicate InputsLearnt(c: Circuit, start: seq<Vec>, leaf: map<nat, Elem>, o: nat, p: nat) {
    && o <= |c.inputs| && (o < |c.inputs| ==> p <= |c.inputs[o]|)
    && (forall g :: g in leaf ==> g in InputIds(c) && (c.gates[g].owner < o || (c.gates[g].owner == o < |c.inputs| && g in c.inputs[o][..p])))
    && (forall q, d :: 0 <= q < o && 0 <= d < |c.inputs[q]| ==> InputLearned(c, start, leaf, q, d))
    && forall d :: 0 <= d < p && o < |c.inputs| ==> InputLearned(c, start, leaf, o, d)
  }

  lemma NextInput(c: Circuit, start: seq<Vec>, leaf: map<nat, Elem>, o: nat, p: nat)
    requires WellFormed(c) && o < |c.inputs| && p < |c.inputs[o]| && InputsLearnt(c, start, leaf, o, p)
    requires o < |start| && p < |start[o]|
    ensures IsLeaf(c, c.inputs[o][p]) && c.inputs[o][p] !in leaf
    ensures InputsLearnt(c, start, leaf[c.inputs[o][p] := start[o][p]], o, p + 1)
  {
    hide Topological, OutputsListed, MultsListed;
    var g, more := c.inputs[o][p], leaf[c.inputs[o][p] := start[o][p]];
    assert g !in leaf;
    assert c.inputs[o][..p + 1] == c.inputs[o][..p] + [g];
    forall q, d | 0 <= q < o && 0 <= d < |c.inputs[q]| ensures InputLearned(c, start, more, q, d) {
      assert InputLearned(c, start, leaf, q, d);
    }
    forall d | 0 <= d < p ensures InputLearned(c, start, more, o, d) { assert InputLearned(c, start, leaf, o, d); }
  }

  lemma NextOwner(c: Circuit, start: seq<Vec>, leaf: map<nat, Elem>, o: nat)
    requires WellFormed(c) && o < |c.inputs| && InputsLearnt(c, start, leaf, o, |c.inputs[o]|)
    ensures InputsLearnt(c, start, leaf, o + 1, 0)
  {
    hide Topological, OutputsListed, MultsListed, InputLearned;
  }

  lemma AllLearned(c: Circuit, start: seq<Vec>, leaf: map<nat, Elem>)
    requires WellFormed(c) && InputsLearnt(c, start, leaf, |c.inputs|, 0)
    ensures leaf.Keys == InputIds(c)
    ensures forall o, p :: 0 <= o < |c.inputs| && 0 <= p < |c.inputs[o]| ==> InputLearned(c, start, leaf, o, p)
  {
    hide Topological, OutputsListed, MultsListed;
    forall g | g in InputIds(c) ensures g in leaf {
      var o := c.gates[g].owner;
      assert InputLearned(c, start, leaf, o, IndexOf(c.inputs[o], g));
    }
  }

  /** Circuit::InputP1Receives: P1 learns exactly the inputs, each from its owner's queue in order. */
  method InputP1Receives(net: Net, id: nat, table: WireValues)
    requires net.Valid() && table.Valid() && WellFormed(table.c) && |table.c.inputs| <= net.n && table.leaf == map[]
    requires id == 0 ==> forall o :: 0 <= o < |table.c.inputs| ==> |net.inbox[o]| >= |table.c.inputs[o]|
    modifies net`inbox, table
    ensures net.Valid() && table.Valid()
    ensures id != 0 ==> net.inbox == old(net.inbox) && table.leaf == map[]
    ensures id == 0 ==> table.leaf.Keys == InputIds(table.c)
    ensures id == 0 ==> forall o, p :: 0 <= o < |table.c.inputs| && 0 <= p < |table.c.inputs[o]| ==>
              InputLearned(table.c, old(net.inbox), table.leaf, o, p)
    ensures id == 0 ==> forall o :: 0 <= o < net.n ==>
              net.inbox[o] == if o < |table.c.inputs| then old(net.inbox)[o][|table.c.inputs[o]|..] else old(net.inbox)[o]
  {
    hide WellFormed, InputsLearnt, InputLearned;
    ghost var start := net.inbox;
    var c := table.c;
    if id != 0 { return; }
    NoneLearnt(c, start);
    for o := 0 to |c.inputs|
      invariant net.Valid() && table.Valid() && InputsLearnt(c, start, table.leaf, o, 0)
      invariant forall q :: 0 <= q < net.n ==> net.inbox[q] == if q < o then start[q][|c.inputs[q]|..] else start[q]
    {
      for p := 0 to |c.inputs[o]|
        invariant net.Valid() && table.Valid() && InputsLearnt(c, start, table.leaf, o, p)
        invariant net.inbox[o] == start[o][p..]
        invariant forall q :: 0 <= q < net.n && q != o ==> net.inbox[q] == if q < o then start[q][|c.inputs[q]|..] else start[q]
      {
        NextInput(c, start, table.leaf, o, p);
        PartyOnline.InputP1Receives(net, id, o, c.inputs[o][p], table);
      }
      NextOwner(c, start, table.leaf, o);
    }
    AllLearned(c, start, table.leaf);
  }

  lemma NoneLearnt(c: Circuit, start: seq<Vec>)
    ensures InputsLearnt(c, start, map[], 0, 0)
  {
  }

  // ---- One layer of multiplications ----

  /** The batches of a layer at one party: different objects on the same circuit and network. */
  ghost predicate LayerOf(runs: seq<MultBatchRun>, pp: Params, c: Circuit, id: nat, net: Net) {
    && pp.Valid() && Topological(c) && id < pp.n && net.n == pp.n
    && (forall b :: 0 <= b < |runs| ==> runs[b].pp == pp && runs[b].c == c && runs[b].id == id && runs[b].net == net
                                        && |runs[b].slots| == pp.k && MultSlots(c, runs[b].slots))
    && forall b, d :: 0 <= b < d < |runs| ==> runs[b] != runs[d]
  }

  ghost predicate Sendable(c: Circuit, leaf: map<nat, Elem>, slots: seq<Slot>)
    requires Topological(c) && MultSlots(c, slots)
  {
    AllAvailable(c, leaf, Lefts(c, slots)) && AllAvailable(c, leaf, Rights(c, slots))
  }

  /** The two shares of batch number b are in their places among P1's messages to every party. */
  ghost predicate BatchSent(pp: Params, c: Circuit, leaf: map<nat, Elem>, slots: seq<Slot>, start: seq<Vec>, now: seq<Vec>, b: nat)
    requires pp.Valid() && Topological(c) && MultSlots(c, slots) && |slots| == pp.k
  {
    && |start| == |now| == pp.n && Sendable(c, leaf, slots)
    && forall j :: 0 <= j < pp.n ==> SharesAt(pp, Mus(c, leaf, Lefts(c, slots)), Mus(c, leaf, Rights(c, slots)), start[j], now[j], j, b)
  }

  ghost predicate SharesAt(pp: Params, muA: Vec, muB: Vec, start: Vec, now: Vec, j: nat, b: nat)
    requires pp.Valid() && |muA| == |muB| == pp.k && j < pp.n
  {
    |start| + 2 * b + 1 < |now| && now[|start| + 2 * b] == Reshare(pp, muA)[j] && now[|start| + 2 * b + 1] == Reshare(pp, muB)[j]
  }

  /** After m batches: all of them could be sent, and nothing else was. */
  ghost predicate BatchesSent(runs: seq<MultBatchRun>, pp: Params, c: Circuit, id: nat, net: Net, leaf: map<nat, Elem>, start: seq<Vec>, now: seq<Vec>, m: nat)
    requires LayerOf(runs, pp, c, id, net)
  {
    && m <= |runs| && |start| == |now| == pp.n
    && (forall j :: 0 <= j < pp.n ==> start[j] <= now[j] && |now[j]| == |start[j]| + 2 * m)
    && forall b :: 0 <= b < m ==> BatchSent(pp, c, leaf, runs[b].slots, start, now, b)
  }

  lemma BatchAdded(runs: seq<MultBatchRun>, pp: Params, c: Circuit, id: nat, net: Net, leaf: map<nat, Elem>, start: seq<Vec>, now: seq<Vec>, m: nat, after: seq<Vec>)
    requires LayerOf(runs, pp, c, id, net) && m < |runs| && BatchesSent(runs, pp, c, id, net, leaf, start, now, m)
    requires |after| == pp.n && Sendable(c, leaf, runs[m].slots)
    requires forall j :: 0 <= j < pp.n ==>
               after[j] == now[j] + [Reshare(pp, Mus(c, leaf, Lefts(c, runs[m].slots)))[j], Reshare(pp, Mus(c, leaf, Rights(c, runs[m].slots)))[j]]
    ensures BatchesSent(runs, pp, c, id, net, leaf, start, after, m + 1)
  {
    hide Topological, Reshare, Mus, AllAvailable, MultSlots, Lefts, Rights;
    forall b | 0 <= b < m + 1 ensures BatchSent(pp, c, leaf, runs[b].slots, start, after, b) {
      if b < m { StillSent(pp, c, leaf, runs[b].slots, start, now, after, b); }
    }
  }

  lemma StillSent(pp: Params, c: Circuit, leaf: map<nat, Elem>, slots: seq<Slot>, start: seq<Vec>, now: seq<Vec>, after: seq<Vec>, b: nat)
    requires pp.Valid() && Topological(c) && MultSlots(c, slots) && |slots| == pp.k && BatchSent(pp, c, leaf, slots, start, now, b)
    requires |after| == |now| && forall j :: 0 <= j < |now| ==> now[j] <= after[j]
    ensures BatchSent(pp, c, leaf, slots, start, after, b)
  {
    hide Topological, Reshare, Mus, AllAvailable, MultSlots, Lefts, Rights;
    var muA, muB := Mus(c, leaf, Lefts(c, slots)), Mus(c, leaf, Rights(c, slots));
    forall j | 0 <= j < pp.n ensures SharesAt(pp, muA, muB, start[j], after[j], j, b) {
      assert SharesAt(pp, muA, muB, start[j], now[j], j, b);
    }
  }

  /** MultLayer::P1Sends: throws exactly when some batch reads a wire that is not learned. */
  method LayerP1Sends(runs: seq<MultBatchRun>, ghost pp: Params, c: Circuit, id: nat, net: Net, table: WireValues) returns (ok: bool)
    requires net.Valid() && LayerOf(runs, pp, c, id, net) && table.Valid() && table.c == c
    modifies net`outbox, table`memo
    ensures net.Valid() && table.Valid() && table.leaf == old(table.leaf)
    ensures ok <==> id != 0 || forall b :: 0 <= b < |runs| ==> Sendable(c, table.leaf, runs[b].slots)
    ensures id != 0 ==> net.outbox == old(net.outbox)
    ensures id == 0 && ok ==> BatchesSent(runs, pp, c, id, net, table.leaf, old(net.outbox), net.outbox, |runs|)
  {
    hide Topological, Reshare, Mus, AllAvailable, MultSlots, Lefts, Rights, BatchSent;
    ghost var start := net.outbox;
    for b := 0 to |runs|
      invariant net.Valid() && table.Valid() && table.leaf == old(table.leaf)
      invariant id != 0 ==> net.outbox == old(net.outbox)
      invariant id == 0 ==> BatchesSent(runs, pp, c, id, net, table.leaf, start, net.outbox, b)
      invariant id == 0 ==> forall d :: 0 <= d < b ==> Sendable(c, table.leaf, runs[d].slots)
    {
      ghost var now := net.outbox;
      var sent := runs[b].P1Sends(table);
      if !sent { return false; }
      if id == 0 { BatchAdded(runs, pp, c, id, net, table.leaf, start, now, b, net.outbox); }
    }
    return true;
  }

  /** MultLayer::PartiesReceive. */
  method LayerPartiesReceive(runs: seq<MultBatchRun>, ghost pp: Params, ghost c: Circuit, ghost id: nat, net: Net)
    requires net.Valid() && LayerOf(runs, pp, c, id, net) && |net.inbox[0]| >= 2 * |runs|
    modifies (set b | 0 <= b < |runs| :: runs[b]), net`inbox
    ensures net.Valid() && net.inbox[0] == old(net.inbox)[0][2 * |runs|..]
    ensures forall e :: 0 < e < pp.n ==> net.inbox[e] == old(net.inbox)[e]
    ensures forall b :: 0 <= b < |runs| ==> runs[b].shrMuA == old(net.inbox)[0][2 * b] && runs[b].shrMuB == old(net.inbox)[0][2 * b + 1]
  {
    hide Topological, MultSlots;
    ghost var start := net.inbox;
    for b := 0 to |runs|
      invariant net.Valid() && net.inbox[0] == start[0][2 * b..] && forall e :: 0 < e < pp.n ==> net.inbox[e] == start[e]
      invariant forall d :: 0 <= d < b ==> runs[d].shrMuA == start[0][2 * d] && runs[d].shrMuB == start[0][2 * d + 1]
    {
      runs[b].PartiesReceive();
    }
  }

  /** MultLayer::PartiesSend: one share per batch, in order. */
  method LayerPartiesSend(runs: seq<MultBatchRun>, ghost pp: Params, ghost c: Circuit, ghost id: nat, net: Net)
    requires net.Valid() && LayerOf(runs, pp, c, id, net)
    modifies net`outbox
    ensures net.Valid() && old(net.outbox)[0] <= net.outbox[0] && |net.outbox[0]| == |old(net.outbox)[0]| + |runs|
    ensures forall b :: 0 <= b < |runs| ==>
              net.outbox[0][|old(net.outbox)[0]| + b] == OnlineShare(runs[b].prep, runs[b].shrMuA, runs[b].shrMuB)
    ensures forall j :: 0 < j < pp.n ==> net.outbox[j] == old(net.outbox)[j]
  {
    hide Topological, MultSlots, OnlineShare;
    ghost var start := net.outbox[0];
    for b := 0 to |runs|
      invariant net.Valid() && start <= net.outbox[0] && |net.outbox[0]| == |start| + b
      invariant forall d :: 0 <= d < b ==> net.outbox[0][|start| + d] == OnlineShare(runs[d].prep, runs[d].shrMuA, runs[d].shrMuB)
      invariant forall j :: 0 < j < pp.n ==> net.outbox[j] == old(net.outbox)[j]
    {
      runs[b].PartiesSend();
    }
  }

  /** The batches name different gates, each of them once. */
  predicate GatesDiffer(slots: seq<seq<Slot>>) {
    && (forall b :: 0 <= b < |slots| ==> SlotsDiffer(slots[b]))
    && forall b, i, d, j :: 0 <= b < d < |slots| && 0 <= i < |slots[b]| && 0 <= j < |slots[d]| && slots[b][i].Wire? && slots[d][j].Wire? ==>
         slots[b][i].id != slots[d][j].id
  }

  ghost function SlotLists(runs: seq<MultBatchRun>): (s: seq<seq<Slot>>)
    ensures |s| == |runs| && forall b :: 0 <= b < |runs| ==> s[b] == runs[b].slots
  {
    seq(|runs|, b requires 0 <= b < |runs| => runs[b].slots)
  }

  /** What P1 opened for batch b is learned for its gates. */
  ghost predicate BatchLearned(pp: Params, slots: seq<Slot>, start: seq<Vec>, leaf: map<nat, Elem>, b: nat)
    requires pp.Valid() && |slots| == pp.k && |start| == pp.n && forall e :: 0 <= e < pp.n ==> b < |start[e]|
  {
    forall j :: 0 <= j < pp.k && slots[j].Wire? ==>
      slots[j].id in leaf && leaf[slots[j].id] == Reconstruct(PartyPrep.Heads(start, pp.n, b), pp.k)[j]
  }

  /** After m batches: their gates have been learned, the others have not, and nothing else changed. */
  ghost predicate LearnedBatches(slots: seq<seq<Slot>>, pp: Params, start: seq<Vec>, before: map<nat, Elem>, leaf: map<nat, Elem>, m: nat) {
    && pp.Valid() && m <= |slots| && |start| == pp.n && (forall e :: 0 <= e < pp.n ==> |slots| <= |start[e]|)
    && (forall b :: 0 <= b < |slots| ==> |slots[b]| == pp.k)
    && (forall b :: 0 <= b < m ==> BatchLearned(pp, slots[b], start, leaf, b))
    && (forall g :: g in before ==> g in leaf && leaf[g] == before[g])
    && (forall g :: g in leaf ==> g in before || exists b :: 0 <= b < m && Wire(g) in slots[b])
  }

  lemma NextUnlearned(slots: seq<seq<Slot>>, pp: Params, start: seq<Vec>, before: map<nat, Elem>, leaf: map<nat, Elem>, m: nat)
    requires LearnedBatches(slots, pp, start, before, leaf, m) && GatesDiffer(slots) && m < |slots|
    requires forall j :: 0 <= j < pp.k && slots[m][j].Wire? ==> slots[m][j].id !in before
    ensures forall j :: 0 <= j < pp.k && slots[m][j].Wire? ==> slots[m][j].id !in leaf
  {
    hide BatchLearned;
  }

  lemma OneBatchLearned(slots: seq<seq<Slot>>, pp: Params, start: seq<Vec>, before: map<nat, Elem>, leaf: map<nat, Elem>, m: nat, more: map<nat, Elem>)
    requires LearnedBatches(slots, pp, start, before, leaf, m) && m < |slots| && BatchLearned(pp, slots[m], start, more, m)
    requires forall g :: g in leaf ==> g in more && more[g] == leaf[g]
    requires forall g :: g in more ==> g in leaf || Wire(g) in slots[m]
    ensures LearnedBatches(slots, pp, start, before, more, m + 1)
  {
    hide Reconstruct;
    forall b | 0 <= b < m + 1 ensures BatchLearned(pp, slots[b], start, more, b) {
      if b < m { assert BatchLearned(pp, slots[b], start, leaf, b); }
    }
  }

  /** One batch of MultLayer::P1Receives, at P1. */
  method P1LearnsBatch(run: MultBatchRun, ghost slots: seq<seq<Slot>>, ghost start: seq<Vec>, ghost before: map<nat, Elem>, ghost m: nat, table: WireValues)
    requires run.Ready() && run.id == 0 && table.Valid() && table.c == run.c && GatesDiffer(slots)
    requires m < |slots| && slots[m] == run.slots && LearnedBatches(slots, run.pp, start, before, table.leaf, m)
    requires forall j :: 0 <= j < run.pp.k && run.slots[j].Wire? ==> run.slots[j].id !in before
    requires forall e :: 0 <= e < run.pp.n ==> run.net.inbox[e] == start[e][m..]
    modifies run.net`inbox, table
    ensures run.Ready() && table.Valid() && LearnedBatches(slots, run.pp, start, before, table.leaf, m + 1)
    ensures forall e :: 0 <= e < run.pp.n ==> run.net.inbox[e] == start[e][m + 1..]
  {
    hide Topological, MultSlots, Reconstruct, GatesDiffer, LearnedBatches;
    ghost var leaf, inbox := table.leaf, run.net.inbox;
    LearnedShape(slots, run.pp, start, before, leaf, m);
    NextUnlearned(slots, run.pp, start, before, leaf, m);
    BatchDiffers(slots, m);
    run.P1Receives(table);
    assert PartyPrep.Heads(inbox, run.pp.n, 0) == PartyPrep.Heads(start, run.pp.n, m);
    OneBatchLearned(slots, run.pp, start, before, leaf, m, table.leaf);
  }

  lemma BatchDiffers(slots: seq<seq<Slot>>, m: nat)
    requires GatesDiffer(slots) && m < |slots|
    ensures SlotsDiffer(slots[m])
  {
  }

  lemma LearnedShape(slots: seq<seq<Slot>>, pp: Params, start: seq<Vec>, before: map<nat, Elem>, leaf: map<nat, Elem>, m: nat)
    requires LearnedBatches(slots, pp, start, before, leaf, m)
    ensures |start| == pp.n && (forall e :: 0 <= e < pp.n ==> |slots| <= |start[e]|)
    ensures forall b :: 0 <= b < |slots| ==> |slots[b]| == pp.k
  {
  }

  /** MultLayer::P1Receives: P1 opens one message of everybody per batch and learns exactly the
      layer's gates; other parties do nothing. */
  method LayerP1Receives(runs: seq<MultBatchRun>, pp: Params, ghost c: Circuit, id: nat, net: Net, table: WireValues)
    requires net.Valid() && LayerOf(runs, pp, c, id, net) && table.Valid() && table.c == c && GatesDiffer(SlotLists(runs))
    requires id == 0 ==> forall e :: 0 <= e < pp.n ==> |net.inbox[e]| >= |runs|
    requires forall b, j :: 0 <= b < |runs| && 0 <= j < pp.k && runs[b].slots[j].Wire? ==> runs[b].slots[j].id !in table.leaf
    modifies net`inbox, table
    ensures net.Valid() && table.Valid()
    ensures id != 0 ==> net.inbox == old(net.inbox) && table.leaf == old(table.leaf)
    ensures id == 0 ==> LearnedBatches(SlotLists(runs), pp, old(net.inbox), old(table.leaf), table.leaf, |runs|)
    ensures id == 0 ==> forall e :: 0 <= e < pp.n ==> net.inbox[e] == old(net.inbox)[e][|runs|..]
  {
    hide Topological, MultSlots, Reconstruct, GatesDiffer, LearnedBatches;
    if id != 0 { return; }
    ghost var start, before, slots := net.inbox, table.leaf, SlotLists(runs);
    NoneLearned(slots, pp, start, before);
    for b := 0 to |runs|
      invariant net.Valid() && table.Valid() && LearnedBatches(slots, pp, start, before, table.leaf, b)
      invariant forall e :: 0 <= e < pp.n ==> net.inbox[e] == start[e][b..]
    {
      P1LearnsBatch(runs[b], slots, start, before, b, table);
    }
  }

  lemma NoneLearned(slots: seq<seq<Slot>>, pp: Params, start: seq<Vec>, before: map<nat, Elem>)
    requires pp.Valid() && |start| == pp.n && (forall e :: 0 <= e < pp.n ==> |slots| <= |start[e]|)
    requires forall b :: 0 <= b < |slots| ==> |slots[b]| == pp.k
    ensures LearnedBatches(slots, pp, start, before, before, 0)
  {
  }

  /** What party e sends for batch b of layer l is at its place in its queue to P1. */
  ghost predicate ShareFrom(pp: Params, c: Circuit, r: Randomness, learned: map<nat, Elem>, l: nat, start: seq<Vec>, b: nat, e: nat)
    requires Setup(pp, c, r) && l < |c.mults| && b < BatchCount(|c.mults[l]|, pp.k) && LayerAvailable(c, pp.k, learned, l)
    requires |start| == pp.n && e < pp.n && b < |start[e]|
  {
    start[e][b] == OnlineShares(pp, PrepFor(pp, c, r, l, b), Mus(c, learned, Lefts(c, MultBatch(c, pp.k, l, b))),
                                Mus(c, learned, Rights(c, MultBatch(c, pp.k, l, b))))[e]
  }

  /** What P1 opens for a batch when everybody sent its online share. */
  lemma BatchOpens(pp: Params, c: Circuit, r: Randomness, learned: map<nat, Elem>, l: nat, start: seq<Vec>, b: nat)
    requires Setup(pp, c, r) && pp.Valid() && l < |c.mults| && b < BatchCount(|c.mults[l]|, pp.k) && LayerAvailable(c, pp.k, learned, l)
    requires |start| == pp.n && forall e :: 0 <= e < pp.n ==> b < |start[e]| && ShareFrom(pp, c, r, learned, l, start, b, e)
    ensures Reconstruct(PartyPrep.Heads(start, pp.n, b), pp.k) == BatchMu(pp, c, r, learned, l, b)
  {
    hide InputsListed, MultsListed, OutputsListed, Reconstruct, PrepFor, Mus, BatchCount, RandomnessShape;
    var batch := MultBatch(c, pp.k, l, b);
    var sent := OnlineShares(pp, PrepFor(pp, c, r, l, b), Mus(c, learned, Lefts(c, batch)), Mus(c, learned, Rights(c, batch)));
    forall e | 0 <= e < pp.n ensures PartyPrep.Heads(start, pp.n, b)[e] == sent[e] { assert ShareFrom(pp, c, r, learned, l, start, b, e); }
    assert PartyPrep.Heads(start, pp.n, b) == sent;
  }

  lemma LearnedGate(pp: Params, c: Circuit, r: Randomness, learned: map<nat, Elem>, l: nat, start: seq<Vec>, leaf: map<nat, Elem>, p: nat)
    requires Setup(pp, c, r) && pp.Valid() && l < |c.mults| && p < |c.mults[l]| && LayerAvailable(c, pp.k, learned, l)
    requires LearnedBatches(Batches(c.mults[l], pp.k), pp, start, learned, leaf, BatchCount(|c.mults[l]|, pp.k))
    requires forall b, e :: 0 <= b < BatchCount(|c.mults[l]|, pp.k) && 0 <= e < pp.n ==> ShareFrom(pp, c, r, learned, l, start, b, e)
    ensures c.mults[l][p] in leaf && leaf[c.mults[l][p]] == GateMu(pp, c, r, learned, l, p)
  {
    hide WellFormed, Reconstruct, BatchMu, BatchCount, BatchIndex, SlotIndex, BatchAt, RandomnessShape, ShareFrom;
    GateInBatch(c.mults[l], pp.k, p);
    var b, j := BatchIndex(p, pp.k), SlotIndex(p, pp.k);
    BatchOpens(pp, c, r, learned, l, start, b);
    assert BatchLearned(pp, Batches(c.mults[l], pp.k)[b], start, leaf, b);
  }

  lemma LearnedOnlyLayer(flat: seq<nat>, k: nat, g: nat, b: nat)
    requires k > 0 && b < BatchCount(|flat|, k) && Wire(g) in Batches(flat, k)[b]
    ensures g in flat
  {
    hide BatchCount;
    var j :| 0 <= j < k && SlotAt(flat, k, b, j) == Wire(g);
    MulOrder(0, b, k);
  }

  /** A layer run by the classes is the layer of the protocol: when every party sent its online
      shares, P1's table ends as RunLayer says. */
  lemma LayerIsRun(pp: Params, c: Circuit, r: Randomness, learned: map<nat, Elem>, l: nat, start: seq<Vec>, leaf: map<nat, Elem>)
    requires Setup(pp, c, r) && pp.Valid() && l < |c.mults| && LayerAvailable(c, pp.k, learned, l)
    requires LearnedBatches(Batches(c.mults[l], pp.k), pp, start, learned, leaf, BatchCount(|c.mults[l]|, pp.k))
    requires forall b, e :: 0 <= b < BatchCount(|c.mults[l]|, pp.k) && 0 <= e < pp.n ==> ShareFrom(pp, c, r, learned, l, start, b, e)
    requires forall p :: 0 <= p < |c.mults[l]| ==> c.mults[l][p] !in learned
    ensures RunLayer(pp, c, r, learned, l) == Some(leaf)
  {
    hide WellFormed, BatchCount, BatchLearned, Batches, RandomnessShape, ShareFrom, GateMu, LayerAvailable;
    var after := RunLayer(pp, c, r, learned, l).value;
    forall g | g in LayerIds(c, l) ensures g in leaf && leaf[g] == after[g] {
      LearnedGate(pp, c, r, learned, l, start, leaf, IndexOf(c.mults[l], g));
    }
    forall g | g in leaf ensures g in after {
      if g !in learned {
        var b :| 0 <= b < BatchCount(|c.mults[l]|, pp.k) && Wire(g) in Batches(c.mults[l], pp.k)[b];
        LearnedOnlyLayer(c.mults[l], pp.k, g, b);
      }
    }
    assert leaf == after;
  }

  // ---- Outputs ----

  ghost predicate OutputsKnown(c: Circuit, leaf: map<nat, Elem>, o: nat)
    requires WellFormed(c) && o < |c.outputs|
  {
    forall p :: 0 <= p < |c.outputs[o]| ==> Known(c, leaf.Keys, c.outputs[o][p])
  }

  /** P1's messages for the outputs of owner o. */
  ghost function OutputMus(c: Circuit, leaf: map<nat, Elem>, o: nat): (v: Vec)
    requires WellFormed(c) && o < |c.outputs| && OutputsKnown(c, leaf, o)
    ensures |v| == |c.outputs[o]|
  {
    seq(|c.outputs[o]|, p requires 0 <= p < |c.outputs[o]| => Spread(c, leaf, c.outputs[o][p]))
  }

  method OwnerOutputs(net: Net, id: nat, o: nat, table: WireValues) returns (ok: bool)
    requires net.Valid() && table.Valid() && WellFormed(table.c) && o < |table.c.outputs| <= net.n
    modifies net`outbox, table`memo
    ensures net.Valid() && table.Valid() && table.leaf == old(table.leaf)
    ensures ok <==> id != 0 || OutputsKnown(table.c, table.leaf, o)
    ensures id != 0 ==> net.outbox == old(net.outbox)
    ensures id == 0 && ok ==> net.outbox[o] == old(net.outbox)[o] + OutputMus(table.c, table.leaf, o)
    ensures id == 0 && ok ==> forall q :: 0 <= q < net.n && q != o ==> net.outbox[q] == old(net.outbox)[q]
  {
    hide Topological, InputsListed, MultsListed, Known, Spread;
    var c := table.c;
    for p := 0 to |c.outputs[o]|
      invariant net.Valid() && table.Valid() && table.leaf == old(table.leaf)
      invariant id != 0 ==> net.outbox == old(net.outbox)
      invariant id == 0 ==> forall d :: 0 <= d < p ==> Known(c, table.leaf.Keys, c.outputs[o][d])
      invariant id == 0 ==> |net.outbox[o]| == |old(net.outbox)[o]| + p && old(net.outbox)[o] <= net.outbox[o]
      invariant id == 0 ==> forall d :: 0 <= d < p ==> net.outbox[o][|old(net.outbox)[o]| + d] == Spread(c, table.leaf, c.outputs[o][d])
      invariant id == 0 ==> forall q :: 0 <= q < net.n && q != o ==> net.outbox[q] == old(net.outbox)[q]
    {
      var sent := PartyOnline.P1SendsMu(net, id, o, c.outputs[o][p], table);
      if !sent { return false; }
    }
    if id == 0 { assert net.outbox[o] == old(net.outbox)[o] + OutputMus(c, table.leaf, o); }
    return true;
  }

  /** Circuit::OutputP1SendsMu: throws exactly when some output is not available at P1. */
  method OutputP1SendsMu(net: Net, id: nat, table: WireValues) returns (ok: bool)
    requires net.Valid() && table.Valid() && WellFormed(table.c) && |table.c.outputs| <= net.n
    modifies net`outbox, table`memo
    ensures net.Valid() && table.Valid() && table.leaf == old(table.leaf)
    ensures ok <==> id != 0 || forall o :: 0 <= o < |table.c.outputs| ==> OutputsKnown(table.c, table.leaf, o)
    ensures id != 0 ==> net.outbox == old(net.outbox)
    ensures id == 0 && ok ==> forall o :: 0 <= o < |table.c.outputs| ==>
              net.outbox[o] == old(net.outbox)[o] + OutputMus(table.c, table.leaf, o)
    ensures id == 0 && ok ==> forall o :: |table.c.outputs| <= o < net.n ==> net.outbox[o] == old(net.outbox)[o]
  {
    hide WellFormed, OutputMus, OutputsKnown;
    var c := table.c;
    for o := 0 to |c.outputs|
      invariant net.Valid() && table.Valid() && table.leaf == old(table.leaf)
      invariant id != 0 ==> net.outbox == old(net.outbox)
      invariant id == 0 ==> forall q :: 0 <= q < o ==> OutputsKnown(c, table.leaf, q)
      invariant id == 0 ==> forall q :: 0 <= q < o ==> net.outbox[q] == old(net.outbox)[q] + OutputMus(c, table.leaf, q)
      invariant id == 0 ==> forall q :: o <= q < net.n ==> net.outbox[q] == old(net.outbox)[q]
    {
      var sent := OwnerOutputs(net, id, o, table);
      if !sent { return false; }
    }
    return true;
  }

  /** Circuit::OutputOwnerReceivesMu, and GetOutputs: the values of the party's own outputs. */
  method OutputOwnerReceivesMu(net: Net, c: Circuit, id: nat, lambdas: map<nat, Elem>) returns (outputs: Vec)
    requires net.Valid() && net.n > 0 && (id < |c.outputs| ==> |net.inbox[0]| >= |c.outputs[id]|)
    modifies net`inbox
    ensures |outputs| == (if id < |c.outputs| then |c.outputs[id]| else 0) <= |old(net.inbox)[0]|
    ensures net.Valid() && net.inbox == old(net.inbox)[0 := old(net.inbox)[0][|outputs|..]]
    ensures forall p :: 0 <= p < |outputs| ==> outputs[p] == Add(FieldOf(lambdas, c.outputs[id][p]), old(net.inbox)[0][p])
  {
    hide Add, FieldOf;
    outputs := [];
    ghost var start := net.inbox;
    for o := 0 to |c.outputs|
      invariant net.Valid() && |outputs| == if id < o then |c.outputs[id]| else 0
      invariant net.inbox == start[0 := start[0][|outputs|..]]
      invariant forall d :: 0 <= d < |outputs| ==> outputs[d] == Add(FieldOf(lambdas, c.outputs[id][d]), start[0][d])
    {
      for p := 0 to |c.outputs[o]|
        invariant net.Valid() && |outputs| == if id < o then |c.outputs[id]| else if id == o then p else 0
        invariant net.inbox == start[0 := start[0][|outputs|..]]
        invariant forall d :: 0 <= d < |outputs| ==> outputs[d] == Add(FieldOf(lambdas, c.outputs[id][d]), start[0][d])
      {
        var v := PartyOnline.OwnerReceivesMu(net, id, o, FieldOf(lambdas, c.outputs[o][p]), 0);
        if id == o { outputs := outputs + [v]; }
      }
    }
  }
}
