/** One party's function-dependent preprocessing of a whole circuit: the loops of
    circuits/offline.cc over layers, owners and batches around the steps of correlator.cc. */
module PartyOffline {
  import opened Field
  import opened Packed
  import opened Combine
  import opened FIPrep
  import opened Triples
  import opened Batch
  import opened Circuits
  import opened TurboPack
  import opened Network
  import opened PartyPrep

  // ---- Multiplication batches: to P1 ----

  /** What a party sends P1 for batch b of layer l. */
  ghost function LeftMsg(p: PartyPrep, l: nat, b: nat): Elem
    requires p.Ready() && l < |p.c.mults| && b < BatchCount(|p.c.mults[l]|, p.pp.k)
  {
    var batch, prep := MultBatch(p.c, p.pp.k, l, b), p.multPrep[MultIndex(p.c, p.pp.k, l, b)];
    MaskedFactor(p.sharesOfEi, SlotShares(p.c, p.indShrs, Lefts(p.c, batch)), prep.a, prep.o1)
  }

  ghost function RightMsg(p: PartyPrep, l: nat, b: nat): Elem
    requires p.Ready() && l < |p.c.mults| && b < BatchCount(|p.c.mults[l]|, p.pp.k)
  {
    var batch, prep := MultBatch(p.c, p.pp.k, l, b), p.multPrep[MultIndex(p.c, p.pp.k, l, b)];
    MaskedFactor(p.sharesOfEi, SlotShares(p.c, p.indShrs, Rights(p.c, batch)), prep.b, prep.o2)
  }

  /** The two messages of the batch are at the places its number gives them. */
  ghost predicate PairSent(p: PartyPrep, start: Vec, queue: Vec, l: nat, b: nat)
    requires p.Ready() && l < |p.c.mults| && b < BatchCount(|p.c.mults[l]|, p.pp.k)
  {
    var x := |start| + 2 * MultIndex(p.c, p.pp.k, l, b);
    x + 1 < |queue| && queue[x] == LeftMsg(p, l, b) && queue[x + 1] == RightMsg(p, l, b)
  }

  /** The messages of all batches before batch b of layer l, and no others, have been sent. */
  ghost predicate PairsSent(p: PartyPrep, start: Vec, queue: Vec, l: nat, b: nat)
    requires p.Ready() && l <= |p.c.mults| && (l < |p.c.mults| ==> b <= BatchCount(|p.c.mults[l]|, p.pp.k))
  {
    && start <= queue && |queue| == |start| + 2 * (BatchTotal(p.c.mults, p.pp.k, l) + b)
    && (forall q, d :: 0 <= q < l && 0 <= d < BatchCount(|p.c.mults[q]|, p.pp.k) ==> PairSent(p, start, queue, q, d))
    && (l < |p.c.mults| ==> forall d :: 0 <= d < b ==> PairSent(p, start, queue, l, d))
  }

  lemma PairAdded(p: PartyPrep, start: Vec, queue: Vec, l: nat, b: nat)
    requires p.Ready() && l < |p.c.mults| && b < BatchCount(|p.c.mults[l]|, p.pp.k) && PairsSent(p, start, queue, l, b)
    ensures PairsSent(p, start, queue + [LeftMsg(p, l, b), RightMsg(p, l, b)], l, b + 1)
  {
    hide WellFormed, BatchCount, LeftMsg, RightMsg, BatchTotal, EiShares;
    var now := queue + [LeftMsg(p, l, b), RightMsg(p, l, b)];
    forall q, d | 0 <= q < l && 0 <= d < BatchCount(|p.c.mults[q]|, p.pp.k) ensures PairSent(p, start, now, q, d) {
      assert PairSent(p, start, queue, q, d);
    }
    forall d | 0 <= d < b ensures PairSent(p, start, now, l, d) { assert PairSent(p, start, queue, l, d); }
  }

  lemma PairsLayer(p: PartyPrep, start: Vec, queue: Vec, l: nat)
    requires p.Ready() && l < |p.c.mults| && PairsSent(p, start, queue, l, BatchCount(|p.c.mults[l]|, p.pp.k))
    ensures PairsSent(p, start, queue, l + 1, 0)
  {
    hide WellFormed, BatchCount, PairSent, BatchTotal, EiShares;
    TotalStep(p.c.mults, p.pp.k, l + 1);
  }

  lemma PairsStart(p: PartyPrep, start: Vec)
    requires p.Ready()
    ensures PairsSent(p, start, start, 0, 0)
  {
  }

  /** Circuit::PrepMultPartiesSendP1. */
  method PrepMultPartiesSendP1(p: PartyPrep)
    requires p.Ready() && p.AllMapped() && p.net.Valid() && BatchesMapped(p.mapMultBatch, p.multPrep, p.c.mults, p.pp.k, 0)
    modifies p.net`outbox
    ensures p.net.Valid() && PairsSent(p, old(p.net.outbox)[0], p.net.outbox[0], |p.c.mults|, 0)
    ensures forall j :: 0 < j < p.pp.n ==> p.net.outbox[j] == old(p.net.outbox)[j]
  {
    hide WellFormed, BatchCount, BatchTotal, EiShares, PairsSent, BatchesMapped, IndOrder, Flatten;
    ghost var start := p.net.outbox[0];
    PairsStart(p, start);
    for l := 0 to |p.c.mults|
      invariant p.net.Valid() && PairsSent(p, start, p.net.outbox[0], l, 0)
      invariant forall j :: 0 < j < p.pp.n ==> p.net.outbox[j] == old(p.net.outbox)[j]
    {
      for b := 0 to BatchCount(|p.c.mults[l]|, p.pp.k)
        invariant p.net.Valid() && PairsSent(p, start, p.net.outbox[0], l, b)
        invariant forall j :: 0 < j < p.pp.n ==> p.net.outbox[j] == old(p.net.outbox)[j]
      {
        PairAdded(p, start, p.net.outbox[0], l, b);
        p.PrepMultPartiesSendP1(l, b);
      }
      PairsLayer(p, start, p.net.outbox[0], l);
    }
  }

  // ---- Multiplication batches: P1 ----

  /** P1's answer number x to party j. */
  ghost predicate Answered(pp: Params, recvd: seq<Vec>, start: Vec, now: Vec, j: nat, x: nat)
    requires pp.Valid() && |recvd| == pp.n && j < pp.n && forall e :: 0 <= e < pp.n ==> 2 * x + 1 < |recvd[e]|
  {
    && |start| + 2 * x + 1 < |now|
    && now[|start| + 2 * x] == Reshare(pp, Reconstruct(Heads(recvd, pp.n, 2 * x), pp.k))[j]
    && now[|start| + 2 * x + 1] == Reshare(pp, Reconstruct(Heads(recvd, pp.n, 2 * x + 1), pp.k))[j]
  }

  /** P1 has answered the first m pairs. */
  ghost predicate AnsweredAll(pp: Params, recvd: seq<Vec>, inbox: seq<Vec>, start: seq<Vec>, now: seq<Vec>, m: nat) {
    && pp.Valid() && |recvd| == |inbox| == |start| == |now| == pp.n
    && (forall e :: 0 <= e < pp.n ==> 2 * m <= |recvd[e]| && inbox[e] == recvd[e][2 * m..])
    && (forall j :: 0 <= j < pp.n ==> start[j] <= now[j] && |now[j]| == |start[j]| + 2 * m)
    && forall j, x :: 0 <= j < pp.n && 0 <= x < m ==> Answered(pp, recvd, start[j], now[j], j, x)
  }

  lemma AnswerAdded(pp: Params, recvd: seq<Vec>, inbox: seq<Vec>, start: seq<Vec>, now: seq<Vec>, m: nat, after: seq<Vec>)
    requires AnsweredAll(pp, recvd, inbox, start, now, m) && |after| == pp.n
    requires forall e :: 0 <= e < pp.n ==> |inbox[e]| >= 2
    requires forall j :: 0 <= j < pp.n ==>
               after[j] == now[j] + [Reshare(pp, Reconstruct(Heads(inbox, pp.n, 0), pp.k))[j], Reshare(pp, Reconstruct(Heads(inbox, pp.n, 1), pp.k))[j]]
    ensures AnsweredAll(pp, recvd, seq(pp.n, e requires 0 <= e < pp.n => inbox[e][2..]), start, after, m + 1)
  {
    hide Reshare, Reconstruct;
    assert Heads(inbox, pp.n, 0) == Heads(recvd, pp.n, 2 * m);
    assert Heads(inbox, pp.n, 1) == Heads(recvd, pp.n, 2 * m + 1);
    forall j, x | 0 <= j < pp.n && 0 <= x < m + 1 ensures Answered(pp, recvd, start[j], after[j], j, x) {
      if x < m { assert Answered(pp, recvd, start[j], now[j], j, x); }
    }
  }

  /** One round, for P1. */
  method AnswerOne(p: PartyPrep, ghost recvd: seq<Vec>, ghost start: seq<Vec>, ghost m: nat, ghost total: nat)
    requires p.Ready() && p.net.Valid() && p.id == 0 && m < total
    requires |recvd| == p.pp.n && forall e :: 0 <= e < p.pp.n ==> |recvd[e]| >= 2 * total
    requires AnsweredAll(p.pp, recvd, p.net.inbox, start, p.net.outbox, m)
    modifies p.net`inbox, p.net`outbox
    ensures p.net.Valid() && AnsweredAll(p.pp, recvd, p.net.inbox, start, p.net.outbox, m + 1)
  {
    hide WellFormed, EiShares, Reshare, Reconstruct, IndOrder, Answered;
    ghost var inbox, now := p.net.inbox, p.net.outbox;
    p.PrepMultP1ReceivesAndSends();
    AnswerAdded(p.pp, recvd, inbox, start, now, m, p.net.outbox);
    assert p.net.inbox == seq(p.pp.n, e requires 0 <= e < p.pp.n => inbox[e][2..]);
  }

  /** Circuit::PrepMultP1ReceivesAndSends: as many rounds as there are batches. */
  method PrepMultP1ReceivesAndSends(p: PartyPrep)
    requires p.Ready() && p.net.Valid()
    requires p.id == 0 ==> forall e :: 0 <= e < p.pp.n ==> |p.net.inbox[e]| >= 2 * CircuitSizes(p.c, p.pp.k).mults
    modifies p.net`inbox, p.net`outbox
    ensures p.net.Valid()
    ensures p.id == 0 ==> AnsweredAll(p.pp, old(p.net.inbox), p.net.inbox, old(p.net.outbox), p.net.outbox, CircuitSizes(p.c, p.pp.k).mults)
    ensures p.id != 0 ==> p.net.inbox == old(p.net.inbox) && p.net.outbox == old(p.net.outbox)
  {
    hide WellFormed, EiShares, BatchCount, BatchTotal, IndOrder, Answered;
    ghost var recvd, start, total := p.net.inbox, p.net.outbox, CircuitSizes(p.c, p.pp.k).mults;
    TotalStep(p.c.mults, p.pp.k, 0);
    for l := 0 to |p.c.mults|
      invariant p.net.Valid()
      invariant p.id == 0 ==> AnsweredAll(p.pp, recvd, p.net.inbox, start, p.net.outbox, BatchTotal(p.c.mults, p.pp.k, l))
      invariant p.id != 0 ==> p.net.inbox == recvd && p.net.outbox == start
    {
      BatchTotalMonotone(p.c.mults, p.pp.k, l, |p.c.mults|);
      for b := 0 to BatchCount(|p.c.mults[l]|, p.pp.k)
        invariant p.net.Valid()
        invariant p.id == 0 ==> AnsweredAll(p.pp, recvd, p.net.inbox, start, p.net.outbox, BatchTotal(p.c.mults, p.pp.k, l) + b)
        invariant p.id != 0 ==> p.net.inbox == recvd && p.net.outbox == start
      {
        if p.id == 0 {
          AnswerOne(p, recvd, start, BatchTotal(p.c.mults, p.pp.k, l) + b, total);
        } else {
          p.PrepMultP1ReceivesAndSends();
        }
      }
      TotalStep(p.c.mults, p.pp.k, l + 1);
    }
  }

  // ---- Multiplication batches: back from P1 ----

  /** What is set on batch b of layer l when P1's queue was `queue`. */
  ghost function Finished(p: PartyPrep, queue: Vec, l: nat, b: nat): BatchPrep
    requires p.Ready() && l < |p.c.mults| && b < BatchCount(|p.c.mults[l]|, p.pp.k)
    requires 2 * MultIndex(p.c, p.pp.k, l, b) + 1 < |queue|
  {
    var x := MultIndex(p.c, p.pp.k, l, b);
    FinishPrep(p.sharesOfEi, SlotShares(p.c, p.indShrs, MultBatch(p.c, p.pp.k, l, b)), p.multPrep[x], queue[2 * x], queue[2 * x + 1])
  }

  ghost predicate RowFinished(p: PartyPrep, queue: Vec, l: nat, row: seq<BatchPrep>)
    requires p.Ready() && l < |p.c.mults| && |queue| >= 2 * CircuitSizes(p.c, p.pp.k).mults
  {
    |row| <= BatchCount(|p.c.mults[l]|, p.pp.k) && forall b :: 0 <= b < |row| ==> row[b] == Finished(p, queue, l, b)
  }

  /** One layer. */
  method ReceiveLayer(p: PartyPrep, l: nat, ghost queue: Vec) returns (row: seq<BatchPrep>)
    requires p.Ready() && p.AllMapped() && p.net.Valid() && BatchesMapped(p.mapMultBatch, p.multPrep, p.c.mults, p.pp.k, 0)
    requires l < |p.c.mults| && |queue| >= 2 * CircuitSizes(p.c, p.pp.k).mults
    requires 2 * BatchTotal(p.c.mults, p.pp.k, l) <= |queue| && p.net.inbox[0] == queue[2 * BatchTotal(p.c.mults, p.pp.k, l)..]
    modifies p.net`inbox
    ensures p.net.Valid() && |row| == BatchCount(|p.c.mults[l]|, p.pp.k) && RowFinished(p, queue, l, row)
    ensures 2 * BatchTotal(p.c.mults, p.pp.k, l + 1) <= |queue| && p.net.inbox[0] == queue[2 * BatchTotal(p.c.mults, p.pp.k, l + 1)..]
    ensures forall e :: 0 < e < p.pp.n ==> p.net.inbox[e] == old(p.net.inbox)[e]
  {
    hide WellFormed, EiShares, BatchCount, BatchTotal, IndOrder, BatchesMapped, SlotShares, FinishPrep;
    row := [];
    BatchTotalMonotone(p.c.mults, p.pp.k, l, |p.c.mults|);
    TotalStep(p.c.mults, p.pp.k, l + 1);
    for b := 0 to BatchCount(|p.c.mults[l]|, p.pp.k)
      invariant p.net.Valid() && |row| == b && RowFinished(p, queue, l, row)
      invariant p.net.inbox[0] == queue[2 * (BatchTotal(p.c.mults, p.pp.k, l) + b)..]
      invariant forall e :: 0 < e < p.pp.n ==> p.net.inbox[e] == old(p.net.inbox)[e]
    {
      var r := p.PrepMultPartiesReceive(l, b);
      row := row + [r];
    }
  }

  /** Circuit::PrepMultPartiesReceive: the preprocessing of all batches. */
  method PrepMultPartiesReceive(p: PartyPrep) returns (preps: seq<seq<BatchPrep>>)
    requires p.Ready() && p.AllMapped() && p.net.Valid() && BatchesMapped(p.mapMultBatch, p.multPrep, p.c.mults, p.pp.k, 0)
    requires |p.net.inbox[0]| >= 2 * CircuitSizes(p.c, p.pp.k).mults
    modifies p.net`inbox
    ensures p.net.Valid() && |preps| == |p.c.mults|
    ensures forall l :: 0 <= l < |preps| ==> |preps[l]| == BatchCount(|p.c.mults[l]|, p.pp.k) && RowFinished(p, old(p.net.inbox)[0], l, preps[l])
    ensures p.net.inbox[0] == old(p.net.inbox)[0][2 * CircuitSizes(p.c, p.pp.k).mults..]
    ensures forall e :: 0 < e < p.pp.n ==> p.net.inbox[e] == old(p.net.inbox)[e]
  {
    hide WellFormed, EiShares, BatchCount, BatchTotal, IndOrder, BatchesMapped, RowFinished;
    ghost var queue := p.net.inbox[0];
    preps := [];
    TotalStep(p.c.mults, p.pp.k, 0);
    for l := 0 to |p.c.mults|
      invariant p.net.Valid() && |preps| == l && 2 * BatchTotal(p.c.mults, p.pp.k, l) <= |queue|
      invariant forall q :: 0 <= q < l ==> |preps[q]| == BatchCount(|p.c.mults[q]|, p.pp.k) && RowFinished(p, queue, q, preps[q])
      invariant p.net.inbox[0] == queue[2 * BatchTotal(p.c.mults, p.pp.k, l)..]
      invariant forall e :: 0 < e < p.pp.n ==> p.net.inbox[e] == old(p.net.inbox)[e]
    {
      var row := ReceiveLayer(p, l, queue);
      preps := preps + [row];
    }
  }

  // ---- The phase as a whole ----

  /** The party holds its part of the function-independent preprocessing for this circuit. */
  ghost predicate OwnPrep(p: PartyPrep, r: Randomness) {
    && p.Ready() && Setup(p.pp, p.c, r)
    && p.indShrs == HeldBy(p.pp, CircuitSizes(p.c, p.pp.k), r, p.id).ind
    && forall x :: 0 <= x < |p.multPrep| ==> p.multPrep[x] == PrepBy(p.pp, CircuitSizes(p.c, p.pp.k), r, p.id, x)
  }

  /** The masked vectors of a batch, of which every party sends its entry. */
  function LeftVec(pp: Params, c: Circuit, r: Randomness, l: nat, b: nat): (s: Vec)
    requires Setup(pp, c, r) && l < |c.mults| && b < BatchCount(|c.mults[l]|, pp.k)
    ensures |s| == pp.n
  {
    var v := PrepVec(pp, CircuitSizes(c, pp.k), r, MultIndex(c, pp.k, l, b));
    MaskedVec(pp.k, SlotVecs(pp, c, r, Lefts(c, MultBatch(c, pp.k, l, b))), pp.n, ShrA(v), ShrO1(v))
  }

  function RightVec(pp: Params, c: Circuit, r: Randomness, l: nat, b: nat): (s: Vec)
    requires Setup(pp, c, r) && l < |c.mults| && b < BatchCount(|c.mults[l]|, pp.k)
    ensures |s| == pp.n
  {
    var v := PrepVec(pp, CircuitSizes(c, pp.k), r, MultIndex(c, pp.k, l, b));
    MaskedVec(pp.k, SlotVecs(pp, c, r, Rights(c, MultBatch(c, pp.k, l, b))), pp.n, ShrB(v), ShrO2(v))
  }

  lemma SendsItsEntry(p: PartyPrep, r: Randomness, l: nat, b: nat)
    requires OwnPrep(p, r) && l < |p.c.mults| && b < BatchCount(|p.c.mults[l]|, p.pp.k)
    ensures LeftMsg(p, l, b) == LeftVec(p.pp, p.c, r, l, b)[p.id] && RightMsg(p, l, b) == RightVec(p.pp, p.c, r, l, b)[p.id]
  {
    hide HeldBy, RandomnessShape, IndOrder, WellFormed, SlotShares, SlotVecs, EiShares, MaskedFactor, PrepBy, Lefts, Rights, MaskedVec, BatchCount;
    SetupParams(p.pp, p.c, r);
    SendsItsPart(p.pp, p.c, r, p.id, l, b);
  }

  /** P1's queues start with what the parties send it. */
  ghost predicate QueuesFrom(pp: Params, c: Circuit, r: Randomness, recvd: seq<Vec>)
    requires Setup(pp, c, r) && pp.Valid()
  {
    && |recvd| == pp.n && (forall e :: 0 <= e < pp.n ==> |recvd[e]| >= 2 * CircuitSizes(c, pp.k).mults)
    && forall e, l, b :: 0 <= e < pp.n && 0 <= l < |c.mults| && 0 <= b < BatchCount(|c.mults[l]|, pp.k) ==> PairFrom(pp, c, r, recvd[e], e, l, b)
  }

  ghost predicate PairFrom(pp: Params, c: Circuit, r: Randomness, queue: Vec, e: nat, l: nat, b: nat)
    requires Setup(pp, c, r) && e < pp.n && l < |c.mults| && b < BatchCount(|c.mults[l]|, pp.k)
  {
    var x := 2 * MultIndex(c, pp.k, l, b);
    x + 1 < |queue| && queue[x] == LeftVec(pp, c, r, l, b)[e] && queue[x + 1] == RightVec(pp, c, r, l, b)[e]
  }

  /** What a party sends in PrepMultPartiesSendP1 is what QueuesFrom asks of its queue to P1. */
  lemma SentIsFrom(p: PartyPrep, r: Randomness, queue: Vec, l: nat, b: nat)
    requires OwnPrep(p, r) && l < |p.c.mults| && b < BatchCount(|p.c.mults[l]|, p.pp.k) && PairsSent(p, [], queue, |p.c.mults|, 0)
    ensures PairFrom(p.pp, p.c, r, queue, p.id, l, b)
  {
    hide WellFormed, BatchCount, LeftMsg, RightMsg, LeftVec, RightVec, EiShares, HeldBy, PrepBy, RandomnessShape, IndOrder;
    SendsItsEntry(p, r, l, b);
    assert PairSent(p, [], queue, l, b);
  }

  /** The whole phase: from the parties' messages to P1, and P1's answers to them, every party ends
      with its part of the preprocessing of every batch. */
  lemma PhaseGivesPrep(p: PartyPrep, r: Randomness, recvd: seq<Vec>, rest: seq<Vec>, start: seq<Vec>, now: seq<Vec>, l: nat, b: nat)
    requires OwnPrep(p, r) && p.pp.Valid() && QueuesFrom(p.pp, p.c, r, recvd)
    requires AnsweredAll(p.pp, recvd, rest, start, now, CircuitSizes(p.c, p.pp.k).mults) && start[p.id] == []
    requires l < |p.c.mults| && b < BatchCount(|p.c.mults[l]|, p.pp.k)
    ensures 2 * MultIndex(p.c, p.pp.k, l, b) + 1 < |now[p.id]|
    ensures Finished(p, now[p.id], l, b) == PrepFor(p.pp, p.c, r, l, b)[p.id]
  {
    hide HeldBy, RandomnessShape, IndOrder, WellFormed, SlotShares, SlotVecs, EiShares, MaskedFactor, PrepBy, Lefts, Rights, FinishPrep, Reshare, Reconstruct,
      MaskedVec, BatchCount;
    var x := MultIndex(p.c, p.pp.k, l, b);
    SetupParams(p.pp, p.c, r);
    forall e | 0 <= e < p.pp.n
      ensures recvd[e][2 * x] == LeftVec(p.pp, p.c, r, l, b)[e] && recvd[e][2 * x + 1] == RightVec(p.pp, p.c, r, l, b)[e]
    {
      assert PairFrom(p.pp, p.c, r, recvd[e], e, l, b);
    }
    assert Heads(recvd, p.pp.n, 2 * x) == LeftVec(p.pp, p.c, r, l, b);
    assert Heads(recvd, p.pp.n, 2 * x + 1) == RightVec(p.pp, p.c, r, l, b);
    assert Answered(p.pp, recvd, start[p.id], now[p.id], p.id, x);
    FinishesItsPart(p.pp, p.c, r, p.id, l, b);
  }

  // ---- Input and output batches ----

  /** A party's messages to owner o for the batches of one list, whose entries start at `first`. */
  ghost function OwnerMsgs(p: PartyPrep, lists: seq<seq<nat>>, first: nat, o: nat): (v: Vec)
    requires p.Ready() && GatesIn(p.c, lists) && first + BatchTotal(lists, p.pp.k, |lists|) <= |p.ioPrep|
    ensures |v| == if o < |lists| then BatchCount(|lists[o]|, p.pp.k) else 0
  {
    if o < |lists| then
      seq(BatchCount(|lists[o]|, p.pp.k), b requires 0 <= b < BatchCount(|lists[o]|, p.pp.k) => OwnerMsg(p, lists, first, o, b))
    else []
  }

  ghost function OwnerMsg(p: PartyPrep, lists: seq<seq<nat>>, first: nat, o: nat, b: nat): Elem
    requires p.Ready() && GatesIn(p.c, lists) && first + BatchTotal(lists, p.pp.k, |lists|) <= |p.ioPrep|
    requires o < |lists| && b < BatchCount(|lists[o]|, p.pp.k)
  {
    BatchTotalMonotone(lists, p.pp.k, o, |lists|);
    MaskedWires(p.sharesOfEi, SlotShares(p.c, p.indShrs, BatchAt(lists[o], p.pp.k, b)), p.ioPrep[first + BatchTotal(lists, p.pp.k, o) + b])
  }

  predicate GatesIn(c: Circuit, lists: seq<seq<nat>>) {
    forall o, q :: 0 <= o < |lists| && 0 <= q < |lists[o]| ==> lists[o][q] < |c.gates|
  }

  lemma BatchGates(c: Circuit, lists: seq<seq<nat>>, k: nat, o: nat, b: nat)
    requires GatesIn(c, lists) && o < |lists|
    ensures SlotsOk(c, BatchAt(lists[o], k, b))
  {
  }

  /** The batches of one owner. */
  method SendOwner(p: PartyPrep, lists: seq<seq<nat>>, m: map<(nat, nat), Elem>, ghost first: nat, o: nat)
    requires p.Ready() && p.AllMapped() && p.net.Valid() && GatesIn(p.c, lists) && o < |lists| <= p.pp.n
    requires first + BatchTotal(lists, p.pp.k, |lists|) <= |p.ioPrep| && BatchesMapped(m, p.ioPrep, lists, p.pp.k, first)
    modifies p.net`outbox
    ensures p.net.Valid() && p.net.outbox[o] == old(p.net.outbox)[o] + OwnerMsgs(p, lists, first, o)
    ensures forall q :: 0 <= q < p.pp.n && q != o ==> p.net.outbox[q] == old(p.net.outbox)[q]
  {
    hide WellFormed, EiShares, BatchCount, BatchTotal, BatchAt, IndOrder, SlotShares, GatesIn, SlotsOk, MaskedWires;
    for b := 0 to BatchCount(|lists[o]|, p.pp.k)
      invariant p.net.Valid() && p.net.outbox[o] == old(p.net.outbox)[o] + OwnerMsgs(p, lists, first, o)[..b]
      invariant forall q :: 0 <= q < p.pp.n && q != o ==> p.net.outbox[q] == old(p.net.outbox)[q]
    {
      assert HasEntry(m, p.ioPrep, lists, p.pp.k, first, o, b);
      BatchGates(p.c, lists, p.pp.k, o, b);
      p.PrepPartiesSendOwner(BatchAt(lists[o], p.pp.k, b), o, m[(o, b)]);
      assert OwnerMsgs(p, lists, first, o)[b] == OwnerMsg(p, lists, first, o, b);
    }
    assert OwnerMsgs(p, lists, first, o)[..BatchCount(|lists[o]|, p.pp.k)] == OwnerMsgs(p, lists, first, o);
  }

  /** The batches of all owners, in order; the map holds the batches' zero shares. */
  method SendOwners(p: PartyPrep, lists: seq<seq<nat>>, m: map<(nat, nat), Elem>, ghost first: nat)
    requires p.Ready() && p.AllMapped() && p.net.Valid() && GatesIn(p.c, lists) && |lists| <= p.pp.n
    requires first + BatchTotal(lists, p.pp.k, |lists|) <= |p.ioPrep| && BatchesMapped(m, p.ioPrep, lists, p.pp.k, first)
    modifies p.net`outbox
    ensures p.net.Valid() && forall o :: 0 <= o < p.pp.n ==> p.net.outbox[o] == old(p.net.outbox)[o] + OwnerMsgs(p, lists, first, o)
  {
    hide WellFormed, EiShares, BatchCount, BatchTotal, IndOrder, GatesIn, BatchesMapped, OwnerMsgs;
    for o := 0 to |lists|
      invariant p.net.Valid()
      invariant forall q :: 0 <= q < p.pp.n ==> p.net.outbox[q] == old(p.net.outbox)[q] + (if q < o then OwnerMsgs(p, lists, first, q) else [])
    {
      SendOwner(p, lists, m, first, o);
    }
  }

  lemma ListsHoldGates(c: Circuit)
    requires WellFormed(c)
    ensures GatesIn(c, c.inputs) && GatesIn(c, c.outputs)
  {
  }

  /** Circuit::PrepIOPartiesSendOwner: every owner is sent its input batches and then its output
      batches. */
  method PrepIOPartiesSendOwner(p: PartyPrep)
    requires p.Ready() && p.AllMapped() && p.net.Valid() && |p.c.inputs| <= p.pp.n && |p.c.outputs| <= p.pp.n
    requires BatchesMapped(p.mapInputBatch, p.ioPrep, p.c.inputs, p.pp.k, 0)
    requires BatchesMapped(p.mapOutputBatch, p.ioPrep, p.c.outputs, p.pp.k, BatchTotal(p.c.inputs, p.pp.k, |p.c.inputs|))
    modifies p.net`outbox
    ensures p.net.Valid()
    ensures GatesIn(p.c, p.c.inputs) && GatesIn(p.c, p.c.outputs)
    ensures var ins := BatchTotal(p.c.inputs, p.pp.k, |p.c.inputs|);
            forall o :: 0 <= o < p.pp.n ==>
              p.net.outbox[o] == old(p.net.outbox)[o] + (OwnerMsgs(p, p.c.inputs, 0, o) + OwnerMsgs(p, p.c.outputs, ins, o))
  {
    hide WellFormed, EiShares, BatchCount, BatchTotal, IndOrder, OwnerMsgs, GatesIn, BatchesMapped;
    ListsHoldGates(p.c);
    SendOwners(p, p.c.inputs, p.mapInputBatch, 0);
    SendOwners(p, p.c.outputs, p.mapOutputBatch, BatchTotal(p.c.inputs, p.pp.k, |p.c.inputs|));
  }

  /** The lambdas of the party's own batches of one list; the batches of others are passed over. */
  method ReceiveOwn(p: PartyPrep, lists: seq<seq<nat>>) returns (lambdas: seq<Vec>)
    requires p.Ready() && p.net.Valid()
    requires p.id < |lists| ==> forall e :: 0 <= e < p.pp.n ==> |p.net.inbox[e]| >= BatchCount(|lists[p.id]|, p.pp.k)
    modifies p.net`inbox
    ensures p.net.Valid() && |lambdas| == if p.id < |lists| then BatchCount(|lists[p.id]|, p.pp.k) else 0
    ensures forall b :: 0 <= b < |lambdas| ==> lambdas[b] == Reconstruct(Heads(old(p.net.inbox), p.pp.n, b), p.pp.k)
    ensures forall e :: 0 <= e < p.pp.n ==> |lambdas| <= |old(p.net.inbox)[e]| && p.net.inbox[e] == old(p.net.inbox)[e][|lambdas|..]
  {
    hide WellFormed, EiShares, BatchCount, BatchTotal, IndOrder, Reconstruct;
    ghost var start := p.net.inbox;
    lambdas := [];
    for o := 0 to |lists|
      invariant p.net.Valid() && |lambdas| == if p.id < o then BatchCount(|lists[p.id]|, p.pp.k) else 0
      invariant OwnOpened(p.pp, start, p.net.inbox, lambdas)
    {
      for b := 0 to BatchCount(|lists[o]|, p.pp.k)
        invariant p.net.Valid()
        invariant |lambdas| == if p.id < o then BatchCount(|lists[p.id]|, p.pp.k) else if p.id == o then b else 0
        invariant OwnOpened(p.pp, start, p.net.inbox, lambdas)
      {
        ghost var before := p.net.inbox;
        if p.id == o { assert forall e :: 0 <= e < p.pp.n ==> before[e] == start[e][b..]; }
        var mine := p.PrepOwnerReceives(o);
        if p.id == o {
          assert Heads(before, p.pp.n, 0) == Heads(start, p.pp.n, b);
          lambdas := lambdas + [mine];
        }
      }
    }
  }

  /** As many messages have been opened from every queue as there are vectors. */
  ghost predicate OwnOpened(pp: Params, start: seq<Vec>, now: seq<Vec>, lambdas: seq<Vec>) {
    && pp.Valid() && |start| == |now| == pp.n
    && (forall e :: 0 <= e < pp.n ==> |lambdas| <= |start[e]| && now[e] == start[e][|lambdas|..])
    && forall b :: 0 <= b < |lambdas| ==> lambdas[b] == Reconstruct(Heads(start, pp.n, b), pp.k)
  }

  /** How many batches of the lists are the party's own. */
  function OwnCount(lists: seq<seq<nat>>, k: nat, id: nat): nat
    requires k > 0
  {
    if id < |lists| then BatchCount(|lists[id]|, k) else 0
  }

  /** Circuit::PrepIOOwnerReceives. */
  method PrepIOOwnerReceives(p: PartyPrep) returns (ins: seq<Vec>, outs: seq<Vec>)
    requires p.Ready() && p.net.Valid()
    requires forall e :: 0 <= e < p.pp.n ==>
               |p.net.inbox[e]| >= OwnCount(p.c.inputs, p.pp.k, p.id) + OwnCount(p.c.outputs, p.pp.k, p.id)
    modifies p.net`inbox
    ensures p.net.Valid() && |ins| == OwnCount(p.c.inputs, p.pp.k, p.id) && |outs| == OwnCount(p.c.outputs, p.pp.k, p.id)
    ensures forall e :: 0 <= e < p.pp.n ==> |ins| + |outs| <= |old(p.net.inbox)[e]| && p.net.inbox[e] == old(p.net.inbox)[e][|ins| + |outs|..]
    ensures forall b :: 0 <= b < |ins| ==> ins[b] == Reconstruct(Heads(old(p.net.inbox), p.pp.n, b), p.pp.k)
    ensures forall b :: 0 <= b < |outs| ==> outs[b] == Reconstruct(Heads(old(p.net.inbox), p.pp.n, |ins| + b), p.pp.k)
  {
    hide WellFormed, EiShares, BatchCount, BatchTotal, IndOrder, Reconstruct;
    ghost var start := p.net.inbox;
    ins := ReceiveOwn(p, p.c.inputs);
    ghost var mid := p.net.inbox;
    outs := ReceiveOwn(p, p.c.outputs);
    forall b | 0 <= b < |outs| ensures Heads(mid, p.pp.n, b) == Heads(start, p.pp.n, |ins| + b) { }
  }

  /** When every party sends what SendOwners sends, the owner opens exactly the masks of its batch. */
  lemma OwnerOpensMasks(pp: Params, c: Circuit, r: Randomness, batch: seq<Slot>, x: nat, recvd: Vec)
    requires Setup(pp, c, r) && pp.Valid() && SlotsOk(c, batch) && |batch| == pp.k && x < CircuitSizes(c, pp.k).ios && |recvd| == pp.n
    requires forall id :: 0 <= id < pp.n ==> FromParty(pp, c, r, batch, x, id, recvd[id])
    ensures Reconstruct(recvd, pp.k) == SlotMasks(pp, c, r, batch)
  {
    hide HeldBy, RandomnessShape, IndOrder, WellFormed, SlotShares, SlotVecs, EiShares, Reconstruct, MaskedWires, IOZeros;
    SetupParams(pp, c, r);
    var us, z := SlotVecs(pp, c, r, batch), IOZeroVec(pp, CircuitSizes(c, pp.k), r, x);
    forall id | 0 <= id < pp.n ensures recvd[id] == MaskedWiresVec(pp.k, us, pp.n, z)[id] {
      SlotSharesAreColumn(pp, c, r, id, batch);
      assert FromParty(pp, c, r, batch, x, id, recvd[id]);
    }
    assert recvd == MaskedWiresVec(pp.k, us, pp.n, z);
    MasksOpened(pp, c, r, batch, x);
  }

  ghost predicate FromParty(pp: Params, c: Circuit, r: Randomness, batch: seq<Slot>, x: nat, id: nat, msg: Elem)
    requires Setup(pp, c, r) && SlotsOk(c, batch) && |batch| == pp.k && x < CircuitSizes(c, pp.k).ios && id < pp.n
  {
    SetupParams(pp, c, r);
    var h := HeldBy(pp, CircuitSizes(c, pp.k), r, id);
    && |h.ind| >= |IndOrder(c)| && x < |IOZeros(CircuitSizes(c, pp.k), h.zero)|
    && msg == MaskedWires(EiShares(pp.k, id), SlotShares(c, h.ind, batch), IOZeros(CircuitSizes(c, pp.k), h.zero)[x])
  }
}
