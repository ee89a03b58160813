/** All parties together: one object per party on connected networks, taking the steps of the
    function-dependent preprocessing in turn, with the messages delivered in between. */
module Parties {
  import opened Field
  import opened Packed
  import opened Combine
  import opened FIPrep
  import opened Triples
  import opened Batch
  import opened Circuits
  import opened Mapping
  import opened TurboPack
  import opened Network
  import opened PartyPrep
  import opened PartyOffline

  // ---- The parties ----

  /** Party i holds its part of the function-independent preprocessing for the circuit. */
  ghost predicate IsParty(p: PartyPrep, net: Net, pp: Params, c: Circuit, r: Randomness, i: nat) {
    && OwnPrep(p, r) && p.pp == pp && p.c == c && p.id == i && p.net == net
    && p.ioPrep == IOZeros(CircuitSizes(c, pp.k), HeldBy(pp, CircuitSizes(c, pp.k), r, i).zero)
  }

  ghost predicate Together(ps: seq<PartyPrep>, nets: seq<Net>, pp: Params, c: Circuit, r: Randomness) {
    Setup(pp, c, r) && |ps| == |nets| == pp.n && forall i :: 0 <= i < pp.n ==> IsParty(ps[i], nets[i], pp, c, r, i)
  }

  lemma PartyIs(ps: seq<PartyPrep>, nets: seq<Net>, pp: Params, c: Circuit, r: Randomness)
    requires Together(ps, nets, pp, c, r)
    ensures |ps| == |nets| == pp.n && Setup(pp, c, r) && pp.Valid() && WellFormed(c)
    ensures forall i :: 0 <= i < pp.n ==> ps[i].Ready() && ps[i].pp == pp && ps[i].c == c && ps[i].id == i && ps[i].net == nets[i]
    ensures forall i, j :: 0 <= i < j < pp.n ==> ps[i] != ps[j]
  {
    hide HeldBy, IOZeros, RandomnessShape, WellFormed;
    forall i, j | 0 <= i < j < pp.n ensures ps[i] != ps[j] {
      assert IsParty(ps[i], nets[i], pp, c, r, i) && IsParty(ps[j], nets[j], pp, c, r, j);
    }
  }

  // ---- Mapping ----

  ghost predicate Unmapped(p: PartyPrep)
    reads p
  {
    p.ctrIndShrs == p.ctrMultBatches == p.ctrInOutBatches == 0 && p.mapIndShrs == map[]
  }

  ghost predicate MapDone(p: PartyPrep)
    requires p.Ready()
    reads p
  {
    && p.AllMapped() && BatchesMapped(p.mapMultBatch, p.multPrep, p.c.mults, p.pp.k, 0)
    && BatchesMapped(p.mapInputBatch, p.ioPrep, p.c.inputs, p.pp.k, 0)
    && BatchesMapped(p.mapOutputBatch, p.ioPrep, p.c.outputs, p.pp.k, BatchTotal(p.c.inputs, p.pp.k, |p.c.inputs|))
  }

  method MapAll(ps: seq<PartyPrep>, nets: seq<Net>, ghost pp: Params, ghost c: Circuit, ghost r: Randomness)
    requires Together(ps, nets, pp, c, r) && forall i :: 0 <= i < pp.n ==> Unmapped(ps[i])
    modifies ps
    ensures forall i :: 0 <= i < pp.n ==> ps[i].Ready() && MapDone(ps[i])
  {
    hide Together, BatchesMapped, Populated, WellFormed, BatchTotal, IndOrder, EiShares;
    PartyIs(ps, nets, pp, c, r);
    for i := 0 to |ps|
      invariant forall e :: 0 <= e < i ==> MapDone(ps[e])
      invariant forall e :: i <= e < pp.n ==> Unmapped(ps[e])
    {
      ps[i].MapCorrToCircuit();
    }
  }

  // ---- Multiplication batches ----

  /** All parties have done their mapping and nothing is on its way. */
  ghost predicate Settled(ps: seq<PartyPrep>, nets: seq<Net>, pp: Params, c: Circuit, r: Randomness)
    reads ps, nets
  {
    && Together(ps, nets, pp, c, r) && Connected(nets)
    && (forall i :: 0 <= i < pp.n ==> ps[i].Ready() && MapDone(ps[i]))
    && forall i :: 0 <= i < pp.n ==> Idle(nets[i])
  }

  /** The party's messages for all multiplication batches are on their way, and no others. */
  ghost predicate MultsOut(p: PartyPrep, net: Net)
    requires p.Ready()
    reads net
  {
    && net.Valid() && net.n > 0 && PairsSent(p, [], net.outbox[0], |p.c.mults|, 0)
    && net.inbox == NoMsgs(net.n) && forall j :: 0 < j < net.n ==> net.outbox[j] == []
  }

  method SendMults(ps: seq<PartyPrep>, nets: seq<Net>, ghost pp: Params, ghost c: Circuit, ghost r: Randomness)
    requires Settled(ps, nets, pp, c, r)
    modifies nets
    ensures Connected(nets) && forall i :: 0 <= i < pp.n ==> ps[i].Ready() && MultsOut(ps[i], nets[i])
  {
    hide Together, BatchesMapped, WellFormed, BatchTotal, IndOrder, EiShares, PairsSent;
    PartyIs(ps, nets, pp, c, r);
    for i := 0 to |ps|
      invariant Connected(nets)
      invariant forall e :: 0 <= e < i ==> MultsOut(ps[e], nets[e])
      invariant forall e :: i <= e < pp.n ==> Idle(nets[e])
    {
      PartyOffline.PrepMultPartiesSendP1(ps[i]);
    }
  }

  /** P1 has received what the parties sent, and nobody else has received anything. */
  ghost predicate MultsAtP1(nets: seq<Net>, pp: Params, c: Circuit, r: Randomness)
    requires Setup(pp, c, r)
    reads nets
  {
    && |nets| == pp.n && Connected(nets) && QueuesFrom(pp, c, r, nets[0].inbox) && nets[0].outbox == NoMsgs(pp.n)
    && (forall e :: 0 <= e < pp.n ==> |nets[0].inbox[e]| == 2 * CircuitSizes(c, pp.k).mults)
    && forall j :: 0 < j < pp.n ==> Idle(nets[j])
  }

  lemma OneQueue(p: PartyPrep, net: Net, pp: Params, c: Circuit, r: Randomness, queue: Vec)
    requires Setup(pp, c, r) && p.id < pp.n && IsParty(p, net, pp, c, r, p.id) && PairsSent(p, [], queue, |c.mults|, 0)
    ensures |queue| == 2 * CircuitSizes(c, pp.k).mults
    ensures forall l, b :: 0 <= l < |c.mults| && 0 <= b < BatchCount(|c.mults[l]|, pp.k) ==> PairFrom(pp, c, r, queue, p.id, l, b)
  {
    hide HeldBy, IOZeros, RandomnessShape, WellFormed, BatchTotal, BatchCount, IndOrder, PrepBy, EiShares, PairFrom;
    forall l, b | 0 <= l < |c.mults| && 0 <= b < BatchCount(|c.mults[l]|, pp.k) ensures PairFrom(pp, c, r, queue, p.id, l, b) {
      SentIsFrom(p, r, queue, l, b);
    }
  }

  lemma QueuesArrive(ps: seq<PartyPrep>, nets: seq<Net>, pp: Params, c: Circuit, r: Randomness)
    requires Together(ps, nets, pp, c, r) && Connected(nets)
    requires forall i :: 0 <= i < pp.n ==> ps[i].Ready() && MultsOut(ps[i], nets[i])
    ensures pp.Valid() && |nets| == pp.n && OnlyToFirst(nets) && QueuesFrom(pp, c, r, Arrived(nets, 0))
    ensures forall e :: 0 <= e < pp.n ==> |Arrived(nets, 0)[e]| == 2 * CircuitSizes(c, pp.k).mults
  {
    hide WellFormed, RandomnessShape, PairFrom, CircuitSizes, BatchCount, IsParty, Arrived, PairsSent;
    PartyIs(ps, nets, pp, c, r);
    forall i | 0 <= i < pp.n ensures nets[i].inbox == NoMsgs(pp.n) && nets[i].outbox == NoMsgs(pp.n)[0 := nets[i].outbox[0]] {
      assert MultsOut(ps[i], nets[i]);
    }
    AtFirst(nets);
    forall e | 0 <= e < pp.n
      ensures |Arrived(nets, 0)[e]| == 2 * CircuitSizes(c, pp.k).mults
      ensures forall l, b :: 0 <= l < |c.mults| && 0 <= b < BatchCount(|c.mults[l]|, pp.k) ==> PairFrom(pp, c, r, Arrived(nets, 0)[e], e, l, b)
    {
      assert IsParty(ps[e], nets[e], pp, c, r, e) && MultsOut(ps[e], nets[e]);
      OneQueue(ps[e], nets[e], pp, c, r, nets[e].outbox[0]);
    }
  }

  method MultsToP1(ps: seq<PartyPrep>, nets: seq<Net>, ghost pp: Params, ghost c: Circuit, ghost r: Randomness)
    requires Settled(ps, nets, pp, c, r)
    modifies nets
    ensures MultsAtP1(nets, pp, c, r)
  {
    hide Together, WellFormed, MultsOut, MapDone, RandomnessShape, QueuesFrom, CircuitSizes, Arrived;
    PartyIs(ps, nets, pp, c, r);
    SendMults(ps, nets, pp, c, r);
    QueuesArrive(ps, nets, pp, c, r);
    AtFirst(nets);
    Deliver(nets);
  }

  /** Every party has received P1's answers, and nothing else is on its way. */
  ghost predicate AnswersThere(nets: seq<Net>, pp: Params, recvd: seq<Vec>, now: seq<Vec>, m: nat)
    reads nets
  {
    && pp.Valid() && |nets| == pp.n && Connected(nets)
    && (exists rest :: AnsweredAll(pp, recvd, rest, NoMsgs(pp.n), now, m))
    && forall j :: 0 <= j < pp.n ==> nets[j].inbox == NoMsgs(pp.n)[0 := now[j]] && nets[j].outbox == NoMsgs(pp.n)
  }

  method AnswerMults(ps: seq<PartyPrep>, nets: seq<Net>, ghost pp: Params, ghost c: Circuit, ghost r: Randomness)
      returns (ghost recvd: seq<Vec>, ghost now: seq<Vec>)
    requires Together(ps, nets, pp, c, r) && MultsAtP1(nets, pp, c, r)
    modifies nets
    ensures QueuesFrom(pp, c, r, recvd) && AnswersThere(nets, pp, recvd, now, CircuitSizes(c, pp.k).mults)
  {
    hide Together, WellFormed, RandomnessShape, QueuesFrom, CircuitSizes, Answered, IndOrder, EiShares;
    PartyIs(ps, nets, pp, c, r);
    recvd, now := nets[0].inbox, nets[0].outbox;
    ghost var m := CircuitSizes(c, pp.k).mults;
    for i := 0 to |ps|
      invariant Connected(nets)
      invariant i == 0 ==> nets[0].inbox == recvd && nets[0].outbox == NoMsgs(pp.n)
      invariant i > 0 ==> AnsweredAll(pp, recvd, nets[0].inbox, NoMsgs(pp.n), nets[0].outbox, m)
      invariant forall j :: 0 < j < pp.n ==> Idle(nets[j])
    {
      PartyOffline.PrepMultP1ReceivesAndSends(ps[i]);
    }
    now := nets[0].outbox;
    AnswersTaken(pp, recvd, nets[0].inbox, NoMsgs(pp.n), now, m);
    FirstArrives(nets);
    Deliver(nets);
  }

  lemma AnswersTaken(pp: Params, recvd: seq<Vec>, rest: seq<Vec>, start: seq<Vec>, now: seq<Vec>, m: nat)
    requires AnsweredAll(pp, recvd, rest, start, now, m) && forall e :: 0 <= e < pp.n ==> |recvd[e]| == 2 * m
    ensures rest == NoMsgs(pp.n)
  {
    hide Answered;
  }

  /** The party's entries of the preprocessing of all batches. */
  ghost predicate HasPrep(pp: Params, c: Circuit, r: Randomness, i: nat, preps: seq<seq<BatchPrep>>)
    requires Setup(pp, c, r) && i < pp.n
  {
    && |preps| == |c.mults|
    && (forall l :: 0 <= l < |c.mults| ==> |preps[l]| == BatchCount(|c.mults[l]|, pp.k))
    && forall l, b :: 0 <= l < |c.mults| && 0 <= b < BatchCount(|c.mults[l]|, pp.k) ==> preps[l][b] == PrepFor(pp, c, r, l, b)[i]
  }

  lemma RowsArePrep(p: PartyPrep, r: Randomness, recvd: seq<Vec>, rest: seq<Vec>, now: seq<Vec>, preps: seq<seq<BatchPrep>>)
    requires OwnPrep(p, r) && p.pp.Valid() && QueuesFrom(p.pp, p.c, r, recvd) && |preps| == |p.c.mults|
    requires AnsweredAll(p.pp, recvd, rest, NoMsgs(p.pp.n), now, CircuitSizes(p.c, p.pp.k).mults)
    requires forall l :: 0 <= l < |preps| ==> |preps[l]| == BatchCount(|p.c.mults[l]|, p.pp.k) && RowFinished(p, now[p.id], l, preps[l])
    ensures HasPrep(p.pp, p.c, r, p.id, preps)
  {
    hide HeldBy, RandomnessShape, IndOrder, WellFormed, BatchCount, BatchTotal, QueuesFrom, EiShares, PrepBy, PartyOffline.Finished;
    forall l, b | 0 <= l < |p.c.mults| && 0 <= b < BatchCount(|p.c.mults[l]|, p.pp.k) ensures preps[l][b] == PrepFor(p.pp, p.c, r, l, b)[p.id] {
      PhaseGivesPrep(p, r, recvd, rest, NoMsgs(p.pp.n), now, l, b);
    }
  }

  method ReceiveOne(p: PartyPrep, ghost r: Randomness, ghost recvd: seq<Vec>, ghost rest: seq<Vec>, ghost now: seq<Vec>)
      returns (preps: seq<seq<BatchPrep>>)
    requires OwnPrep(p, r) && p.net.Valid() && MapDone(p) && QueuesFrom(p.pp, p.c, r, recvd)
    requires AnsweredAll(p.pp, recvd, rest, NoMsgs(p.pp.n), now, CircuitSizes(p.c, p.pp.k).mults)
    requires p.net.inbox == NoMsgs(p.pp.n)[0 := now[p.id]] && p.net.outbox == NoMsgs(p.pp.n)
    modifies p.net`inbox
    ensures p.net.Valid() && Idle(p.net) && HasPrep(p.pp, p.c, r, p.id, preps)
  {
    hide WellFormed, RandomnessShape, QueuesFrom, CircuitSizes, Answered, IndOrder, EiShares, HasPrep, BatchesMapped, RowFinished, HeldBy, PrepBy;
    preps := PartyOffline.PrepMultPartiesReceive(p);
    RowsArePrep(p, r, recvd, rest, now, preps);
    assert p.net.inbox == NoMsgs(p.pp.n);
  }

  method ReceiveMults(ps: seq<PartyPrep>, nets: seq<Net>, ghost pp: Params, ghost c: Circuit, ghost r: Randomness, ghost recvd: seq<Vec>, ghost now: seq<Vec>)
      returns (preps: seq<seq<seq<BatchPrep>>>)
    requires Together(ps, nets, pp, c, r) && forall i :: 0 <= i < pp.n ==> ps[i].Ready() && MapDone(ps[i])
    requires QueuesFrom(pp, c, r, recvd) && AnswersThere(nets, pp, recvd, now, CircuitSizes(c, pp.k).mults)
    modifies nets
    ensures Settled(ps, nets, pp, c, r) && |preps| == pp.n && forall i :: 0 <= i < pp.n ==> HasPrep(pp, c, r, i, preps[i])
  {
    hide Together, WellFormed, RandomnessShape, QueuesFrom, CircuitSizes, AnsweredAll, IndOrder, EiShares, HasPrep, MapDone, OwnPrep, Idle, Setup;
    PartyIs(ps, nets, pp, c, r);
    preps := [];
    ghost var rest :| AnsweredAll(pp, recvd, rest, NoMsgs(pp.n), now, CircuitSizes(c, pp.k).mults);
    NowSize(pp, recvd, rest, now, CircuitSizes(c, pp.k).mults);
    for i := 0 to |ps|
      invariant Connected(nets) && |preps| == i
      invariant forall e :: 0 <= e < i ==> Idle(nets[e]) && HasPrep(pp, c, r, e, preps[e])
      invariant forall e :: i <= e < pp.n ==> nets[e].inbox == NoMsgs(pp.n)[0 := now[e]] && nets[e].outbox == NoMsgs(pp.n)
    {
      PrepOf(ps, nets, pp, c, r, i);
      var mine := ReceiveOne(ps[i], r, recvd, rest, now);
      preps := preps + [mine];
    }
  }

  lemma NowSize(pp: Params, recvd: seq<Vec>, rest: seq<Vec>, now: seq<Vec>, m: nat)
    requires AnsweredAll(pp, recvd, rest, NoMsgs(pp.n), now, m)
    ensures |now| == pp.n
  {
  }

  lemma PrepOf(ps: seq<PartyPrep>, nets: seq<Net>, pp: Params, c: Circuit, r: Randomness, i: nat)
    requires Together(ps, nets, pp, c, r) && i < pp.n
    ensures OwnPrep(ps[i], r)
  {
    assert IsParty(ps[i], nets[i], pp, c, r, i);
  }

  // ---- Input and output batches ----

  ghost predicate ClientsFit(pp: Params, c: Circuit) {
    |c.inputs| <= pp.n && |c.outputs| <= pp.n
  }

  /** All messages of a party to owner o. */
  ghost function IOMsgs(p: PartyPrep, o: nat): (v: Vec)
    requires p.Ready()
    ensures |v| == OwnCount(p.c.inputs, p.pp.k, o) + OwnCount(p.c.outputs, p.pp.k, o)
  {
    ListsHoldGates(p.c);
    OwnerMsgs(p, p.c.inputs, 0, o) + OwnerMsgs(p, p.c.outputs, BatchTotal(p.c.inputs, p.pp.k, |p.c.inputs|), o)
  }

  ghost predicate IOOut(p: PartyPrep, net: Net)
    requires p.Ready()
    reads net
  {
    net.Valid() && net.inbox == NoMsgs(net.n) && forall o :: 0 <= o < net.n ==> net.outbox[o] == IOMsgs(p, o)
  }

  method SendIOOne(p: PartyPrep)
    requires p.Ready() && MapDone(p) && ClientsFit(p.pp, p.c) && p.net.Valid() && Idle(p.net)
    modifies p.net`outbox
    ensures p.net.Valid() && IOOut(p, p.net)
  {
    hide WellFormed, BatchTotal, BatchCount, IndOrder, EiShares, BatchesMapped, OwnerMsgs;
    PartyOffline.PrepIOPartiesSendOwner(p);
  }

  method IOToOwners(ps: seq<PartyPrep>, nets: seq<Net>, ghost pp: Params, ghost c: Circuit, ghost r: Randomness)
    requires Settled(ps, nets, pp, c, r) && ClientsFit(pp, c)
    modifies nets
    ensures Connected(nets)
    ensures forall o :: 0 <= o < pp.n ==> IOThere(ps, nets[o], o)
  {
    hide Together, MapDone, WellFormed, EiShares, IOMsgs, IOOut, Setup, Arrived;
    PartyIs(ps, nets, pp, c, r);
    for i := 0 to |ps|
      invariant Connected(nets)
      invariant forall e :: 0 <= e < i ==> IOOut(ps[e], nets[e])
      invariant forall e :: i <= e < pp.n ==> Idle(nets[e])
    {
      SendIOOne(ps[i]);
    }
    IOArrives(ps, nets, pp.n);
    Deliver(nets);
  }

  lemma IOArrives(ps: seq<PartyPrep>, nets: seq<Net>, n: nat)
    requires Connected(nets) && |ps| == |nets| == n && forall e :: 0 <= e < n ==> ps[e].Ready() && IOOut(ps[e], nets[e])
    ensures forall o, e :: 0 <= o < n && 0 <= e < n ==> Arrived(nets, o)[e] == IOMsgs(ps[e], o)
  {
    hide WellFormed, EiShares, IOMsgs;
    forall o, e | 0 <= o < n && 0 <= e < n ensures Arrived(nets, o)[e] == IOMsgs(ps[e], o) {
      assert IOOut(ps[o], nets[o]) && IOOut(ps[e], nets[e]);
    }
  }

  /** The owner knows the masks of the wires of its batches. */
  ghost predicate HasMasks(pp: Params, c: Circuit, r: Randomness, lists: seq<seq<nat>>, i: nat, masks: seq<Vec>)
    requires Setup(pp, c, r) && GatesIn(c, lists)
  {
    |masks| == OwnCount(lists, pp.k, i) && forall b :: 0 <= b < |masks| ==> OpensTo(pp, c, r, lists, i, b, masks[b])
  }

  ghost predicate OpensTo(pp: Params, c: Circuit, r: Randomness, lists: seq<seq<nat>>, i: nat, b: nat, v: Vec)
    requires Setup(pp, c, r) && GatesIn(c, lists)
  {
    i < |lists| && (BatchGates(c, lists, pp.k, i, b); v == SlotMasks(pp, c, r, BatchAt(lists[i], pp.k, b)))
  }

  /** Where the entries of a list's batches start, and that they are there. */
  ghost predicate EntriesAt(pp: Params, c: Circuit, lists: seq<seq<nat>>, first: nat)
    requires pp.k > 0
  {
    GatesIn(c, lists) && first + BatchTotal(lists, pp.k, |lists|) <= CircuitSizes(c, pp.k).ios
  }

  lemma EntriesThere(pp: Params, c: Circuit)
    requires pp.Valid() && WellFormed(c)
    ensures EntriesAt(pp, c, c.inputs, 0) && EntriesAt(pp, c, c.outputs, BatchTotal(c.inputs, pp.k, |c.inputs|))
  {
    hide BatchTotal, Topological, MultsListed, IndOrder;
  }

  lemma OwnerMsgFrom(p: PartyPrep, net: Net, pp: Params, c: Circuit, r: Randomness, lists: seq<seq<nat>>, first: nat, o: nat, b: nat)
    requires Setup(pp, c, r) && p.id < pp.n && IsParty(p, net, pp, c, r, p.id) && EntriesAt(pp, c, lists, first)
    requires o < |lists| && b < BatchCount(|lists[o]|, pp.k)
    ensures SlotsOk(c, BatchAt(lists[o], pp.k, b)) && first + BatchTotal(lists, pp.k, o) + b < CircuitSizes(c, pp.k).ios
    ensures FromParty(pp, c, r, BatchAt(lists[o], pp.k, b), first + BatchTotal(lists, pp.k, o) + b, p.id, OwnerMsgs(p, lists, first, o)[b])
  {
    hide HeldBy, RandomnessShape, WellFormed, BatchTotal, BatchCount, BatchAt, IndOrder, PrepBy, EiShares, GatesIn, SlotShares, MaskedWires;
    BatchGates(c, lists, pp.k, o, b);
    BatchTotalMonotone(lists, pp.k, o, |lists|);
    assert OwnerMsgs(p, lists, first, o)[b] == OwnerMsg(p, lists, first, o, b);
  }

  lemma OneFrom(p: PartyPrep, net: Net, pp: Params, c: Circuit, r: Randomness, lists: seq<seq<nat>>, first: nat, o: nat, b: nat, v: Elem)
    requires Setup(pp, c, r) && p.id < pp.n && IsParty(p, net, pp, c, r, p.id) && EntriesAt(pp, c, lists, first)
    requires o < |lists| && b < BatchCount(|lists[o]|, pp.k) && IsOwnerMsg(p, lists, first, o, b, v)
    ensures SlotsOk(c, BatchAt(lists[o], pp.k, b)) && first + BatchTotal(lists, pp.k, o) + b < CircuitSizes(c, pp.k).ios
    ensures FromParty(pp, c, r, BatchAt(lists[o], pp.k, b), first + BatchTotal(lists, pp.k, o) + b, p.id, v)
  {
    hide HeldBy, RandomnessShape, WellFormed, BatchTotal, BatchCount, BatchAt, IndOrder, EiShares, GatesIn, FromParty, OwnerMsgs, IOZeros, CircuitSizes, SlotsOk;
    OwnerMsgFrom(p, net, pp, c, r, lists, first, o, b);
  }

  /** From one message of everybody the owner opens the masks of its batch. */
  lemma OwnerOpens(ps: seq<PartyPrep>, nets: seq<Net>, pp: Params, c: Circuit, r: Randomness, lists: seq<seq<nat>>, first: nat, o: nat, b: nat, recvd: Vec)
    requires Together(ps, nets, pp, c, r) && pp.Valid() && EntriesAt(pp, c, lists, first)
    requires o < |lists| && b < BatchCount(|lists[o]|, pp.k) && |recvd| == pp.n
    requires forall e :: 0 <= e < pp.n ==> IsOwnerMsg(ps[e], lists, first, o, b, recvd[e])
    ensures OpensTo(pp, c, r, lists, o, b, Reconstruct(recvd, pp.k))
  {
    hide RandomnessShape, WellFormed, BatchTotal, BatchCount, BatchAt, FromParty, Reconstruct, SlotMasks, IsParty, CircuitSizes, GatesIn, IsOwnerMsg, SlotsOk;
    PartyIs(ps, nets, pp, c, r);
    var batch, x := BatchAt(lists[o], pp.k, b), first + BatchTotal(lists, pp.k, o) + b;
    OneFrom(ps[0], nets[0], pp, c, r, lists, first, o, b, recvd[0]);
    forall e | 0 <= e < pp.n ensures FromParty(pp, c, r, batch, x, e, recvd[e]) {
      OneFrom(ps[e], nets[e], pp, c, r, lists, first, o, b, recvd[e]);
    }
    OwnerOpensMasks(pp, c, r, batch, x, recvd);
  }

  ghost predicate IsOwnerMsg(p: PartyPrep, lists: seq<seq<nat>>, first: nat, o: nat, b: nat, v: Elem) {
    && p.Ready() && GatesIn(p.c, lists) && first + BatchTotal(lists, p.pp.k, |lists|) <= |p.ioPrep|
    && b < |OwnerMsgs(p, lists, first, o)| && v == OwnerMsgs(p, lists, first, o)[b]
  }

  /** What owner i reconstructs from its queues, list by list, is what HasMasks asks. */
  lemma OpenedMasksAre(ps: seq<PartyPrep>, nets: seq<Net>, pp: Params, c: Circuit, r: Randomness, i: nat, inbox: seq<Vec>, ins: seq<Vec>, outs: seq<Vec>)
    requires Together(ps, nets, pp, c, r) && i < pp.n && |inbox| == pp.n
    requires forall e :: 0 <= e < pp.n ==> ps[e].Ready() && ps[e].pp == pp && ps[e].c == c && inbox[e] == IOMsgs(ps[e], i)
    requires |ins| == OwnCount(c.inputs, pp.k, i) && |outs| == OwnCount(c.outputs, pp.k, i)
    requires forall e :: 0 <= e < pp.n ==> |inbox[e]| == |ins| + |outs|
    requires forall b :: 0 <= b < |ins| ==> ins[b] == Reconstruct(Heads(inbox, pp.n, b), pp.k)
    requires forall b :: 0 <= b < |outs| ==> outs[b] == Reconstruct(Heads(inbox, pp.n, |ins| + b), pp.k)
    ensures GatesIn(c, c.inputs) && GatesIn(c, c.outputs)
    ensures HasMasks(pp, c, r, c.inputs, i, ins) && HasMasks(pp, c, r, c.outputs, i, outs)
  {
    hide RandomnessShape, WellFormed, BatchTotal, BatchCount, IndOrder, EiShares, Reconstruct, CircuitSizes, GatesIn, OpensTo, Together, IOMsgs, OwnerMsgs;
    PartyIs(ps, nets, pp, c, r);
    EntriesThere(pp, c);
    var first := BatchTotal(c.inputs, pp.k, |c.inputs|);
    forall b | 0 <= b < |ins| ensures OpensTo(pp, c, r, c.inputs, i, b, ins[b]) {
      forall e | 0 <= e < pp.n ensures IsOwnerMsg(ps[e], c.inputs, 0, i, b, inbox[e][b]) { IOMsgAt(ps[e], i, b); }
      OwnerOpens(ps, nets, pp, c, r, c.inputs, 0, i, b, Heads(inbox, pp.n, b));
    }
    forall b | 0 <= b < |outs| ensures OpensTo(pp, c, r, c.outputs, i, b, outs[b]) {
      forall e | 0 <= e < pp.n ensures IsOwnerMsg(ps[e], c.outputs, first, i, b, inbox[e][|ins| + b]) { IOMsgAt(ps[e], i, b); }
      OwnerOpens(ps, nets, pp, c, r, c.outputs, first, i, b, Heads(inbox, pp.n, |ins| + b));
    }
  }

  /** Input batches first, then output batches. */
  lemma IOMsgAt(p: PartyPrep, o: nat, b: nat)
    requires p.Ready()
    ensures var ins, outs := OwnCount(p.c.inputs, p.pp.k, o), OwnCount(p.c.outputs, p.pp.k, o);
            && (b < ins ==> IsOwnerMsg(p, p.c.inputs, 0, o, b, IOMsgs(p, o)[b]))
            && (b < outs ==> IsOwnerMsg(p, p.c.outputs, BatchTotal(p.c.inputs, p.pp.k, |p.c.inputs|), o, b, IOMsgs(p, o)[ins + b]))
  {
    hide WellFormed, BatchTotal, BatchCount, EiShares, IndOrder, OwnerMsgs, GatesIn;
    ListsHoldGates(p.c);
  }

  /** Owner o has received all its messages. */
  ghost predicate IOThere(ps: seq<PartyPrep>, net: Net, o: nat)
    reads net
  {
    && net.Valid() && net.n == |ps| && net.outbox == NoMsgs(net.n)
    && forall e :: 0 <= e < |ps| ==> ps[e].Ready() && net.inbox[e] == IOMsgs(ps[e], o)
  }

  method ReceiveIOOne(ps: seq<PartyPrep>, ghost nets: seq<Net>, net: Net, i: nat, ghost pp: Params, ghost c: Circuit, ghost r: Randomness)
      returns (ins: seq<Vec>, outs: seq<Vec>)
    requires Together(ps, nets, pp, c, r) && i < pp.n && net == nets[i] && IOThere(ps, net, i)
    modifies net`inbox
    ensures net.Valid() && Idle(net) && GatesIn(c, c.inputs) && GatesIn(c, c.outputs)
    ensures HasMasks(pp, c, r, c.inputs, i, ins) && HasMasks(pp, c, r, c.outputs, i, outs)
  {
    hide Together, WellFormed, EiShares, IOMsgs, Setup, Reconstruct, HasMasks, GatesIn, BatchCount;
    PartyIs(ps, nets, pp, c, r);
    ghost var inbox := net.inbox;
    ins, outs := PartyOffline.PrepIOOwnerReceives(ps[i]);
    OpenedMasksAre(ps, nets, pp, c, r, i, inbox, ins, outs);
    assert net.inbox == NoMsgs(pp.n);
  }

  method ReceiveIO(ps: seq<PartyPrep>, nets: seq<Net>, ghost pp: Params, ghost c: Circuit, ghost r: Randomness)
      returns (ins: seq<seq<Vec>>, outs: seq<seq<Vec>>)
    requires Together(ps, nets, pp, c, r) && Connected(nets) && forall i :: 0 <= i < pp.n ==> IOThere(ps, nets[i], i)
    modifies nets
    ensures Connected(nets) && |ins| == |outs| == pp.n && GatesIn(c, c.inputs) && GatesIn(c, c.outputs)
    ensures forall i :: 0 <= i < pp.n ==>
              Idle(nets[i]) && HasMasks(pp, c, r, c.inputs, i, ins[i]) && HasMasks(pp, c, r, c.outputs, i, outs[i])
  {
    hide Together, WellFormed, IOThere, Setup, HasMasks, GatesIn, Idle;
    PartyIs(ps, nets, pp, c, r);
    ListsHoldGates(c);
    ins, outs := [], [];
    for i := 0 to |ps|
      invariant Connected(nets) && |ins| == |outs| == i
      invariant forall q :: 0 <= q < i ==>
        Idle(nets[q]) && HasMasks(pp, c, r, c.inputs, q, ins[q]) && HasMasks(pp, c, r, c.outputs, q, outs[q])
      invariant forall o :: i <= o < pp.n ==> IOThere(ps, nets[o], o)
    {
      var mineIn, mineOut := ReceiveIOOne(ps, nets, nets[i], i, pp, c, r);
      ins, outs := ins + [mineIn], outs + [mineOut];
    }
  }

  // ---- The whole phase ----

  /** The function-dependent preprocessing of a circuit, all parties together: afterwards every party
      holds its entry of the preprocessing of every multiplication batch, every owner knows the masks
      of its input and output wires, and all queues are empty. */
  method RunFDPhase(ps: seq<PartyPrep>, nets: seq<Net>, ghost pp: Params, ghost c: Circuit, ghost r: Randomness)
      returns (preps: seq<seq<seq<BatchPrep>>>, ins: seq<seq<Vec>>, outs: seq<seq<Vec>>)
    requires Together(ps, nets, pp, c, r) && ClientsFit(pp, c) && Connected(nets)
    requires forall i :: 0 <= i < pp.n ==> Unmapped(ps[i]) && Idle(nets[i])
    modifies ps, nets
    ensures Connected(nets) && |preps| == |ins| == |outs| == pp.n && GatesIn(c, c.inputs) && GatesIn(c, c.outputs)
    ensures forall i :: 0 <= i < pp.n ==> Idle(nets[i]) && HasPrep(pp, c, r, i, preps[i])
    ensures forall i :: 0 <= i < pp.n ==> HasMasks(pp, c, r, c.inputs, i, ins[i]) && HasMasks(pp, c, r, c.outputs, i, outs[i])
  {
    hide Together, WellFormed, EiShares, MapDone, IOMsgs, HasPrep, HasMasks, GatesIn, Setup, IOThere, MultsAtP1, QueuesFrom, AnswersThere, CircuitSizes;
    PartyIs(ps, nets, pp, c, r);
    MapAll(ps, nets, pp, c, r);
    MultsToP1(ps, nets, pp, c, r);
    ghost var recvd, now := AnswerMults(ps, nets, pp, c, r);
    preps := ReceiveMults(ps, nets, pp, c, r, recvd, now);
    IOToOwners(ps, nets, pp, c, r);
    ins, outs := ReceiveIO(ps, nets, pp, c, r);
  }
}