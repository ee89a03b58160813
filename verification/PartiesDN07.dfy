/** All parties together in DN07: one object per party on connected networks, taking the steps of
    dn07.cc in turn, with the messages delivered in between. */
module PartiesDN07 {
  import opened Field
  import opened Packed
  import opened Combine
  import opened FIPrep
  import opened Circuits
  import opened DN07
  import DN07Correct
  import opened Gates
  import opened Network
  import opened Wrappers
  import opened PrepDN07
  import opened PartyDN07
  import opened Correlator

  // ---- Random and double sharings ----

  /** One extraction object per party, before it has received anything. */
  ghost predicate AllPreps(qs: seq<PrepDN07>, nets: seq<Net>, pp: Parties, c: Circuit, r: DealerRandomness)
  {
    && Setup(pp, c, r) && |qs| == |nets| == pp.n
    && forall i :: 0 <= i < pp.n ==> qs[i].pp == pp && qs[i].id == i && qs[i].net == nets[i]
  }

  ghost predicate Fresh(q: PrepDN07)
    reads q
  {
    IsVandermonde(q.vandermonde, q.pp.n, q.pp.t) && q.rShrs == [] && q.dShrs == [] && q.dHighShrs == []
  }

  /** Everything dealer e sends party j. */
  ghost function Dealings(pp: Parties, c: Circuit, r: DealerRandomness, e: nat, j: nat): Vec
    requires Setup(pp, c, r) && e < pp.n && j < pp.n
  {
    BlockMsgs(RandDealt(pp, r.rand), pp.n, e, j) + BlockMsgs(PairDealt(pp, r.double), pp.n, e, j)
  }

  ghost predicate DealingsOut(net: Net, pp: Parties, c: Circuit, r: DealerRandomness, e: nat)
    requires Setup(pp, c, r) && e < pp.n
    reads net
  {
    net.n == pp.n && net.Valid() && net.inbox == NoMsgs(pp.n) && forall j :: 0 <= j < pp.n ==> net.outbox[j] == Dealings(pp, c, r, e, j)
  }

  ghost predicate DealingsThere(net: Net, pp: Parties, c: Circuit, r: DealerRandomness, j: nat)
    requires Setup(pp, c, r) && j < pp.n
    reads net
  {
    net.n == pp.n && net.Valid() && net.outbox == NoMsgs(pp.n) && forall e :: 0 <= e < pp.n ==> net.inbox[e] == Dealings(pp, c, r, e, j)
  }

  method DealOne(q: PrepDN07, c: Circuit, r: DealerRandomness)
    requires Fresh(q) && q.Valid() && Setup(q.pp, c, r) && Idle(q.net)
    modifies q.net`outbox
    ensures q.net.Valid() && DealingsOut(q.net, q.pp, c, r, q.id)
  {
    hide WellFormed, BlockMsgs, RandDealt, PairDealt, DealerShape;
    assert DealerShape(q.pp, c, r);
    q.PrepPartiesSend(r, c);
  }

  method TakeOne(q: PrepDN07, c: Circuit, ghost r: DealerRandomness)
    requires Fresh(q) && q.Valid() && Setup(q.pp, c, r) && DealingsThere(q.net, q.pp, c, r, q.id)
    modifies q, q.net`inbox
    ensures q.net.Valid() && Idle(q.net) && OwnShares(q.pp, r, q.id, q.rShrs, q.dShrs, q.dHighShrs)
  {
    hide WellFormed, BlockMsgs, Blocks, Flatten, RandDealt, LowDealt, HighDealt, OwnShares;
    forall e | 0 <= e < q.pp.n
      ensures q.net.inbox[e] == BlockMsgs(RandDealt(q.pp, r.rand), q.pp.n, e, q.id) + (BlockMsgs(PairDealt(q.pp, r.double), q.pp.n, e, q.id) + NoMsgs(q.pp.n)[e])
    {
      assert q.net.inbox[e] == Dealings(q.pp, c, r, e, q.id);
    }
    q.PrepPartiesReceive(r, c, NoMsgs(q.pp.n));
    assert q.net.inbox == NoMsgs(q.pp.n);
  }

  /** PrepPartiesSend at all parties. */
  method DealAll(qs: seq<PrepDN07>, nets: seq<Net>, ghost pp: Parties, c: Circuit, r: DealerRandomness)
    requires AllPreps(qs, nets, pp, c, r) && Connected(nets) && forall i :: 0 <= i < pp.n ==> Fresh(qs[i]) && Idle(nets[i])
    modifies nets
    ensures Connected(nets) && forall i :: 0 <= i < pp.n ==> DealingsOut(nets[i], pp, c, r, i)
  {
    hide WellFormed, DealerShape, DealingsOut, Idle, IsVandermonde;
    for i := 0 to |qs|
      invariant Connected(nets)
      invariant forall e :: 0 <= e < i ==> DealingsOut(nets[e], pp, c, r, e)
      invariant forall e :: i <= e < pp.n ==> Idle(nets[e])
    {
      DealOne(qs[i], c, r);
    }
  }

  lemma DealingsArrive(nets: seq<Net>, pp: Parties, c: Circuit, r: DealerRandomness)
    requires Setup(pp, c, r) && |nets| == pp.n && Connected(nets) && forall i :: 0 <= i < pp.n ==> DealingsOut(nets[i], pp, c, r, i)
    ensures forall i, e :: 0 <= i < pp.n && 0 <= e < pp.n ==> Arrived(nets, i)[e] == Dealings(pp, c, r, e, i)
  {
    hide WellFormed, DealerShape, Dealings;
    forall i, e | 0 <= i < pp.n && 0 <= e < pp.n ensures Arrived(nets, i)[e] == Dealings(pp, c, r, e, i) {
      assert DealingsOut(nets[i], pp, c, r, i) && DealingsOut(nets[e], pp, c, r, e);
    }
  }

  /** PrepPartiesReceive at all parties. */
  method TakeAll(qs: seq<PrepDN07>, nets: seq<Net>, ghost pp: Parties, c: Circuit, ghost r: DealerRandomness)
    requires AllPreps(qs, nets, pp, c, r) && Connected(nets) && forall i :: 0 <= i < pp.n ==> Fresh(qs[i]) && DealingsThere(nets[i], pp, c, r, i)
    modifies qs, nets
    ensures Connected(nets) && forall i :: 0 <= i < pp.n ==> Idle(nets[i]) && OwnShares(pp, r, i, qs[i].rShrs, qs[i].dShrs, qs[i].dHighShrs)
  {
    hide WellFormed, DealerShape, DealingsThere, Idle, IsVandermonde, OwnShares;
    assert forall i, j :: 0 <= i < j < pp.n ==> qs[i] != qs[j];
    for i := 0 to |qs|
      invariant Connected(nets)
      invariant forall e :: 0 <= e < i ==> Idle(nets[e]) && OwnShares(pp, r, e, qs[e].rShrs, qs[e].dShrs, qs[e].dHighShrs)
      invariant forall e :: i <= e < pp.n ==> Fresh(qs[e]) && DealingsThere(nets[e], pp, c, r, e)
    {
      TakeOne(qs[i], c, r);
    }
  }

  /** The preparation of all parties: each ends with its part of all extracted sharings. */
  method PrepPhase(qs: seq<PrepDN07>, nets: seq<Net>, ghost pp: Parties, c: Circuit, r: DealerRandomness)
    requires AllPreps(qs, nets, pp, c, r) && Connected(nets) && forall i :: 0 <= i < pp.n ==> Fresh(qs[i]) && Idle(nets[i])
    modifies qs, nets
    ensures Connected(nets) && forall i :: 0 <= i < pp.n ==> Idle(nets[i]) && OwnShares(pp, r, i, qs[i].rShrs, qs[i].dShrs, qs[i].dHighShrs)
  {
    hide WellFormed, DealerShape, DealingsOut, Dealings, Idle, Fresh, OwnShares, Arrived;
    DealAll(qs, nets, pp, c, r);
    DealingsArrive(nets, pp, c, r);
    Deliver(nets);
    TakeAll(qs, nets, pp, c, r);
  }

  // ---- The parties ----

  /** Party i holds its part of the sharings. */
  ghost predicate IsParty(p: PartyDN07, net: Net, table: WireValues, pp: Parties, c: Circuit, r: DealerRandomness, i: nat) {
    && p.Ready() && p.pp == pp && p.c == c && p.id == i && p.net == net && p.table == table
    && OwnShares(pp, r, i, p.rShrs, p.dShrs, p.dHighShrs)
  }

  ghost predicate Together(ps: seq<PartyDN07>, nets: seq<Net>, tables: seq<WireValues>, pp: Parties, c: Circuit, r: DealerRandomness) {
    && Setup(pp, c, r) && |ps| == |nets| == |tables| == |c.inputs| == |c.outputs| == pp.n
    && (forall i :: 0 <= i < pp.n ==> IsParty(ps[i], nets[i], tables[i], pp, c, r, i))
    && forall i, j :: 0 <= i < j < pp.n ==> tables[i] != tables[j]
  }

  lemma PartyIs(ps: seq<PartyDN07>, nets: seq<Net>, tables: seq<WireValues>, pp: Parties, c: Circuit, r: DealerRandomness)
    requires Together(ps, nets, tables, pp, c, r)
    ensures |ps| == |nets| == |tables| == |c.inputs| == |c.outputs| == pp.n && Setup(pp, c, r) && pp.Admitted() && WellFormed(c)
    ensures forall i :: 0 <= i < pp.n ==> ps[i].Ready() && ps[i].pp == pp && ps[i].c == c && ps[i].id == i
    ensures forall i :: 0 <= i < pp.n ==> ps[i].net == nets[i] && ps[i].table == tables[i]
    ensures forall i, j :: 0 <= i < j < pp.n ==> ps[i] != ps[j] && tables[i] != tables[j]
  {
    hide OwnShares, DealerShape, WellFormed;
    forall i, j | 0 <= i < j < pp.n ensures ps[i] != ps[j] {
      assert IsParty(ps[i], nets[i], tables[i], pp, c, r, i) && IsParty(ps[j], nets[j], tables[j], pp, c, r, j);
    }
  }

  lemma OwnAll(ps: seq<PartyDN07>, nets: seq<Net>, tables: seq<WireValues>, pp: Parties, c: Circuit, r: DealerRandomness)
    requires Together(ps, nets, tables, pp, c, r)
    ensures forall i :: 0 <= i < pp.n ==> OwnShares(pp, r, i, ps[i].rShrs, ps[i].dShrs, ps[i].dHighShrs)
  {
    hide OwnShares, DealerShape, WellFormed;
  }

  /** FDMapPrepToGates at all parties. */
  method MapAll(ps: seq<PartyDN07>, nets: seq<Net>, tables: seq<WireValues>, ghost pp: Parties, ghost c: Circuit, ghost r: DealerRandomness)
    requires Together(ps, nets, tables, pp, c, r)
    modifies ps`mapInputs, ps`mapMults
    ensures forall i :: 0 <= i < pp.n ==> ps[i].Ready() && ps[i].AllMapped()
  {
    hide Together, OwnShares, WellFormed, PartyDN07.AllMapped;
    PartyIs(ps, nets, tables, pp, c, r);
    for i := 0 to |ps|
      invariant forall e :: 0 <= e < i ==> ps[e].AllMapped()
    {
      ps[i].FDMapPrepToGates();
    }
  }

  // ---- The early phase of the last parties ----

  /** Nothing has been set or opened yet. */
  ghost predicate Start(p: PartyDN07)
    requires p.Ready()
    reads p, p.table
  {
    p.AllMapped() && p.table.Valid() && p.table.leaf == map[] && p.sharesFromLast == [] && p.sharesToSend == []
  }

  /** A silent party's messages for all gates are on their way to P1. */
  ghost predicate EarlyOut(queue: Vec, pp: Parties, c: Circuit, r: DealerRandomness, i: nat)
    requires Setup(pp, c, r) && pp.t < i < pp.n
  {
    |queue| == |Flatten(c.mults)| && forall l, q :: 0 <= l < |c.mults| && 0 <= q < |c.mults[l]| ==> LastSent(pp, c, r, queue, i, l, q)
  }

  method SendEarlyOne(p: PartyDN07, ghost r: DealerRandomness) returns (ok: bool)
    requires p.Ready() && Setup(p.pp, p.c, r) && OwnShares(p.pp, r, p.id, p.rShrs, p.dShrs, p.dHighShrs)
    requires Start(p) && p.net.Valid() && Idle(p.net)
    modifies p.table, p.net`outbox
    ensures p.net.Valid() && p.table.Valid()
    ensures ok <==> p.id <= p.pp.t || SilentReady(p.c)
    ensures ok ==> SentEarly(p, p.net, p.pp, p.c, r, p.id)
  {
    hide Topological, InputsListed, OutputsListed, OwnShares, Flatten, FDShare, SilentReady, PartyDN07.AllMapped, PartyDN07.SilentShareOf, PartyDN07.Holds,
      DoneLayers, DealerShape;
    ok := p.FDMultPartiesSendP1();
    if p.id > p.pp.t && ok {
      forall l, q | 0 <= l < |p.c.mults| && 0 <= q < |p.c.mults[l]| ensures LastSent(p.pp, p.c, r, p.net.outbox[0], p.id, l, q) {
        assert p.Sent([], p.net.outbox[0], l, q);
        SilentPart(p, r, p.c.mults[l][q]);
      }
    }
  }

  /** FDMultPartiesSendP1 at all parties: throws exactly when some last party's gate has no shares. */
  method SendEarly(ps: seq<PartyDN07>, nets: seq<Net>, tables: seq<WireValues>, ghost pp: Parties, ghost c: Circuit, ghost r: DealerRandomness) returns (ok: bool)
    requires Together(ps, nets, tables, pp, c, r) && Connected(nets)
    requires forall i :: 0 <= i < pp.n ==> ps[i].Ready() && Start(ps[i]) && Idle(nets[i])
    modifies nets, tables
    ensures Connected(nets) && (ok <==> pp.t + 1 == pp.n || SilentReady(c))
    ensures ok ==> OnlyToFirst(nets) && forall i :: 0 <= i < pp.n ==> SentEarly(ps[i], nets[i], pp, c, r, i)
  {
    hide Together, OwnShares, WellFormed, DealerShape, Start, EarlyOut, SilentReady, Idle, SentEarly, PartyDN07.Ready;
    PartyIs(ps, nets, tables, pp, c, r);
    OwnAll(ps, nets, tables, pp, c, r);
    for i := 0 to |ps|
      invariant Connected(nets) && (i > pp.t + 1 ==> SilentReady(c))
      invariant forall e :: i <= e < pp.n ==> Start(ps[e]) && Idle(nets[e])
      invariant forall e :: 0 <= e < i ==> SentEarly(ps[e], nets[e], pp, c, r, e)
    {
      var sent := SendEarlyOne(ps[i], r);
      if !sent { return false; }
    }
    EarlyToFirst(ps, nets, pp, c, r);
    return true;
  }

  /** The silent parties' messages are on their way; the others have sent nothing. */
  ghost predicate SentEarly(p: PartyDN07, net: Net, pp: Parties, c: Circuit, r: DealerRandomness, i: nat)
    requires Setup(pp, c, r) && i < pp.n
    reads p, p.table, net
  {
    && p.Ready() && net.n == pp.n && net.inbox == NoMsgs(pp.n) && |net.outbox| == pp.n > 0 && net.outbox == NoMsgs(pp.n)[0 := net.outbox[0]]
    && if i <= pp.t then Start(p) && net.outbox[0] == [] else p.AllMapped() && p.table.Valid() && EarlyOut(net.outbox[0], pp, c, r, i)
  }

  lemma EarlyToFirst(ps: seq<PartyDN07>, nets: seq<Net>, pp: Parties, c: Circuit, r: DealerRandomness)
    requires Setup(pp, c, r) && |ps| == |nets| == pp.n && Connected(nets) && forall i :: 0 <= i < pp.n ==> SentEarly(ps[i], nets[i], pp, c, r, i)
    ensures OnlyToFirst(nets)
  {
    hide WellFormed, DealerShape, Start, EarlyOut;
    forall i | 0 <= i < pp.n ensures nets[i].inbox == NoMsgs(pp.n) && nets[i].outbox == NoMsgs(pp.n)[0 := nets[i].outbox[0]] {
      assert SentEarly(ps[i], nets[i], pp, c, r, i);
    }
  }

  // ---- The states of a run ----

  /** The party's part of a state of the run: an active party has its shares of the leaves set so far,
      P1 has the queue. */
  ghost predicate PartyAt(p: PartyDN07, r: DealerRandomness, s: State)
    reads p, p.table
  {
    && p.Ready() && Setup(p.pp, p.c, r) && StateShape(p.pp, p.c, s) && p.AllMapped() && p.table.Valid()
    && (p.id <= p.pp.t ==> p.table.leaf == PartyLeaves(p.pp, p.c, r, s.active, p.id))
    && (p.id == 0 ==> p.sharesFromLast == s.queue && p.sharesToSend == [])
  }

  /** All parties are at the state and nothing is on its way. */
  ghost predicate AllAt(ps: seq<PartyDN07>, nets: seq<Net>, tables: seq<WireValues>, pp: Parties, c: Circuit, r: DealerRandomness, s: State)
    reads ps, nets, tables
  {
    && Together(ps, nets, tables, pp, c, r) && Connected(nets)
    && forall i :: 0 <= i < pp.n ==> ps[i].table == tables[i] && PartyAt(ps[i], r, s) && Idle(nets[i])
  }

  /** P1's queues hold the last parties' messages. */
  ghost predicate EarlyThere(inbox: seq<Vec>, pp: Parties, c: Circuit, r: DealerRandomness)
    requires Setup(pp, c, r)
  {
    |inbox| == pp.n && forall e :: 0 <= e < pp.n ==> if e <= pp.t then inbox[e] == [] else EarlyOut(inbox[e], pp, c, r, e)
  }

  function AfterEarly(pp: Parties, c: Circuit, r: DealerRandomness): State
    requires Setup(pp, c, r)
  {
    State(map[], FDQueue(pp, c, r))
  }

  method TakeEarlyOne(p: PartyDN07, ghost r: DealerRandomness)
    requires EarlyTaker(p) && Setup(p.pp, p.c, r) && p.net.Valid()
    requires p.id == 0 ==> p.net.outbox == NoMsgs(p.pp.n) && EarlyThere(p.net.inbox, p.pp, p.c, r)
    requires p.id > 0 ==> Idle(p.net)
    modifies p`sharesFromLast, p.net`inbox
    ensures p.net.Valid() && Idle(p.net) && PartyAt(p, r, AfterEarly(p.pp, p.c, r))
  {
    hide WellFormed, DealerShape, PartyDN07.AllMapped, Flatten, LastSent, FDRow;
    ghost var start := p.net.inbox;
    p.FDMultP1Receives();
    if p.id == 0 {
      QueueOfTheRun(p.pp, p.c, r, start);
      assert p.net.inbox == NoMsgs(p.pp.n);
    }
  }

  /** FDMultP1Receives at all parties. */
  method TakeEarly(ps: seq<PartyDN07>, nets: seq<Net>, tables: seq<WireValues>, ghost pp: Parties, ghost c: Circuit, ghost r: DealerRandomness)
    requires Together(ps, nets, tables, pp, c, r) && Connected(nets) && forall i :: 0 <= i < pp.n ==> EarlyTaker(ps[i])
    requires EarlyThere(nets[0].inbox, pp, c, r) && nets[0].outbox == NoMsgs(pp.n) && forall i :: 0 < i < pp.n ==> Idle(nets[i])
    modifies ps`sharesFromLast, nets
    ensures AllAt(ps, nets, tables, pp, c, r, AfterEarly(pp, c, r))
  {
    hide Together, OwnShares, WellFormed, DealerShape, EarlyThere, Idle, PartyAt, EarlyTaker, AfterEarly, PartyDN07.Ready;
    PartyIs(ps, nets, tables, pp, c, r);
    ghost var inbox := nets[0].inbox;
    for i := 0 to |ps|
      invariant Connected(nets) && forall e :: i <= e < pp.n ==> EarlyTaker(ps[e])
      invariant i == 0 ==> nets[0].inbox == inbox && nets[0].outbox == NoMsgs(pp.n)
      invariant forall e :: i <= e < pp.n && e > 0 ==> Idle(nets[e])
      invariant forall e :: 0 <= e < i ==> PartyAt(ps[e], r, AfterEarly(pp, c, r)) && Idle(nets[e])
    {
      TakeEarlyOne(ps[i], r);
    }
  }

  ghost predicate EarlyTaker(p: PartyDN07)
    reads p, p.table
  {
    && p.Ready() && p.AllMapped() && p.table.Valid()
    && (p.id <= p.pp.t ==> p.table.leaf == map[]) && (p.id == 0 ==> p.sharesFromLast == [] && p.sharesToSend == [])
  }

  lemma EarlyArrives(ps: seq<PartyDN07>, nets: seq<Net>, tables: seq<WireValues>, pp: Parties, c: Circuit, r: DealerRandomness)
    requires Together(ps, nets, tables, pp, c, r) && Connected(nets) && OnlyToFirst(nets)
    requires forall i :: 0 <= i < pp.n ==> SentEarly(ps[i], nets[i], pp, c, r, i)
    ensures EarlyThere(Arrived(nets, 0), pp, c, r) && forall i :: 0 <= i < pp.n ==> EarlyTaker(ps[i])
  {
    hide Together, OwnShares, WellFormed, DealerShape, EarlyOut, PartyDN07.AllMapped, Arrived;
    PartyIs(ps, nets, tables, pp, c, r);
    AtFirst(nets);
    forall i | 0 <= i < pp.n
      ensures EarlyTaker(ps[i]) && if i <= pp.t then nets[i].outbox[0] == [] else EarlyOut(nets[i].outbox[0], pp, c, r, i)
    {
      assert SentEarly(ps[i], nets[i], pp, c, r, i);
    }
  }

  /** The early phase of all parties: it throws exactly when a last party lacks a share. */
  method EarlyPhase(ps: seq<PartyDN07>, nets: seq<Net>, tables: seq<WireValues>, ghost pp: Parties, ghost c: Circuit, ghost r: DealerRandomness) returns (ok: bool)
    requires Together(ps, nets, tables, pp, c, r) && Connected(nets)
    requires forall i :: 0 <= i < pp.n ==> ps[i].Ready() && Start(ps[i]) && Idle(nets[i])
    modifies ps`sharesFromLast, nets, tables
    ensures ok <==> pp.t + 1 == pp.n || SilentReady(c)
    ensures ok ==> AllAt(ps, nets, tables, pp, c, r, AfterEarly(pp, c, r))
  {
    hide Together, Setup, WellFormed, EarlyThere, Idle, AllAt, EarlyTaker, SentEarly, Arrived, SilentReady, OnlyToFirst, Start;
    PartyIs(ps, nets, tables, pp, c, r);
    ok := SendEarly(ps, nets, tables, pp, c, r);
    if !ok { return; }
    EarlyArrives(ps, nets, tables, pp, c, r);
    AtFirst(nets);
    Deliver(nets);
    Quiet(nets);
    TakeEarly(ps, nets, tables, pp, c, r);
  }

  // ---- Inputs ----

  /** The owner's input values. */
  ghost predicate OwnValues(c: Circuit, x: map<nat, Elem>, values: seq<Vec>) {
    && |values| == |c.inputs| && (forall o :: 0 <= o < |c.inputs| ==> |values[o]| == |c.inputs[o]|)
    && forall o, p :: 0 <= o < |c.inputs| && 0 <= p < |c.inputs[o]| ==> c.inputs[o][p] in x && values[o][p] == x[c.inputs[o][p]]
  }

  /** Party e's shares of the masks of owner o's inputs. */
  ghost predicate MaskShares(queue: Vec, pp: Parties, c: Circuit, r: DealerRandomness, e: nat, o: nat)
    requires Setup(pp, c, r) && e < pp.n && o < |c.inputs|
  {
    InputsAre(c, o);
    && |queue| == (if e <= pp.t then |c.inputs[o]| else 0)
    && forall p :: 0 <= p < |queue| ==> queue[p] == RandVec(pp, c, r, c.inputs[o][p])[e]
  }

  lemma InputsAre(c: Circuit, o: nat)
    requires WellFormed(c) && o < |c.inputs|
    ensures forall p :: 0 <= p < |c.inputs[o]| ==> c.inputs[o][p] < |c.gates| && c.gates[c.inputs[o][p]] == InputGate(o)
  {
    hide Topological, MultsListed, OutputsListed;
  }

  ghost predicate MasksOut(net: Net, pp: Parties, c: Circuit, r: DealerRandomness, e: nat)
    requires Setup(pp, c, r) && e < pp.n
    reads net
  {
    && |c.inputs| == pp.n == net.n && net.inbox == NoMsgs(pp.n) && |net.outbox| == pp.n
    && forall o :: 0 <= o < pp.n ==> MaskShares(net.outbox[o], pp, c, r, e, o)
  }

  method SendMasksOne(p: PartyDN07, ghost r: DealerRandomness, ghost s: State)
    requires PartyAt(p, r, s) && OwnShares(p.pp, r, p.id, p.rShrs, p.dShrs, p.dHighShrs) && |p.c.inputs| == p.pp.n && p.net.Valid() && Idle(p.net)
    modifies p.net`outbox
    ensures p.net.Valid() && MasksOut(p.net, p.pp, p.c, r, p.id)
  {
    hide OwnShares, WellFormed, DealerShape, PartyDN07.AllMapped, RandVec, StateShape, PartyDN07.RandOf;
    p.InputPartiesSendOwners();
    forall o | 0 <= o < p.pp.n ensures MaskShares(p.net.outbox[o], p.pp, p.c, r, p.id, o) {
      InputsAre(p.c, o);
      forall d | 0 <= d < |p.net.outbox[o]| ensures p.net.outbox[o][d] == RandVec(p.pp, p.c, r, p.c.inputs[o][d])[p.id] {
        OwnParts(p, r, p.c.inputs[o][d]);
      }
    }
  }

  /** InputPartiesSendOwners at all parties. */
  method SendMasks(ps: seq<PartyDN07>, nets: seq<Net>, tables: seq<WireValues>, ghost pp: Parties, ghost c: Circuit, ghost r: DealerRandomness, ghost s: State)
    requires AllAt(ps, nets, tables, pp, c, r, s)
    modifies nets
    ensures Connected(nets) && forall i :: 0 <= i < pp.n ==> PartyAt(ps[i], r, s) && MasksOut(nets[i], pp, c, r, i)
  {
    hide Together, OwnShares, WellFormed, DealerShape, PartyAt, Idle, MasksOut, PartyDN07.Ready;
    PartyIs(ps, nets, tables, pp, c, r);
    OwnAll(ps, nets, tables, pp, c, r);
    for i := 0 to |ps|
      invariant Connected(nets) && forall e :: i <= e < pp.n ==> Idle(nets[e])
      invariant forall e :: 0 <= e < i ==> MasksOut(nets[e], pp, c, r, e)
    {
      SendMasksOne(ps[i], r, s);
    }
  }

  /** The masks of owner o's inputs have arrived. */
  ghost predicate MasksThere(net: Net, pp: Parties, c: Circuit, r: DealerRandomness, o: nat)
    requires Setup(pp, c, r) && o < pp.n
    reads net
  {
    && |c.inputs| == pp.n == net.n && net.outbox == NoMsgs(pp.n) && |net.inbox| == pp.n
    && forall e :: 0 <= e < pp.n ==> MaskShares(net.inbox[e], pp, c, r, e, o)
  }

  lemma MasksArrive(nets: seq<Net>, pp: Parties, c: Circuit, r: DealerRandomness)
    requires Setup(pp, c, r) && |nets| == pp.n && Connected(nets) && forall i :: 0 <= i < pp.n ==> MasksOut(nets[i], pp, c, r, i)
    ensures |c.inputs| == pp.n
    ensures forall o, e :: 0 <= o < pp.n && 0 <= e < pp.n ==> MaskShares(Arrived(nets, o)[e], pp, c, r, e, o)
  {
    hide WellFormed, DealerShape, MaskShares;
    assert MasksOut(nets[0], pp, c, r, 0);
    forall o, e | 0 <= o < pp.n && 0 <= e < pp.n ensures MaskShares(Arrived(nets, o)[e], pp, c, r, e, o) {
      assert MasksOut(nets[o], pp, c, r, o) && MasksOut(nets[e], pp, c, r, e);
      assert Arrived(nets, o)[e] == nets[e].outbox[o];
    }
  }

  /** What owner o sends party j gives the party its shares of the inputs. */
  ghost predicate InputSent(queue: Vec, pp: Parties, c: Circuit, r: DealerRandomness, x: map<nat, Elem>, o: nat, j: nat)
    requires Setup(pp, c, r) && HasInputs(c, x) && j < pp.n && o < |c.inputs|
  {
    InputsAre(c, o);
    && |queue| == (if j <= pp.t then |c.inputs[o]| else 0)
    && forall p :: 0 <= p < |queue| ==> Add(queue[p], RandVec(pp, c, r, c.inputs[o][p])[j]) == InputShares(pp, c, r, x, c.inputs[o][p])[j]
  }

  ghost predicate InputsOut(net: Net, pp: Parties, c: Circuit, r: DealerRandomness, x: map<nat, Elem>, o: nat)
    requires Setup(pp, c, r) && HasInputs(c, x) && o < pp.n
    reads net
  {
    && |c.inputs| == pp.n == net.n && net.inbox == NoMsgs(pp.n) && |net.outbox| == pp.n
    && forall j :: 0 <= j < pp.n ==> InputSent(net.outbox[j], pp, c, r, x, o, j)
  }

  /** The mask of the owner's p-th input is in the p-th round of messages. */
  lemma MaskRound(inbox: seq<Vec>, pp: Parties, c: Circuit, r: DealerRandomness, o: nat, p: nat)
    requires Setup(pp, c, r) && o < |c.inputs| && p < |c.inputs[o]| && |inbox| == pp.n
    requires forall e :: 0 <= e < pp.n ==> MaskShares(inbox[e], pp, c, r, e, o)
    ensures Long(inbox, 0, pp.t + 1, |c.inputs[o]|) && c.inputs[o][p] < |c.gates| && c.gates[c.inputs[o][p]].InputGate?
    ensures HeadsOf(inbox, 0, pp.t + 1, p) == RandVec(pp, c, r, c.inputs[o][p])[..pp.t + 1]
  {
    hide WellFormed, DealerShape, RandVec;
    InputsAre(c, o);
    assert forall e :: 0 <= e <= pp.t ==> MaskShares(inbox[e], pp, c, r, e, o);
  }

  method SendInputsOne(p: PartyDN07, ghost r: DealerRandomness, ghost x: map<nat, Elem>, values: Vec)
    requires p.Ready() && Setup(p.pp, p.c, r) && p.net.Valid() && MasksThere(p.net, p.pp, p.c, r, p.id) && HasInputs(p.c, x)
    requires |values| == |p.c.inputs[p.id]| && forall d :: 0 <= d < |values| ==> p.c.inputs[p.id][d] in x && values[d] == x[p.c.inputs[p.id][d]]
    modifies p.net`inbox, p.net`outbox
    ensures p.net.Valid() && InputsOut(p.net, p.pp, p.c, r, x, p.id)
  {
    hide WellFormed, DealerShape, PartyDN07.InputMsgs, HasInputs, MaskShares, InputSent;
    ghost var inbox, o := p.net.inbox, p.id;
    MaskQueues(inbox, p.pp, p.c, r, o);
    p.InputOwnersReceiveAndSendParties(values);
    assert p.net.inbox == NoMsgs(p.pp.n);
    forall j | 0 <= j < p.pp.n ensures InputSent(p.net.outbox[j], p.pp, p.c, r, x, o, j) {
      InputsSentAre(p, r, x, values, inbox, p.InputMsgs(values, inbox), j, p.net.outbox[j]);
    }
  }

  lemma InputsSentAre(p: PartyDN07, r: DealerRandomness, x: map<nat, Elem>, values: Vec, inbox: seq<Vec>, rows: seq<Vec>, j: nat, queue: Vec)
    requires p.Ready() && Setup(p.pp, p.c, r) && HasInputs(p.c, x) && p.id < |p.c.inputs| && |inbox| == p.pp.n && j < p.pp.n
    requires |values| == |p.c.inputs[p.id]| && forall d :: 0 <= d < |values| ==> p.c.inputs[p.id][d] in x && values[d] == x[p.c.inputs[p.id][d]]
    requires forall e :: 0 <= e < p.pp.n ==> MaskShares(inbox[e], p.pp, p.c, r, e, p.id)
    requires Long(inbox, 0, p.pp.t + 1, |values|) && rows == p.InputMsgs(values, inbox)
    requires queue == if j <= p.pp.t then Entries(rows, j) else []
    ensures InputSent(queue, p.pp, p.c, r, x, p.id, j)
  {
    hide WellFormed, DealerShape, RandVec, InputShares, PartyDN07.InputMsg, Add, HasInputs, HeadsOf, MaskShares;
    InputsAre(p.c, p.id);
    forall d | 0 <= d < |queue|
      ensures Add(queue[d], RandVec(p.pp, p.c, r, p.c.inputs[p.id][d])[j]) == InputShares(p.pp, p.c, r, x, p.c.inputs[p.id][d])[j]
    {
      MaskRound(inbox, p.pp, p.c, r, p.id, d);
      InputPart(p, r, x, p.c.inputs[p.id][d], j);
    }
  }

  lemma MaskQueues(inbox: seq<Vec>, pp: Parties, c: Circuit, r: DealerRandomness, o: nat)
    requires Setup(pp, c, r) && o < |c.inputs| && |inbox| == pp.n && forall e :: 0 <= e < pp.n ==> MaskShares(inbox[e], pp, c, r, e, o)
    ensures Long(inbox, 0, pp.t + 1, |c.inputs[o]|)
    ensures forall e :: 0 <= e < pp.n ==> |inbox[e]| == if e <= pp.t then |c.inputs[o]| else 0
  {
    hide WellFormed, DealerShape, RandVec;
    forall e | 0 <= e < pp.n ensures |inbox[e]| == if e <= pp.t then |c.inputs[o]| else 0 { assert MaskShares(inbox[e], pp, c, r, e, o); }
  }

  /** InputOwnersReceiveAndSendParties at all parties. */
  method SendInputs(ps: seq<PartyDN07>, nets: seq<Net>, tables: seq<WireValues>, ghost pp: Parties, ghost c: Circuit, ghost r: DealerRandomness,
                    ghost x: map<nat, Elem>, values: seq<Vec>)
    requires Together(ps, nets, tables, pp, c, r) && Connected(nets) && HasInputs(c, x) && OwnValues(c, x, values)
    requires forall o :: 0 <= o < pp.n ==> MasksThere(nets[o], pp, c, r, o)
    modifies nets
    ensures Connected(nets) && forall o :: 0 <= o < pp.n ==> InputsOut(nets[o], pp, c, r, x, o)
  {
    hide Together, OwnShares, WellFormed, DealerShape, MasksThere, InputsOut, HasInputs;
    PartyIs(ps, nets, tables, pp, c, r);
    for i := 0 to |ps|
      invariant Connected(nets) && forall o :: i <= o < pp.n ==> MasksThere(nets[o], pp, c, r, o)
      invariant forall o :: 0 <= o < i ==> InputsOut(nets[o], pp, c, r, x, o)
    {
      SendInputsOne(ps[i], r, x, values[i]);
    }
  }

  /** All owners' messages for party j have arrived. */
  ghost predicate InputsThere(net: Net, pp: Parties, c: Circuit, r: DealerRandomness, x: map<nat, Elem>, j: nat)
    requires Setup(pp, c, r) && HasInputs(c, x) && j < pp.n
    reads net
  {
    && |c.inputs| == pp.n == net.n && net.outbox == NoMsgs(pp.n) && |net.inbox| == pp.n
    && forall o :: 0 <= o < pp.n ==> InputSent(net.inbox[o], pp, c, r, x, o, j)
  }

  lemma InputsArrive(nets: seq<Net>, pp: Parties, c: Circuit, r: DealerRandomness, x: map<nat, Elem>)
    requires Setup(pp, c, r) && HasInputs(c, x) && |nets| == pp.n && Connected(nets) && forall o :: 0 <= o < pp.n ==> InputsOut(nets[o], pp, c, r, x, o)
    ensures |c.inputs| == pp.n
    ensures forall j, o :: 0 <= j < pp.n && 0 <= o < pp.n ==> InputSent(Arrived(nets, j)[o], pp, c, r, x, o, j)
  {
    hide WellFormed, DealerShape, InputSent, HasInputs;
    assert InputsOut(nets[0], pp, c, r, x, 0);
    forall j, o | 0 <= j < pp.n && 0 <= o < pp.n ensures InputSent(Arrived(nets, j)[o], pp, c, r, x, o, j) {
      assert InputsOut(nets[j], pp, c, r, x, j) && InputsOut(nets[o], pp, c, r, x, o);
      assert Arrived(nets, j)[o] == nets[o].outbox[j];
    }
  }

  function AfterInputs(pp: Parties, c: Circuit, r: DealerRandomness, x: map<nat, Elem>): State
    requires Setup(pp, c, r) && HasInputs(c, x)
  {
    State(LearnInputs(pp, c, r, x), FDQueue(pp, c, r))
  }

  method TakeInputsOne(p: PartyDN07, ghost r: DealerRandomness, ghost x: map<nat, Elem>)
    requires Setup(p.pp, p.c, r) && HasInputs(p.c, x)
    requires PartyAt(p, r, AfterEarly(p.pp, p.c, r)) && OwnShares(p.pp, r, p.id, p.rShrs, p.dShrs, p.dHighShrs)
    requires p.net.Valid() && InputsThere(p.net, p.pp, p.c, r, x, p.id)
    modifies p.table, p.net`inbox
    ensures p.net.Valid() && Idle(p.net) && PartyAt(p, r, AfterInputs(p.pp, p.c, r, x))
  {
    hide WellFormed, DealerShape, OwnShares, InputShares, PartyDN07.AllMapped, HasInputs, RandVec, FDQueue, PartyDN07.RandOf, Add;
    ghost var inbox := p.net.inbox;
    InputQueues(inbox, p.pp, p.c, r, x, p.id);
    p.InputPartiesReceive();
    assert p.net.inbox == NoMsgs(p.pp.n);
    if p.id <= p.pp.t { InputsLearnt(p, r, x, inbox); }
  }

  lemma InputQueues(inbox: seq<Vec>, pp: Parties, c: Circuit, r: DealerRandomness, x: map<nat, Elem>, j: nat)
    requires Setup(pp, c, r) && HasInputs(c, x) && |c.inputs| == |inbox| == pp.n && j < pp.n
    requires forall o :: 0 <= o < pp.n ==> InputSent(inbox[o], pp, c, r, x, o, j)
    ensures forall o :: 0 <= o < pp.n ==> |inbox[o]| == if j <= pp.t then |c.inputs[o]| else 0
  {
    hide WellFormed, DealerShape, RandVec, HasInputs;
    forall o | 0 <= o < pp.n ensures |inbox[o]| == if j <= pp.t then |c.inputs[o]| else 0 { assert InputSent(inbox[o], pp, c, r, x, o, j); }
  }

  /** What an active party has set is its entry of the shares of the run. */
  lemma InputsLearnt(p: PartyDN07, r: DealerRandomness, x: map<nat, Elem>, inbox: seq<Vec>)
    requires p.Ready() && Setup(p.pp, p.c, r) && OwnShares(p.pp, r, p.id, p.rShrs, p.dShrs, p.dHighShrs) && HasInputs(p.c, x) && p.id <= p.pp.t
    requires |inbox| == |p.c.inputs| == p.pp.n && forall o :: 0 <= o < p.pp.n ==> InputSent(inbox[o], p.pp, p.c, r, x, o, p.id)
    requires forall o :: 0 <= o < p.pp.n ==> |inbox[o]| == |p.c.inputs[o]|
    requires p.table.leaf.Keys == InputIds(p.c)
    requires forall o, d :: 0 <= o < |p.c.inputs| && 0 <= d < |p.c.inputs[o]| ==> p.InputSet(inbox, p.table.leaf, o, d)
    ensures p.table.leaf == PartyLeaves(p.pp, p.c, r, LearnInputs(p.pp, p.c, r, x), p.id)
  {
    hide Topological, OutputsListed, MultsListed, DealerShape, OwnShares, InputShares, HasInputs, RandVec, PartyDN07.RandOf, Add;
    var want := PartyLeaves(p.pp, p.c, r, LearnInputs(p.pp, p.c, r, x), p.id);
    forall g | g in InputIds(p.c) ensures p.table.leaf[g] == want[g] {
      var o := p.c.gates[g].owner;
      var d := IndexOf(p.c.inputs[o], g);
      assert InputSent(inbox[o], p.pp, p.c, r, x, o, p.id) && p.InputSet(inbox, p.table.leaf, o, d);
      OwnParts(p, r, g);
    }
  }

  /** InputPartiesReceive at all parties. */
  method TakeInputs(ps: seq<PartyDN07>, nets: seq<Net>, tables: seq<WireValues>, ghost pp: Parties, ghost c: Circuit, ghost r: DealerRandomness,
                    ghost x: map<nat, Elem>)
    requires Together(ps, nets, tables, pp, c, r) && Connected(nets) && HasInputs(c, x)
    requires forall i :: 0 <= i < pp.n ==> PartyAt(ps[i], r, AfterEarly(pp, c, r)) && InputsThere(nets[i], pp, c, r, x, i)
    modifies nets, tables
    ensures AllAt(ps, nets, tables, pp, c, r, AfterInputs(pp, c, r, x))
  {
    hide Together, OwnShares, WellFormed, DealerShape, InputsThere, PartyAt, Idle, HasInputs, AfterEarly, AfterInputs, PartyDN07.Ready;
    PartyIs(ps, nets, tables, pp, c, r);
    OwnAll(ps, nets, tables, pp, c, r);
    for i := 0 to |ps|
      invariant Connected(nets) && forall e :: i <= e < pp.n ==> PartyAt(ps[e], r, AfterEarly(pp, c, r)) && InputsThere(nets[e], pp, c, r, x, e)
      invariant forall e :: 0 <= e < i ==> PartyAt(ps[e], r, AfterInputs(pp, c, r, x)) && Idle(nets[e])
    {
      TakeInputsOne(ps[i], r, x);
    }
  }

  /** The input phase of all parties: every active party holds its shares of all inputs as in the run. */
  method InputPhase(ps: seq<PartyDN07>, nets: seq<Net>, tables: seq<WireValues>, ghost pp: Parties, ghost c: Circuit, ghost r: DealerRandomness,
                    ghost x: map<nat, Elem>, values: seq<Vec>)
    requires Setup(pp, c, r) && AllAt(ps, nets, tables, pp, c, r, AfterEarly(pp, c, r)) && HasInputs(c, x) && OwnValues(c, x, values)
    modifies nets, tables
    ensures AllAt(ps, nets, tables, pp, c, r, AfterInputs(pp, c, r, x))
  {
    hide Together, WellFormed, DealerShape, MasksOut, InputsOut, PartyAt, Idle, HasInputs, AfterEarly, AfterInputs, OwnValues, MaskShares, InputSent, Arrived;
    PartyIs(ps, nets, tables, pp, c, r);
    SendMasks(ps, nets, tables, pp, c, r, AfterEarly(pp, c, r));
    MasksArrive(nets, pp, c, r);
    Deliver(nets);
    SendInputs(ps, nets, tables, pp, c, r, x, values);
    InputsArrive(nets, pp, c, r, x);
    Deliver(nets);
    TakeInputs(ps, nets, tables, pp, c, r, x);
  }

  // ---- One layer ----

  /** P1 still has a vector for every gate of the layer, and none of the gates has shares yet. */
  ghost predicate Next(pp: Parties, c: Circuit, r: DealerRandomness, s: State, l: nat) {
    && Setup(pp, c, r) && StateShape(pp, c, s) && l < |c.mults| && |s.queue| >= |c.mults[l]|
    && forall p :: 0 <= p < |c.mults[l]| ==> c.mults[l][p] !in s.active
  }

  /** Gate p of the layer, with the vector P1 pops for it. */
  lemma NextGate(pp: Parties, c: Circuit, r: DealerRandomness, s: State, l: nat, p: nat)
    requires Next(pp, c, r, s, l) && p < |c.mults[l]|
    ensures c.mults[l][p] < |c.gates| && c.gates[c.mults[l][p]].MultGate? && |s.queue[p]| == pp.n - (pp.t + 1)
    ensures LayerReady(c, s.active.Keys, l) ==> OperandsKnown(c, s.active.Keys, c.mults[l][p])
    ensures IndexOf(c.mults[l], c.mults[l][p]) == p
  {
    hide DealerShape, Topological, InputsListed, OutputsListed;
  }

  /** Message p of active party e is its entry of what P1 assembles for gate p. */
  ghost predicate ProductSent(queue: Vec, pp: Parties, c: Circuit, r: DealerRandomness, s: State, l: nat, e: nat) {
    && Next(pp, c, r, s, l) && LayerReady(c, s.active.Keys, l) && e < pp.n && |queue| == (if e <= pp.t then |c.mults[l]| else 0)
    && forall p :: 0 <= p < |queue| ==> ProductAt(queue[p], pp, c, r, s, l, e, p)
  }

  ghost predicate ProductAt(v: Elem, pp: Parties, c: Circuit, r: DealerRandomness, s: State, l: nat, e: nat, p: nat)
    requires Next(pp, c, r, s, l) && LayerReady(c, s.active.Keys, l) && e < pp.n && p < |c.mults[l]|
  {
    NextGate(pp, c, r, s, l, p);
    v == Assembled(pp, c, r, s.active, c.mults[l][p], s.queue[p])[e]
  }

  ghost predicate ProductsOut(net: Net, pp: Parties, c: Circuit, r: DealerRandomness, s: State, l: nat, e: nat)
    reads net
  {
    && net.n == pp.n > 0 && net.inbox == NoMsgs(pp.n) && |net.outbox| == pp.n && net.outbox == NoMsgs(pp.n)[0 := net.outbox[0]]
    && ProductSent(net.outbox[0], pp, c, r, s, l, e)
  }

  method SendProductsOne(p: PartyDN07, ghost r: DealerRandomness, ghost s: State, l: nat) returns (ok: bool)
    requires PartyAt(p, r, s) && OwnShares(p.pp, r, p.id, p.rShrs, p.dShrs, p.dHighShrs) && Next(p.pp, p.c, r, s, l) && p.net.Valid() && Idle(p.net)
    modifies p.table, p.net`outbox
    ensures p.net.Valid() && PartyAt(p, r, s)
    ensures ok <==> p.id > p.pp.t || LayerReady(p.c, s.active.Keys, l)
    ensures ok && LayerReady(p.c, s.active.Keys, l) ==> ProductsOut(p.net, p.pp, p.c, r, s, l, p.id)
  {
    hide WellFormed, DealerShape, OwnShares, PartyDN07.AllMapped, Assembled, PartyDN07.ActiveShareOf, OperandsKnown, LayerReady;
    ok := p.MultPartiesSendP1(l);
    if ok && LayerReady(p.c, s.active.Keys, l) && p.id <= p.pp.t {
      forall q | 0 <= q < |p.c.mults[l]| ensures ProductAt(p.net.outbox[0][q], p.pp, p.c, r, s, l, p.id, q) {
        NextGate(p.pp, p.c, r, s, l, q);
        ActivePart(p, r, s.active, p.c.mults[l][q], s.queue[q]);
      }
    }
  }

  /** MultPartiesSendP1 at all parties: throws exactly when the layer reads a wire without shares. */
  method SendProducts(ps: seq<PartyDN07>, nets: seq<Net>, tables: seq<WireValues>, ghost pp: Parties, ghost c: Circuit, ghost r: DealerRandomness,
                      ghost s: State, l: nat) returns (ok: bool)
    requires AllAt(ps, nets, tables, pp, c, r, s) && Next(pp, c, r, s, l) && l < |c.mults|
    modifies nets, tables
    ensures Connected(nets) && (ok <==> LayerReady(c, s.active.Keys, l))
    ensures ok ==> OnlyToFirst(nets) && forall i :: 0 <= i < pp.n ==> PartyAt(ps[i], r, s) && ProductsOut(nets[i], pp, c, r, s, l, i)
  {
    hide Together, OwnShares, WellFormed, DealerShape, PartyAt, Idle, ProductsOut, LayerReady, Next, PartyDN07.Ready;
    PartyIs(ps, nets, tables, pp, c, r);
    OwnAll(ps, nets, tables, pp, c, r);
    for i := 0 to |ps|
      invariant Connected(nets) && (i > 0 ==> LayerReady(c, s.active.Keys, l))
      invariant forall e :: 0 <= e < pp.n ==> PartyAt(ps[e], r, s)
      invariant forall e :: i <= e < pp.n ==> Idle(nets[e])
      invariant forall e :: 0 <= e < i ==> ProductsOut(nets[e], pp, c, r, s, l, e)
    {
      var sent := SendProductsOne(ps[i], r, s, l);
      if !sent { return false; }
    }
    ProductsToFirst(nets, pp, c, r, s, l);
    return true;
  }

  lemma ProductsToFirst(nets: seq<Net>, pp: Parties, c: Circuit, r: DealerRandomness, s: State, l: nat)
    requires |nets| == pp.n && Connected(nets) && forall i :: 0 <= i < pp.n ==> ProductsOut(nets[i], pp, c, r, s, l, i)
    ensures OnlyToFirst(nets)
  {
    hide ProductSent;
    forall i | 0 <= i < pp.n ensures nets[i].inbox == NoMsgs(pp.n) && nets[i].outbox == NoMsgs(pp.n)[0 := nets[i].outbox[0]] {
      assert ProductsOut(nets[i], pp, c, r, s, l, i);
    }
  }

  /** P1 holds everybody's messages for the layer. */
  ghost predicate ProductsThere(inbox: seq<Vec>, pp: Parties, c: Circuit, r: DealerRandomness, s: State, l: nat) {
    |inbox| == pp.n && forall e :: 0 <= e < pp.n ==> ProductSent(inbox[e], pp, c, r, s, l, e)
  }

  /** The p-th round of messages is what P1 assembles for gate p, up to the shares it has already. */
  lemma ProductRound(inbox: seq<Vec>, pp: Parties, c: Circuit, r: DealerRandomness, s: State, l: nat, p: nat)
    requires ProductsThere(inbox, pp, c, r, s, l) && Next(pp, c, r, s, l) && LayerReady(c, s.active.Keys, l) && p < |c.mults[l]|
    ensures Long(inbox, 0, pp.t + 1, |c.mults[l]|) && c.mults[l][p] < |c.gates| && c.gates[c.mults[l][p]].MultGate?
    ensures OperandsKnown(c, s.active.Keys, c.mults[l][p]) && |s.queue[p]| == pp.n - (pp.t + 1)
    ensures HeadsOf(inbox, 0, pp.t + 1, p) == Assembled(pp, c, r, s.active, c.mults[l][p], s.queue[p])[..pp.t + 1]
  {
    hide WellFormed, DealerShape, Assembled, LayerReady, Next, OperandsKnown;
    NextSetup(pp, c, r, s, l);
    ProductQueues(inbox, pp, c, r, s, l);
    NextGate(pp, c, r, s, l, p);
    var want := Assembled(pp, c, r, s.active, c.mults[l][p], s.queue[p])[..pp.t + 1];
    forall e | 0 <= e <= pp.t ensures inbox[e][p] == want[e] {
      assert ProductSent(inbox[e], pp, c, r, s, l, e);
      assert ProductAt(inbox[e][p], pp, c, r, s, l, e, p);
    }
  }

  lemma ProductQueues(inbox: seq<Vec>, pp: Parties, c: Circuit, r: DealerRandomness, s: State, l: nat)
    requires ProductsThere(inbox, pp, c, r, s, l) && Next(pp, c, r, s, l)
    ensures Setup(pp, c, r) && l < |c.mults| && Long(inbox, 0, pp.t + 1, |c.mults[l]|)
    ensures forall e :: 0 <= e < pp.n ==> |inbox[e]| == if e <= pp.t then |c.mults[l]| else 0
  {
    hide WellFormed, DealerShape, LayerReady, ProductAt;
    forall e | 0 <= e < pp.n ensures |inbox[e]| == if e <= pp.t then |c.mults[l]| else 0 { assert ProductSent(inbox[e], pp, c, r, s, l, e); }
  }

  /** Answer p to party j, with the party's double sharing, is its share of gate p. */
  ghost predicate AnswerSent(queue: Vec, pp: Parties, c: Circuit, r: DealerRandomness, s: State, l: nat, j: nat) {
    && Next(pp, c, r, s, l) && LayerReady(c, s.active.Keys, l) && j < pp.n && |queue| == (if j <= pp.t then |c.mults[l]| else 0)
    && forall p :: 0 <= p < |queue| ==> AnswerAt(queue[p], pp, c, r, s, l, j, p)
  }

  ghost predicate AnswerAt(v: Elem, pp: Parties, c: Circuit, r: DealerRandomness, s: State, l: nat, j: nat, p: nat)
    requires Next(pp, c, r, s, l) && LayerReady(c, s.active.Keys, l) && j <= pp.t < pp.n && p < |c.mults[l]|
  {
    NextGate(pp, c, r, s, l, p);
    Add(v, LowVec(pp, c, r, c.mults[l][p])[j]) == MultShares(pp, c, r, s.active, c.mults[l][p], s.queue[p])[j]
  }

  ghost predicate AtP1(net: Net, pp: Parties, c: Circuit, r: DealerRandomness, s: State, l: nat)
    reads net
  {
    net.outbox == NoMsgs(pp.n) && ProductsThere(net.inbox, pp, c, r, s, l)
  }

  ghost predicate AnswersOut(net: Net, pp: Parties, c: Circuit, r: DealerRandomness, s: State, l: nat)
    reads net
  {
    && net.n == pp.n && net.inbox == NoMsgs(pp.n) && |net.outbox| == pp.n
    && forall j :: 0 <= j < pp.n ==> AnswerSent(net.outbox[j], pp, c, r, s, l, j)
  }

  function Popped(s: State, m: nat): State
    requires m <= |s.queue|
  {
    State(s.active, s.queue[m..])
  }

  /** MultP1ReceivesAndSendsParties at one party. */
  method OpenOne(p: PartyDN07, ghost r: DealerRandomness, ghost s: State, l: nat)
    requires PartyAt(p, r, s) && Next(p.pp, p.c, r, s, l) && LayerReady(p.c, s.active.Keys, l) && p.net.Valid()
    requires p.id > 0 ==> Idle(p.net)
    requires p.id == 0 ==> AtP1(p.net, p.pp, p.c, r, s, l)
    modifies p`sharesFromLast, p`sharesToSend, p.net`inbox, p.net`outbox
    ensures p.net.Valid() && PartyAt(p, r, Popped(s, |p.c.mults[l]|)) && (p.id > 0 ==> Idle(p.net))
    ensures p.id == 0 ==> AnswersOut(p.net, p.pp, p.c, r, s, l)
  {
    hide WellFormed, DealerShape, PartyDN07.AllMapped, PartyDN07.Opened, LayerReady, ProductSent, HeadsOf;
    ghost var inbox, m := p.net.inbox, |p.c.mults[l]|;
    if p.id == 0 { ProductQueues(inbox, p.pp, p.c, r, s, l); }
    p.MultP1Receives(l);
    ghost var rows := p.sharesToSend;
    if p.id == 0 { assert rows[..m] == rows && rows == p.OpenedRows(inbox, s.queue, m); }
    p.MultP1SendsParties(l);
    if p.id == 0 {
      assert p.net.inbox == NoMsgs(p.pp.n);
      forall j | 0 <= j < p.pp.n ensures AnswerSent(p.net.outbox[j], p.pp, p.c, r, s, l, j) {
        AnswersAre(p, r, s, l, inbox, rows, j, p.net.outbox[j]);
      }
    }
  }

  lemma AnswersAre(p: PartyDN07, r: DealerRandomness, s: State, l: nat, inbox: seq<Vec>, rows: seq<Vec>, j: nat, queue: Vec)
    requires p.Ready() && Next(p.pp, p.c, r, s, l) && LayerReady(p.c, s.active.Keys, l) && ProductsThere(inbox, p.pp, p.c, r, s, l) && j < p.pp.n
    requires Long(inbox, 0, p.pp.t + 1, |p.c.mults[l]|) && forall x :: 0 <= x < |p.c.mults[l]| ==> |s.queue[x]| == p.pp.n - (p.pp.t + 1)
    requires rows == p.OpenedRows(inbox, s.queue, |p.c.mults[l]|)
    requires queue == if j <= p.pp.t then Entries(rows, j) else []
    ensures AnswerSent(queue, p.pp, p.c, r, s, l, j)
  {
    hide WellFormed, DealerShape, PartyDN07.Opened, LayerReady, ProductsThere, HeadsOf, MultShares, LowVec, Next, OperandsKnown;
    NextSetup(p.pp, p.c, r, s, l);
    forall q | 0 <= q < |queue| ensures AnswerAt(queue[q], p.pp, p.c, r, s, l, j, q) {
      ProductRound(inbox, p.pp, p.c, r, s, l, q);
      NewSharePart(p, r, s.active, p.c.mults[l][q], HeadsOf(inbox, 0, p.pp.t + 1, q), s.queue[q], j);
    }
  }

  lemma NextSetup(pp: Parties, c: Circuit, r: DealerRandomness, s: State, l: nat)
    requires Next(pp, c, r, s, l)
    ensures Setup(pp, c, r) && pp.Admitted() && StateShape(pp, c, s) && l < |c.mults| && |s.queue| >= |c.mults[l]|
    ensures forall p :: 0 <= p < |c.mults[l]| ==> c.mults[l][p] !in s.active
  {
  }

  /** MultP1ReceivesAndSendsParties at all parties. */
  method Open(ps: seq<PartyDN07>, nets: seq<Net>, tables: seq<WireValues>, ghost pp: Parties, ghost c: Circuit, ghost r: DealerRandomness, ghost s: State, l: nat)
    requires Together(ps, nets, tables, pp, c, r) && Connected(nets) && Next(pp, c, r, s, l) && l < |c.mults| && LayerReady(c, s.active.Keys, l)
    requires |c.mults[l]| <= |s.queue| && forall i :: 0 <= i < pp.n ==> PartyAt(ps[i], r, s)
    requires pp.n > 0 && AtP1(nets[0], pp, c, r, s, l) && forall i :: 0 < i < pp.n ==> Idle(nets[i])
    modifies ps`sharesFromLast, ps`sharesToSend, nets
    ensures Connected(nets) && AnswersOut(nets[0], pp, c, r, s, l) && forall i :: 0 < i < pp.n ==> Idle(nets[i])
    ensures forall i :: 0 <= i < pp.n ==> PartyAt(ps[i], r, Popped(s, |c.mults[l]|))
  {
    hide Together, OwnShares, Setup, WellFormed, PartyAt, LayerReady, Next, AtP1, AnswersOut, Popped, Idle, PartyDN07.Ready;
    PartyIs(ps, nets, tables, pp, c, r);
    for i := 0 to |ps|
      invariant Connected(nets) && forall e :: 0 < e < pp.n ==> Idle(nets[e])
      invariant forall e :: i <= e < pp.n ==> PartyAt(ps[e], r, s)
      invariant forall e :: 0 <= e < i ==> PartyAt(ps[e], r, Popped(s, |c.mults[l]|))
      invariant if i == 0 then AtP1(nets[0], pp, c, r, s, l) else AnswersOut(nets[0], pp, c, r, s, l)
    {
      OpenOne(ps[i], r, s, l);
    }
  }

  /** P1's answers to party j have arrived. */
  ghost predicate AnswersThere(net: Net, pp: Parties, c: Circuit, r: DealerRandomness, s: State, l: nat, j: nat)
    reads net
  {
    && net.n == pp.n > 0 && net.outbox == NoMsgs(pp.n) && |net.inbox| == pp.n && net.inbox == NoMsgs(pp.n)[0 := net.inbox[0]]
    && AnswerSent(net.inbox[0], pp, c, r, s, l, j)
  }

  /** The state after the layer. */
  function After(pp: Parties, c: Circuit, r: DealerRandomness, s: State, l: nat): State
    requires Setup(pp, c, r) && StateShape(pp, c, s) && l < |c.mults| && |s.queue| >= |c.mults[l]| && LayerReady(c, s.active.Keys, l)
  {
    RunLayer(pp, c, r, s, l).value
  }

  method TakeAnswersOne(p: PartyDN07, ghost r: DealerRandomness, ghost s: State, l: nat)
    requires Next(p.pp, p.c, r, s, l) && Setup(p.pp, p.c, r) && StateShape(p.pp, p.c, s) && l < |p.c.mults| && |s.queue| >= |p.c.mults[l]|
    requires LayerReady(p.c, s.active.Keys, l) && PartyAt(p, r, Popped(s, |p.c.mults[l]|)) && OwnShares(p.pp, r, p.id, p.rShrs, p.dShrs, p.dHighShrs)
    requires p.net.Valid() && AnswersThere(p.net, p.pp, p.c, r, s, l, p.id)
    modifies p.table, p.net`inbox
    ensures p.net.Valid() && Idle(p.net) && PartyAt(p, r, After(p.pp, p.c, r, s, l))
  {
    hide WellFormed, DealerShape, OwnShares, PartyDN07.AllMapped, AnswerAt, LayerReady, PartyDN07.LowOf, Add, MultShares;
    MultGates(p.c, l);
    ghost var inbox, before := p.net.inbox, p.table.leaf;
    p.MultPartiesReceive(l);
    assert p.net.inbox == NoMsgs(p.pp.n);
    if p.id <= p.pp.t { LayerLearnt(p, r, s, l, before, inbox[0]); }
  }

  lemma LayerLearnt(p: PartyDN07, r: DealerRandomness, s: State, l: nat, before: map<nat, Elem>, queue: Vec)
    requires p.Ready() && Next(p.pp, p.c, r, s, l) && Setup(p.pp, p.c, r) && StateShape(p.pp, p.c, s) && l < |p.c.mults| && |s.queue| >= |p.c.mults[l]|
    requires LayerReady(p.c, s.active.Keys, l) && OwnShares(p.pp, r, p.id, p.rShrs, p.dShrs, p.dHighShrs) && p.id <= p.pp.t
    requires AnswerSent(queue, p.pp, p.c, r, s, l, p.id) && before == PartyLeaves(p.pp, p.c, r, s.active, p.id)
    requires forall q :: 0 <= q < |p.c.mults[l]| ==> p.c.mults[l][q] < |p.c.gates| && p.c.gates[p.c.mults[l][q]].MultGate?
    requires p.table.leaf.Keys == before.Keys + LayerIds(p.c, l) && forall g :: g in before ==> g in p.table.leaf && p.table.leaf[g] == before[g]
    requires forall q :: 0 <= q < |p.c.mults[l]| ==>
               p.c.mults[l][q] in p.table.leaf && p.table.leaf[p.c.mults[l][q]] == Add(queue[q], p.LowOf(p.c.mults[l][q]))
    ensures p.table.leaf == PartyLeaves(p.pp, p.c, r, After(p.pp, p.c, r, s, l).active, p.id)
  {
    hide WellFormed, DealerShape, OwnShares, LayerReady, PartyDN07.LowOf, Add, MultShares, IndexOf, Next, AnswerSent;
    var next := After(p.pp, p.c, r, s, l).active;
    var want := PartyLeaves(p.pp, p.c, r, next, p.id);
    forall g | g in want ensures g in p.table.leaf && p.table.leaf[g] == want[g] {
      if g in LayerIds(p.c, l) {
        var q :| 0 <= q < |p.c.mults[l]| && p.c.mults[l][q] == g;
        GateLearnt(p, r, s, l, queue, q);
      } else {
        assert next[g] == s.active[g];
      }
    }
    assert p.table.leaf.Keys == want.Keys;
  }

  lemma GateLearnt(p: PartyDN07, r: DealerRandomness, s: State, l: nat, queue: Vec, q: nat)
    requires p.Ready() && Next(p.pp, p.c, r, s, l) && Setup(p.pp, p.c, r) && StateShape(p.pp, p.c, s) && l < |p.c.mults| && |s.queue| >= |p.c.mults[l]|
    requires LayerReady(p.c, s.active.Keys, l) && OwnShares(p.pp, r, p.id, p.rShrs, p.dShrs, p.dHighShrs) && p.id <= p.pp.t && q < |p.c.mults[l]|
    requires AnswerSent(queue, p.pp, p.c, r, s, l, p.id) && p.c.mults[l][q] < |p.c.gates| && p.c.gates[p.c.mults[l][q]].MultGate?
    ensures p.c.mults[l][q] in After(p.pp, p.c, r, s, l).active
    ensures Add(queue[q], p.LowOf(p.c.mults[l][q])) == After(p.pp, p.c, r, s, l).active[p.c.mults[l][q]][p.id]
  {
    hide WellFormed, DealerShape, OwnShares, LayerReady, PartyDN07.LowOf, Add, MultShares, LowVec, IndexOf;
    NextGate(p.pp, p.c, r, s, l, q);
    assert AnswerAt(queue[q], p.pp, p.c, r, s, l, p.id, q);
    OwnParts(p, r, p.c.mults[l][q]);
  }

  /** MultPartiesReceive at all parties. */
  method TakeAnswers(ps: seq<PartyDN07>, nets: seq<Net>, tables: seq<WireValues>, ghost pp: Parties, ghost c: Circuit, ghost r: DealerRandomness, ghost s: State, l: nat)
    requires Together(ps, nets, tables, pp, c, r) && Connected(nets) && Next(pp, c, r, s, l)
    requires Setup(pp, c, r) && StateShape(pp, c, s) && l < |c.mults| && |s.queue| >= |c.mults[l]| && LayerReady(c, s.active.Keys, l)
    requires forall i :: 0 <= i < pp.n ==> PartyAt(ps[i], r, Popped(s, |c.mults[l]|)) && AnswersThere(nets[i], pp, c, r, s, l, i)
    modifies nets, tables
    ensures AllAt(ps, nets, tables, pp, c, r, After(pp, c, r, s, l))
  {
    hide Together, OwnShares, Setup, WellFormed, StateShape, PartyAt, LayerReady, Next, AnswersThere, Popped, After, Idle, PartyDN07.Ready;
    PartyIs(ps, nets, tables, pp, c, r);
    OwnAll(ps, nets, tables, pp, c, r);
    for i := 0 to |ps|
      invariant Connected(nets)
      invariant forall e :: i <= e < pp.n ==> PartyAt(ps[e], r, Popped(s, |c.mults[l]|)) && AnswersThere(nets[e], pp, c, r, s, l, e)
      invariant forall e :: 0 <= e < i ==> PartyAt(ps[e], r, After(pp, c, r, s, l)) && Idle(nets[e])
    {
      TakeAnswersOne(ps[i], r, s, l);
    }
  }

  lemma ProductsArrive(nets: seq<Net>, pp: Parties, c: Circuit, r: DealerRandomness, s: State, l: nat)
    requires |nets| == pp.n > 0 && Connected(nets) && OnlyToFirst(nets) && forall i :: 0 <= i < pp.n ==> ProductsOut(nets[i], pp, c, r, s, l, i)
    ensures ProductsThere(Arrived(nets, 0), pp, c, r, s, l)
  {
    hide ProductSent, Arrived;
    AtFirst(nets);
    forall e | 0 <= e < pp.n ensures ProductSent(Arrived(nets, 0)[e], pp, c, r, s, l, e) { assert ProductsOut(nets[e], pp, c, r, s, l, e); }
  }

  lemma AnswersArrive(nets: seq<Net>, pp: Parties, c: Circuit, r: DealerRandomness, s: State, l: nat)
    requires |nets| == pp.n > 0 && Connected(nets) && AnswersOut(nets[0], pp, c, r, s, l) && forall i :: 0 < i < pp.n ==> Idle(nets[i])
    ensures OnlyFirstSends(nets)
    ensures forall j :: 0 <= j < pp.n ==> Arrived(nets, j) == NoMsgs(pp.n)[0 := Arrived(nets, j)[0]] && AnswerSent(Arrived(nets, j)[0], pp, c, r, s, l, j)
  {
    hide AnswerSent, Arrived;
    FirstArrives(nets);
  }

  /** One layer at all parties: it throws exactly where RunLayer has no value, and otherwise all parties
      are at the state RunLayer gives. */
  method MultLayer(ps: seq<PartyDN07>, nets: seq<Net>, tables: seq<WireValues>, ghost pp: Parties, ghost c: Circuit, ghost r: DealerRandomness, ghost s: State, l: nat)
      returns (ok: bool)
    requires AllAt(ps, nets, tables, pp, c, r, s) && Next(pp, c, r, s, l)
    requires Setup(pp, c, r) && StateShape(pp, c, s) && l < |c.mults| && |s.queue| >= |c.mults[l]|
    modifies ps`sharesFromLast, ps`sharesToSend, nets, tables
    ensures ok <==> RunLayer(pp, c, r, s, l).Some?
    ensures ok ==> AllAt(ps, nets, tables, pp, c, r, RunLayer(pp, c, r, s, l).value)
  {
    hide Together, OwnShares, Setup, WellFormed, StateShape, PartyAt, LayerReady, Next, ProductsOut, ProductsThere, AnswersOut, AnswerSent, Popped,
      Idle, PartyDN07.Ready, Arrived, OnlyToFirst, OnlyFirstSends, RunLayer;
    PartyIs(ps, nets, tables, pp, c, r);
    ok := SendProducts(ps, nets, tables, pp, c, r, s, l);
    if !ok { return; }
    ProductsArrive(nets, pp, c, r, s, l);
    AtFirst(nets);
    Deliver(nets);
    Quiet(nets);
    Open(ps, nets, tables, pp, c, r, s, l);
    AnswersArrive(nets, pp, c, r, s, l);
    Deliver(nets);
    TakeAnswers(ps, nets, tables, pp, c, r, s, l);
  }

  // ---- All layers ----

  lemma LayerIsNext(pp: Parties, c: Circuit, r: DealerRandomness, x: map<nat, Elem>, l: nat)
    requires Setup(pp, c, r) && HasInputs(c, x) && l < |c.mults| && RunLayers(pp, c, r, x, l).Some?
    ensures var s := RunLayers(pp, c, r, x, l).value;
            Next(pp, c, r, s, l) && StateShape(pp, c, s) && |s.queue| >= |c.mults[l]| && RunLayers(pp, c, r, x, l + 1) == RunLayer(pp, c, r, s, l)
  {
    hide Topological, InputsListed, OutputsListed, DealerShape, RunLayer, FDQueue, LearnInputs, Offset;
    DN07Correct.LayersGoThrough(pp, c, r, x, l);
    QueueStep(pp, c, r, RunLayers(pp, c, r, x, l).value.queue, l);
  }

  /** Where a layer has no value no longer run has one. */
  lemma NoneStays(pp: Parties, c: Circuit, r: DealerRandomness, x: map<nat, Elem>, l: nat)
    requires Setup(pp, c, r) && HasInputs(c, x) && l <= |c.mults| && RunLayers(pp, c, r, x, l).None?
    ensures RunLayers(pp, c, r, x, |c.mults|).None?
  {
    hide WellFormed, DealerShape, HasInputs, RunLayers, LayerReads;
    DN07Correct.LayersGoThrough(pp, c, r, x, l);
    DN07Correct.LayersGoThrough(pp, c, r, x, |c.mults|);
  }

  lemma FirstState(pp: Parties, c: Circuit, r: DealerRandomness, x: map<nat, Elem>)
    requires Setup(pp, c, r) && HasInputs(c, x)
    ensures RunLayers(pp, c, r, x, 0) == Some(AfterInputs(pp, c, r, x))
  {
    hide WellFormed, DealerShape, HasInputs, FDQueue, LearnInputs;
  }

  /** All layers at all parties. */
  method MultLayers(ps: seq<PartyDN07>, nets: seq<Net>, tables: seq<WireValues>, ghost pp: Parties, c: Circuit, ghost r: DealerRandomness, ghost x: map<nat, Elem>)
      returns (ok: bool)
    requires Setup(pp, c, r) && HasInputs(c, x) && AllAt(ps, nets, tables, pp, c, r, AfterInputs(pp, c, r, x))
    modifies ps`sharesFromLast, ps`sharesToSend, nets, tables
    ensures ok <==> RunLayers(pp, c, r, x, |c.mults|).Some?
    ensures ok ==> AllAt(ps, nets, tables, pp, c, r, RunLayers(pp, c, r, x, |c.mults|).value)
  {
    hide Setup, HasInputs, AllAt, Next, StateShape, RunLayers, RunLayer, AfterInputs;
    FirstState(pp, c, r, x);
    for l := 0 to |c.mults|
      invariant RunLayers(pp, c, r, x, l).Some? && AllAt(ps, nets, tables, pp, c, r, RunLayers(pp, c, r, x, l).value)
    {
      LayerIsNext(pp, c, r, x, l);
      var done := MultLayer(ps, nets, tables, pp, c, r, RunLayers(pp, c, r, x, l).value, l);
      if !done {
        NoneStays(pp, c, r, x, l + 1);
        return false;
      }
    }
    return true;
  }

  // ---- Outputs ----

  ghost predicate OutputsKnown(c: Circuit, dom: set<nat>)
    requires WellFormed(c)
  {
    forall o, p :: 0 <= o < |c.outputs| && 0 <= p < |c.outputs[o]| ==> Known(c, dom, c.outputs[o][p])
  }

  /** Party e's shares of owner o's outputs. */
  ghost predicate OutputSent(queue: Vec, pp: Parties, c: Circuit, r: DealerRandomness, s: State, o: nat, e: nat) {
    && Setup(pp, c, r) && ActiveShape(pp, c, s.active) && OutputsKnown(c, s.active.Keys) && e < pp.n && o < |c.outputs|
    && |queue| == (if e <= pp.t then |c.outputs[o]| else 0)
    && forall p :: 0 <= p < |queue| ==> queue[p] == WireShare(pp, c, r, s.active, e, c.outputs[o][p])
  }

  ghost predicate OutputsOut(net: Net, pp: Parties, c: Circuit, r: DealerRandomness, s: State, e: nat)
    reads net
  {
    && |c.outputs| == pp.n == net.n && net.inbox == NoMsgs(pp.n) && |net.outbox| == pp.n
    && forall o :: 0 <= o < pp.n ==> OutputSent(net.outbox[o], pp, c, r, s, o, e)
  }

  method SendOutputsOne(p: PartyDN07, ghost r: DealerRandomness, ghost s: State) returns (ok: bool)
    requires PartyAt(p, r, s) && |p.c.outputs| == p.pp.n && p.net.Valid() && Idle(p.net)
    modifies p.table`memo, p.net`outbox
    ensures p.net.Valid()
    ensures ok <==> p.id > p.pp.t || OutputsKnown(p.c, s.active.Keys)
    ensures ok && OutputsKnown(p.c, s.active.Keys) ==> OutputsOut(p.net, p.pp, p.c, r, s, p.id)
  {
    hide Topological, InputsListed, MultsListed, DealerShape, PartyDN07.AllMapped, Known, Spread;
    ok := p.OutputPartiesSendOwners();
    if p.id <= p.pp.t {
      KnownByOwner(p, p.table.leaf);
    }
    if ok && OutputsKnown(p.c, s.active.Keys) {
      forall o | 0 <= o < p.pp.n ensures OutputSent(p.net.outbox[o], p.pp, p.c, r, s, o, p.id) {
        if p.id <= p.pp.t {
          assert p.net.outbox[o] == p.OutputRow(p.table.leaf, o);
        }
      }
    }
  }

  lemma KnownByOwner(p: PartyDN07, leaf: map<nat, Elem>)
    requires p.Ready()
    ensures OutputsKnown(p.c, leaf.Keys) <==> forall o :: 0 <= o < |p.c.outputs| ==> p.OutputsKnown(leaf, o)
  {
    hide Topological, InputsListed, MultsListed, Known;
    if OutputsKnown(p.c, leaf.Keys) {
      forall o | 0 <= o < |p.c.outputs| ensures p.OutputsKnown(leaf, o) { }
    }
    if forall o :: 0 <= o < |p.c.outputs| ==> p.OutputsKnown(leaf, o) {
      forall o, q | 0 <= o < |p.c.outputs| && 0 <= q < |p.c.outputs[o]| ensures Known(p.c, leaf.Keys, p.c.outputs[o][q]) {
        assert p.OutputsKnown(leaf, o);
      }
    }
  }

  /** OutputPartiesSendOwners at all parties. */
  method SendOutputs(ps: seq<PartyDN07>, nets: seq<Net>, tables: seq<WireValues>, ghost pp: Parties, ghost c: Circuit, ghost r: DealerRandomness, ghost s: State)
      returns (ok: bool)
    requires WellFormed(c) && AllAt(ps, nets, tables, pp, c, r, s)
    modifies nets, tables
    ensures Connected(nets) && (ok <==> OutputsKnown(c, s.active.Keys))
    ensures ok ==> forall i :: 0 <= i < pp.n ==> OutputsOut(nets[i], pp, c, r, s, i)
  {
    hide Together, OwnShares, Setup, WellFormed, PartyAt, Idle, OutputsOut, OutputsKnown, PartyDN07.Ready;
    PartyIs(ps, nets, tables, pp, c, r);
    for i := 0 to |ps|
      invariant Connected(nets) && (i > 0 ==> OutputsKnown(c, s.active.Keys))
      invariant forall e :: i <= e < pp.n ==> PartyAt(ps[e], r, s) && Idle(nets[e])
      invariant forall e :: 0 <= e < i ==> OutputsOut(nets[e], pp, c, r, s, e)
    {
      var sent := SendOutputsOne(ps[i], r, s);
      if !sent { return false; }
    }
    return true;
  }

  ghost predicate OutputsThere(net: Net, pp: Parties, c: Circuit, r: DealerRandomness, s: State, o: nat)
    reads net
  {
    && |c.outputs| == pp.n == net.n && net.outbox == NoMsgs(pp.n) && |net.inbox| == pp.n && o < pp.n
    && forall e :: 0 <= e < pp.n ==> OutputSent(net.inbox[e], pp, c, r, s, o, e)
  }

  lemma OutputsArrive(nets: seq<Net>, pp: Parties, c: Circuit, r: DealerRandomness, s: State)
    requires |nets| == pp.n && pp.n > 0 && Connected(nets) && forall i :: 0 <= i < pp.n ==> OutputsOut(nets[i], pp, c, r, s, i)
    ensures |c.outputs| == pp.n
    ensures forall o, e :: 0 <= o < pp.n && 0 <= e < pp.n ==> OutputSent(Arrived(nets, o)[e], pp, c, r, s, o, e)
  {
    hide OutputSent;
    assert OutputsOut(nets[0], pp, c, r, s, 0);
    forall o, e | 0 <= o < pp.n && 0 <= e < pp.n ensures OutputSent(Arrived(nets, o)[e], pp, c, r, s, o, e) {
      assert OutputsOut(nets[o], pp, c, r, s, o) && OutputsOut(nets[e], pp, c, r, s, e);
      assert Arrived(nets, o)[e] == nets[e].outbox[o];
    }
  }

  lemma OutputQueues(inbox: seq<Vec>, pp: Parties, c: Circuit, r: DealerRandomness, s: State, o: nat)
    requires o < |c.outputs| && pp.t < pp.n == |inbox| && forall e :: 0 <= e < pp.n ==> OutputSent(inbox[e], pp, c, r, s, o, e)
    ensures Long(inbox, 0, pp.t + 1, |c.outputs[o]|)
    ensures forall e :: 0 <= e < pp.n ==> |inbox[e]| == if e <= pp.t then |c.outputs[o]| else 0
  {
    hide WireShare, Setup, OutputsKnown, WellFormed;
    forall e | 0 <= e < pp.n ensures |inbox[e]| == if e <= pp.t then |c.outputs[o]| else 0 { assert OutputSent(inbox[e], pp, c, r, s, o, e); }
  }

  /** The first t + 1 parties' shares of a wire. */
  function Firsts(pp: Parties, c: Circuit, r: DealerRandomness, active: map<nat, Vec>, g: nat): (v: Vec)
    requires Setup(pp, c, r) && ActiveShape(pp, c, active) && g < |c.gates| && Known(c, active.Keys, g)
  {
    seq(pp.t + 1, i requires 0 <= i < pp.t + 1 => WireShare(pp, c, r, active, i, g))
  }

  /** The p-th round of messages holds the shares of the owner's p-th output. */
  lemma OutputRound(inbox: seq<Vec>, pp: Parties, c: Circuit, r: DealerRandomness, s: State, o: nat, p: nat)
    requires Setup(pp, c, r) && ActiveShape(pp, c, s.active) && OutputsKnown(c, s.active.Keys) && o < |c.outputs| && p < |c.outputs[o]|
    requires |inbox| == pp.n && (forall e :: 0 <= e < pp.n ==> OutputSent(inbox[e], pp, c, r, s, o, e)) && Long(inbox, 0, pp.t + 1, p + 1)
    ensures c.outputs[o][p] < |c.gates| && Known(c, s.active.Keys, c.outputs[o][p])
    ensures HeadsOf(inbox, 0, pp.t + 1, p) == Firsts(pp, c, r, s.active, c.outputs[o][p])
  {
    hide WireShare, DealerShape, Topological, InputsListed, MultsListed, Known;
    var want := Firsts(pp, c, r, s.active, c.outputs[o][p]);
    forall e | 0 <= e <= pp.t ensures inbox[e][p] == want[e] { assert OutputSent(inbox[e], pp, c, r, s, o, e); }
  }

  /** The owner has what the run gives it for each of its outputs. */
  ghost predicate HasResults(pp: Parties, c: Circuit, r: DealerRandomness, x: map<nat, Elem>, o: nat, results: map<nat, Elem>)
    requires Setup(pp, c, r) && HasInputs(c, x)
  {
    o < |c.outputs| && forall p :: 0 <= p < |c.outputs[o]| ==>
      c.outputs[o][p] in results && RunProtocol(pp, c, r, x, o, p) == Some(results[c.outputs[o][p]])
  }

  /** All layers have run, and so has the silent parties' early phase. */
  ghost predicate Completed(pp: Parties, c: Circuit, r: DealerRandomness, x: map<nat, Elem>, s: State)
    requires Setup(pp, c, r) && HasInputs(c, x)
  {
    (pp.t + 1 == pp.n || SilentReady(c)) && RunLayers(pp, c, r, x, |c.mults|) == Some(s) && OutputsKnown(c, s.active.Keys)
  }

  method TakeOutputsOne(p: PartyDN07, ghost r: DealerRandomness, ghost x: map<nat, Elem>, ghost s: State)
    requires p.Ready() && Setup(p.pp, p.c, r) && HasInputs(p.c, x) && Completed(p.pp, p.c, r, x, s)
    requires p.net.Valid() && OutputsThere(p.net, p.pp, p.c, r, s, p.id)
    modifies p`results, p.net`inbox
    ensures p.net.Valid() && Idle(p.net) && HasResults(p.pp, p.c, r, x, p.id, p.results)
  {
    hide WellFormed, DealerShape, HasInputs, Completed, OutputSent, HeadsOf, ReconstructAt, RunProtocol;
    ghost var inbox := p.net.inbox;
    OutputQueues(inbox, p.pp, p.c, r, s, p.id);
    p.OutputOwnersReceive();
    assert p.net.inbox == NoMsgs(p.pp.n);
    forall q | 0 <= q < |p.c.outputs[p.id]|
      ensures p.c.outputs[p.id][q] in p.results && RunProtocol(p.pp, p.c, r, x, p.id, q) == Some(p.results[p.c.outputs[p.id][q]])
    {
      var d :| 0 <= d < |p.c.outputs[p.id]| && p.OpenedAs(p.results, inbox, p.c.outputs[p.id][q], d);
      ResultIs(p.pp, p.c, r, x, s, inbox, p.id, d, q);
    }
  }

  lemma ResultIs(pp: Parties, c: Circuit, r: DealerRandomness, x: map<nat, Elem>, s: State, inbox: seq<Vec>, o: nat, d: nat, q: nat)
    requires Setup(pp, c, r) && HasInputs(c, x) && Completed(pp, c, r, x, s) && o < |c.outputs| && d < |c.outputs[o]| && q < |c.outputs[o]|
    requires |inbox| == pp.n && (forall e :: 0 <= e < pp.n ==> OutputSent(inbox[e], pp, c, r, s, o, e)) && Long(inbox, 0, pp.t + 1, d + 1)
    requires c.outputs[o][d] == c.outputs[o][q]
    ensures RunProtocol(pp, c, r, x, o, q) == Some(ReconstructAt(HeadsOf(inbox, 0, pp.t + 1, d), SlotX(0)))
  {
    hide WireShare, DealerShape, Topological, InputsListed, MultsListed, Known, RunLayers, HasInputs, SilentReady, ReconstructAt, OutputSent, HeadsOf;
    OutputRound(inbox, pp, c, r, s, o, d);
    var g := c.outputs[o][q];
    assert Firsts(pp, c, r, s.active, g) == seq(pp.t + 1, i requires 0 <= i < pp.t + 1 => WireShare(pp, c, r, s.active, i, g));
  }

  /** OutputOwnersReceive at all parties. */
  method TakeOutputs(ps: seq<PartyDN07>, nets: seq<Net>, tables: seq<WireValues>, ghost pp: Parties, ghost c: Circuit, ghost r: DealerRandomness,
                     ghost x: map<nat, Elem>, ghost s: State)
    requires Together(ps, nets, tables, pp, c, r) && Connected(nets) && HasInputs(c, x) && Completed(pp, c, r, x, s)
    requires forall i :: 0 <= i < pp.n ==> OutputsThere(nets[i], pp, c, r, s, i)
    modifies ps`results, nets
    ensures Connected(nets) && |ps| == pp.n && forall i :: 0 <= i < pp.n ==> Idle(nets[i]) && HasResults(pp, c, r, x, i, ps[i].results)
  {
    hide Together, OwnShares, Setup, HasInputs, WellFormed, Idle, OutputsThere, HasResults, Completed;
    PartyIs(ps, nets, tables, pp, c, r);
    for i := 0 to |ps|
      invariant Connected(nets) && forall e :: i <= e < pp.n ==> OutputsThere(nets[e], pp, c, r, s, e)
      invariant forall e :: 0 <= e < i ==> Idle(nets[e]) && HasResults(pp, c, r, x, e, ps[e].results)
    {
      TakeOutputsOne(ps[i], r, x, s);
    }
  }

  /** After all layers every output is known. */
  lemma AllKnownAfter(pp: Parties, c: Circuit, r: DealerRandomness, x: map<nat, Elem>)
    requires Setup(pp, c, r) && HasInputs(c, x) && RunLayers(pp, c, r, x, |c.mults|).Some?
    ensures OutputsKnown(c, RunLayers(pp, c, r, x, |c.mults|).value.active.Keys)
  {
    hide Topological, InputsListed, MultsListed, DealerShape, HasInputs, RunLayers, Level, LearnedAfter, Known, LayerReads;
    DN07Correct.LayersGoThrough(pp, c, r, x, |c.mults|);
    var dom := RunLayers(pp, c, r, x, |c.mults|).value.active.Keys;
    forall o, p | 0 <= o < |c.outputs| && 0 <= p < |c.outputs[o]| ensures Known(c, dom, c.outputs[o][p]) {
      LevelAtMostDepth(c, c.outputs[o][p]);
      KnownByLevel(c, |c.mults|, dom, c.outputs[o][p]);
    }
  }

  /** The output phase of all parties. */
  method OutputPhase(ps: seq<PartyDN07>, nets: seq<Net>, tables: seq<WireValues>, ghost pp: Parties, ghost c: Circuit, ghost r: DealerRandomness,
                     ghost x: map<nat, Elem>, ghost s: State) returns (ok: bool)
    requires Setup(pp, c, r) && AllAt(ps, nets, tables, pp, c, r, s) && HasInputs(c, x) && Completed(pp, c, r, x, s)
    modifies ps`results, nets, tables
    ensures ok && Connected(nets) && |ps| == pp.n && forall i :: 0 <= i < pp.n ==> Idle(nets[i]) && HasResults(pp, c, r, x, i, ps[i].results)
  {
    hide Together, DealerShape, WellFormed, HasInputs, PartyAt, Idle, OutputsOut, OutputSent, HasResults, Arrived, SilentReady, RunLayers, OutputsKnown;
    PartyIs(ps, nets, tables, pp, c, r);
    ok := SendOutputs(ps, nets, tables, pp, c, r, s);
    OutputsArrive(nets, pp, c, r, s);
    Deliver(nets);
    TakeOutputs(ps, nets, tables, pp, c, r, x, s);
  }

  // ---- The run ----

  lemma RunsExactly(pp: Parties, c: Circuit, r: DealerRandomness, x: map<nat, Elem>)
    requires Setup(pp, c, r) && HasInputs(c, x)
    ensures (pp.t + 1 == pp.n || SilentReady(c)) && RunLayers(pp, c, r, x, |c.mults|).Some? <==> WellLayered(c)
  {
    hide InputsListed, MultsListed, OutputsListed, DealerShape, HasInputs, RunLayers, LayerReads, SilentReady, WellLayered;
    DN07Correct.LayersGoThrough(pp, c, r, x, |c.mults|);
    WellLayeredByLayers(c);
    if WellLayered(c) { DN07Correct.SilentGoesThrough(c); }
  }

  /** From the sharings to the results: the early phase, the inputs, all layers and the outputs, run by n
      parties over their networks, for every n > 2t. An exception ends the run exactly when the circuit
      is not well layered; otherwise every owner has what the functions of the protocol give. */
  method RunParties(ps: seq<PartyDN07>, nets: seq<Net>, tables: seq<WireValues>, ghost pp: Parties, c: Circuit, ghost r: DealerRandomness,
                    ghost x: map<nat, Elem>, values: seq<Vec>) returns (ok: bool)
    requires Together(ps, nets, tables, pp, c, r) && Connected(nets) && HasInputs(c, x) && OwnValues(c, x, values)
    requires forall i :: 0 <= i < pp.n ==> ps[i].Ready() && Begins(ps[i]) && Idle(nets[i])
    modifies ps, nets, tables
    ensures ok <==> WellLayered(c)
    ensures ok ==> Connected(nets) && |ps| == pp.n && forall i :: 0 <= i < pp.n ==> Idle(nets[i]) && HasResults(pp, c, r, x, i, ps[i].results)
  {
    hide Together, Setup, HasInputs, WellFormed, Idle, AllAt, OwnValues, HasResults, AfterEarly, AfterInputs, RunLayers, SilentReady, WellLayered, OutputsKnown,
      PartyDN07.AllMapped, PartyDN07.Ready, Start;
    PartyIs(ps, nets, tables, pp, c, r);
    RunsExactly(pp, c, r, x);
    MapAll(ps, nets, tables, pp, c, r);
    Started(ps, pp.n);
    ok := EarlyPhase(ps, nets, tables, pp, c, r);
    if !ok { return; }
    InputPhase(ps, nets, tables, pp, c, r, x, values);
    ok := MultLayers(ps, nets, tables, pp, c, r, x);
    if !ok { return; }
    AllKnownAfter(pp, c, r, x);
    ok := OutputPhase(ps, nets, tables, pp, c, r, x, RunLayers(pp, c, r, x, |c.mults|).value);
  }

  ghost predicate Begins(p: PartyDN07)
    reads p, p.table
  {
    p.table.Valid() && p.table.leaf == map[] && p.sharesFromLast == [] && p.sharesToSend == []
  }

  lemma Started(ps: seq<PartyDN07>, n: nat)
    requires n <= |ps| && forall i :: 0 <= i < n ==> ps[i].Ready() && Begins(ps[i]) && ps[i].AllMapped()
    ensures forall i :: 0 <= i < n ==> Start(ps[i])
  {
    hide PartyDN07.AllMapped, PartyDN07.Ready;
  }
}
