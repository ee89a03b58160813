/** One party's extraction of random and double sharings in DN07 (dn07.cc, PrepPartiesSend and
    PrepPartiesReceive), with its messages. */
module PrepDN07 {
  import opened Field
  import opened Packed
  import opened Combine
  import opened FIPrep
  import opened Circuits
  import opened DN07
  import opened Network
  import opened Correlator

  /** The two halves of the double sharings, alternating as their shares are sent. */
  function Alternating(low: seq<seq<Vec>>, high: seq<seq<Vec>>): (r: seq<seq<Vec>>)
    requires |low| == |high|
    ensures |r| == 2 * |low|
    ensures forall b :: 0 <= b < |low| ==> r[2 * b] == low[b] && r[2 * b + 1] == high[b]
  {
    if low == [] then [] else Alternating(low[..|low| - 1], high[..|low| - 1]) + [low[|low| - 1], high[|low| - 1]]
  }

  lemma {:induction false} AlternatingShape(low: seq<seq<Vec>>, high: seq<seq<Vec>>, n: nat)
    requires |low| == |high| && DealtShape(low, n) && DealtShape(high, n)
    ensures DealtShape(Alternating(low, high), n)
  {
    if low != [] {
      AlternatingShape(low[..|low| - 1], high[..|low| - 1], n);
    }
  }

  function PairDealt(pp: Parties, ds: seq<seq<DoubleDealing>>): (r: seq<seq<Vec>>)
    requires pp.Admitted() && DoubleShape(ds, |ds|, pp.n, pp.t)
    ensures |r| == 2 * |ds| && DealtShape(r, pp.n)
    ensures forall b :: 0 <= b < |ds| ==> r[2 * b] == LowDealt(pp, ds)[b] && r[2 * b + 1] == HighDealt(pp, ds)[b]
  {
    AlternatingShape(LowDealt(pp, ds), HighDealt(pp, ds), pp.n);
    Alternating(LowDealt(pp, ds), HighDealt(pp, ds))
  }

  /** Two messages for each party at a time. */
  lemma PutTwo(msgs: seq<Vec>, len: nat, start: seq<Vec>, b: nat, now: seq<Vec>, after: seq<Vec>)
    requires Put(msgs, len, start, b, now) && b + 1 < len && |after| == |msgs|
    requires forall j :: 0 <= j < |msgs| ==> after[j] == now[j] + [msgs[j][b], msgs[j][b + 1]]
    ensures Put(msgs, len, start, b + 2, after)
  {
    var mid := seq(|msgs|, j requires 0 <= j < |msgs| => now[j] + [msgs[j][b]]);
    PutOne(msgs, len, start, b, now, mid);
    PutOne(msgs, len, start, b + 1, mid, after);
  }

  lemma NextTwoThere(msgs: seq<Vec>, len: nat, start: seq<Vec>, b: nat, now: seq<Vec>)
    requires Taken(msgs, len, start, b, now) && b + 1 < len
    ensures forall e :: 0 <= e < |msgs| ==> |now[e]| >= 2 && now[e][0] == msgs[e][b] && now[e][1] == msgs[e][b + 1]
  {
    hide Taken;
    TakenLengths(msgs, len, start, b, now);
    var mid := seq(|msgs|, e requires 0 <= e < |msgs| => now[e][1..]);
    NextThere(msgs, len, start, b, now);
    TakeOne(msgs, len, start, b, now, mid);
    NextThere(msgs, len, start, b + 1, mid);
    assert forall e :: 0 <= e < |msgs| ==> mid[e] == now[e][1..];
  }

  lemma TakenLengths(msgs: seq<Vec>, len: nat, start: seq<Vec>, b: nat, now: seq<Vec>)
    requires Taken(msgs, len, start, b, now)
    ensures |now| == |msgs| && forall e :: 0 <= e < |msgs| ==> |now[e]| >= len - b
  {
  }

  lemma TakeTwo(msgs: seq<Vec>, len: nat, start: seq<Vec>, b: nat, now: seq<Vec>, after: seq<Vec>)
    requires Taken(msgs, len, start, b, now) && b + 1 < len && |after| == |msgs|
    requires forall e :: 0 <= e < |msgs| ==> |now[e]| >= 2 && after[e] == now[e][2..]
    ensures Taken(msgs, len, start, b + 2, after)
  {
    hide Taken;
    TakenLengths(msgs, len, start, b, now);
    var mid := seq(|msgs|, e requires 0 <= e < |msgs| => now[e][1..]);
    TakeOne(msgs, len, start, b, now, mid);
    NextThere(msgs, len, start, b + 1, mid);
    TakeOne(msgs, len, start, b + 1, mid, after);
  }

  class PrepDN07 {
    const pp: Parties
    const id: nat
    const net: Net
    var vandermonde: seq<Vec>
    var rShrs: Vec
    var dShrs: Vec
    var dHighShrs: Vec

    ghost predicate Valid()
      reads `vandermonde, net
    {
      pp.Admitted() && net.Valid() && net.n == pp.n && id < pp.n && IsVandermonde(vandermonde, pp.n, pp.t)
    }

    constructor (pp: Parties, id: nat, net: Net)
      requires pp.Admitted() && net.Valid() && net.n == pp.n && id < pp.n
      ensures Valid() && this.pp == pp && this.id == id && this.net == net
      ensures rShrs == [] && dShrs == [] && dHighShrs == []
    {
      this.pp, this.id, this.net := pp, id, net;
      rShrs, dShrs, dHighShrs := [], [], [];
      var v := PrecomputeVandermonde(pp.n, pp.t);
      vandermonde := v;
    }

    // ---- Sending ----

    method SendRand(ghost dealt: seq<seq<Vec>>, own: seq<Dealing>)
      requires Valid() && DealtShape(dealt, pp.n) && |own| == |dealt|
      requires forall b :: 0 <= b < |own| ==> |own[b].rnd| == pp.t && dealt[b][id] == DealAt(own[b].secret, 0, pp.t, own[b].rnd, pp.n)
      modifies net`outbox
      ensures Valid()
      ensures forall j :: 0 <= j < pp.n ==> net.outbox[j] == old(net.outbox)[j] + BlockMsgs(dealt, pp.n, id, j)
    {
      hide DealAt, Put, BlockMsgs, FromDealer, Rows, IsVandermonde;
      ghost var msgs := FromDealer(dealt, pp.n, id);
      PutNone(msgs, |dealt|, net.outbox);
      for block := 0 to |own|
        invariant Valid() && Put(msgs, |dealt|, old(net.outbox), block, net.outbox)
      {
        var shares := DealSharesAt(own[block].secret, 0, pp.t, own[block].rnd, pp.n);
        ghost var before := net.outbox;
        net.SendEach(shares, 0);
        AboutBlock(dealt, pp.n, id, block);
        PutOne(msgs, |dealt|, old(net.outbox), block, before, net.outbox);
      }
      PutAll(msgs, |dealt|, old(net.outbox), net.outbox);
    }

    method SendDouble(ghost dealt: seq<seq<Vec>>, own: seq<DoubleDealing>)
      requires Valid() && DealtShape(dealt, pp.n) && |dealt| == 2 * |own|
      requires forall b :: 0 <= b < |own| ==> |own[b].rnd| == pp.t && |own[b].rndD| == 2 * pp.t
      requires forall b :: 0 <= b < |own| ==> dealt[2 * b][id] == DealAt(own[b].secret, 0, pp.t, own[b].rnd, pp.n)
      requires forall b :: 0 <= b < |own| ==> dealt[2 * b + 1][id] == DealAt(own[b].secret, 0, 2 * pp.t, own[b].rndD, pp.n)
      modifies net`outbox
      ensures Valid()
      ensures forall j :: 0 <= j < pp.n ==> net.outbox[j] == old(net.outbox)[j] + BlockMsgs(dealt, pp.n, id, j)
    {
      hide DealAt, Put, BlockMsgs, FromDealer, Rows, IsVandermonde;
      ghost var msgs := FromDealer(dealt, pp.n, id);
      PutNone(msgs, |dealt|, net.outbox);
      for block := 0 to |own|
        invariant Valid() && Put(msgs, |dealt|, old(net.outbox), 2 * block, net.outbox)
      {
        var shares := DealSharesAt(own[block].secret, 0, pp.t, own[block].rnd, pp.n);
        var sharesD := DealSharesAt(own[block].secret, 0, 2 * pp.t, own[block].rndD, pp.n);
        ghost var before := net.outbox;
        net.SendPairs(shares, sharesD);
        AboutBlock(dealt, pp.n, id, 2 * block);
        AboutBlock(dealt, pp.n, id, 2 * block + 1);
        PutTwo(msgs, |dealt|, old(net.outbox), 2 * block, before, net.outbox);
      }
      PutAll(msgs, |dealt|, old(net.outbox), net.outbox);
    }

    /** PrepPartiesSend. */
    method PrepPartiesSend(r: DealerRandomness, c: Circuit)
      requires Valid() && DealerShape(pp, c, r)
      modifies net`outbox
      ensures Valid()
      ensures forall j :: 0 <= j < pp.n ==>
                net.outbox[j] == old(net.outbox)[j] + (BlockMsgs(RandDealt(pp, r.rand), pp.n, id, j) + BlockMsgs(PairDealt(pp, r.double), pp.n, id, j))
    {
      hide DealAt, BlockMsgs, IsVandermonde, Blocks, Alternating;
      SendRand(RandDealt(pp, r.rand), OwnDealings(r.rand, id));
      SendDouble(PairDealt(pp, r.double), seq(|r.double|, b requires 0 <= b < |r.double| => r.double[b][id]));
    }

    // ---- Receiving ----

    method ReceiveRand(ghost dealt: seq<seq<Vec>>, blocks: nat)
      requires Valid() && DealtShape(dealt, pp.n) && |dealt| == blocks && rShrs == []
      requires forall e :: 0 <= e < pp.n ==> BlockMsgs(dealt, pp.n, e, id) <= net.inbox[e]
      modifies `rShrs, net`inbox
      ensures Valid() && rShrs == Extracted(pp.t, Received(dealt, pp.n, id))
      ensures forall e :: 0 <= e < pp.n ==> old(net.inbox)[e] == BlockMsgs(dealt, pp.n, e, id) + net.inbox[e]
    {
      hide Extract, Extracted, IsVandermonde, Taken, BlockMsgs, ToParty, Received, Column;
      ghost var all, msgs := Received(dealt, pp.n, id), ToParty(dealt, pp.n, id);
      ExtractedNone(pp.t);
      TakenNone(msgs, blocks, net.inbox);
      for b := 0 to blocks
        invariant Valid() && rShrs == Extracted(pp.t, all[..b])
        invariant Taken(msgs, blocks, old(net.inbox), b, net.inbox)
      {
        var recv := ReceiveBlock(dealt, old(net.inbox), b);
        ReceivedPrefix(dealt, pp.n, id, b);
        ExtractedSnoc(pp.t, all[..b], recv);
        var more := ExtractBlock(vandermonde, recv, pp.t);
        rShrs := rShrs + more;
      }
      assert all[..blocks] == all;
      TakenAll(msgs, blocks, old(net.inbox), net.inbox);
    }

    method ReceiveBlock(ghost dealt: seq<seq<Vec>>, ghost start: seq<Vec>, b: nat) returns (recv: Vec)
      requires Valid() && DealtShape(dealt, pp.n) && b < |dealt|
      requires Taken(ToParty(dealt, pp.n, id), |dealt|, start, b, net.inbox)
      modifies net`inbox
      ensures Valid() && recv == Column(dealt[b], id)
      ensures Taken(ToParty(dealt, pp.n, id), |dealt|, start, b + 1, net.inbox)
    {
      hide IsVandermonde, Taken, ToParty, BlockMsgs;
      AboutBlock(dealt, pp.n, id, b);
      ghost var before := net.inbox;
      NextThere(ToParty(dealt, pp.n, id), |dealt|, start, b, before);
      recv := net.RecvEach(pp.n);
      TakeOne(ToParty(dealt, pp.n, id), |dealt|, start, b, before, net.inbox);
      assert recv == Column(dealt[b], id);
    }

    method ReceivePair(ghost dealt: seq<seq<Vec>>, ghost start: seq<Vec>, b: nat) returns (low: Vec, high: Vec)
      requires Valid() && DealtShape(dealt, pp.n) && b + 1 < |dealt|
      requires Taken(ToParty(dealt, pp.n, id), |dealt|, start, b, net.inbox)
      modifies net`inbox
      ensures Valid() && low == Column(dealt[b], id) && high == Column(dealt[b + 1], id)
      ensures Taken(ToParty(dealt, pp.n, id), |dealt|, start, b + 2, net.inbox)
    {
      hide IsVandermonde, Taken, ToParty, BlockMsgs;
      AboutBlock(dealt, pp.n, id, b);
      AboutBlock(dealt, pp.n, id, b + 1);
      ghost var before := net.inbox;
      NextTwoThere(ToParty(dealt, pp.n, id), |dealt|, start, b, before);
      low, high := net.RecvPairs();
      TakeTwo(ToParty(dealt, pp.n, id), |dealt|, start, b, before, net.inbox);
      assert low == Column(dealt[b], id) && high == Column(dealt[b + 1], id);
    }

    method ReceiveDouble(ghost lows: seq<seq<Vec>>, ghost highs: seq<seq<Vec>>, ghost dealt: seq<seq<Vec>>, blocks: nat)
      requires Valid() && DealtShape(dealt, pp.n) && |dealt| == 2 * blocks && dShrs == [] && dHighShrs == []
      requires DealtShape(lows, pp.n) && DealtShape(highs, pp.n) && |lows| == |highs| == blocks
      requires forall b :: 0 <= b < blocks ==> dealt[2 * b] == lows[b] && dealt[2 * b + 1] == highs[b]
      requires forall e :: 0 <= e < pp.n ==> BlockMsgs(dealt, pp.n, e, id) <= net.inbox[e]
      modifies `dShrs, `dHighShrs, net`inbox
      ensures Valid() && dShrs == Extracted(pp.t, Received(lows, pp.n, id)) && dHighShrs == Extracted(pp.t, Received(highs, pp.n, id))
      ensures forall e :: 0 <= e < pp.n ==> old(net.inbox)[e] == BlockMsgs(dealt, pp.n, e, id) + net.inbox[e]
    {
      hide Extract, Extracted, IsVandermonde, Taken, BlockMsgs, ToParty, Received, Column;
      ghost var rl, rh, msgs := Received(lows, pp.n, id), Received(highs, pp.n, id), ToParty(dealt, pp.n, id);
      ExtractedNone(pp.t);
      TakenNone(msgs, 2 * blocks, net.inbox);
      for b := 0 to blocks
        invariant Valid() && dShrs == Extracted(pp.t, rl[..b]) && dHighShrs == Extracted(pp.t, rh[..b])
        invariant Taken(msgs, 2 * blocks, old(net.inbox), 2 * b, net.inbox)
      {
        var low, high := ReceivePair(dealt, old(net.inbox), 2 * b);
        ReceivedPrefix(lows, pp.n, id, b);
        ReceivedPrefix(highs, pp.n, id, b);
        ExtractedSnoc(pp.t, rl[..b], low);
        ExtractedSnoc(pp.t, rh[..b], high);
        var more := ExtractBlock(vandermonde, low, pp.t);
        var moreD := ExtractBlock(vandermonde, high, pp.t);
        dShrs, dHighShrs := dShrs + more, dHighShrs + moreD;
      }
      assert rl[..blocks] == rl && rh[..blocks] == rh;
      TakenAll(msgs, 2 * blocks, old(net.inbox), net.inbox);
    }

    /** PrepPartiesReceive: the party ends up with its shares of what is extracted from the sharings
        dealt by all parties. */
    method PrepPartiesReceive(ghost r: DealerRandomness, c: Circuit, ghost rest: seq<Vec>)
      requires Valid() && DealerShape(pp, c, r) && rShrs == [] && dShrs == [] && dHighShrs == [] && |rest| == pp.n
      requires forall e :: 0 <= e < pp.n ==>
                 net.inbox[e] == BlockMsgs(RandDealt(pp, r.rand), pp.n, e, id) + (BlockMsgs(PairDealt(pp, r.double), pp.n, e, id) + rest[e])
      modifies `rShrs, `dShrs, `dHighShrs, net`inbox
      ensures Valid() && OwnShares(pp, r, id, rShrs, dShrs, dHighShrs)
      ensures forall e :: 0 <= e < pp.n ==> net.inbox[e] == rest[e]
    {
      hide Extracted, Received, RandDealt, LowDealt, HighDealt, PairDealt, BlockMsgs, IsVandermonde, Blocks, Flatten;
      ghost var first, second := RandDealt(pp, r.rand), PairDealt(pp, r.double);
      ReceiveRand(first, Blocks(|Flatten(c.inputs)|, pp.t));
      forall e | 0 <= e < pp.n ensures net.inbox[e] == BlockMsgs(second, pp.n, e, id) + rest[e] {
        SamePrefix(BlockMsgs(first, pp.n, e, id), net.inbox[e], BlockMsgs(second, pp.n, e, id) + rest[e]);
      }
      ReceiveDouble(LowDealt(pp, r.double), HighDealt(pp, r.double), second, Blocks(|Flatten(c.mults)|, pp.t));
      forall e | 0 <= e < pp.n ensures net.inbox[e] == rest[e] {
        SamePrefix(BlockMsgs(second, pp.n, e, id), net.inbox[e], rest[e]);
      }
    }
  }

  /** A party's shares of all random and double sharings. */
  ghost predicate OwnShares(pp: Parties, r: DealerRandomness, id: nat, rShrs: Vec, dShrs: Vec, dHighShrs: Vec) {
    && pp.Admitted() && id < pp.n && DealingsShape(r.rand, |r.rand|, pp.n, pp.t) && DoubleShape(r.double, |r.double|, pp.n, pp.t)
    && rShrs == Extracted(pp.t, Received(RandDealt(pp, r.rand), pp.n, id))
    && dShrs == Extracted(pp.t, Received(LowDealt(pp, r.double), pp.n, id))
    && dHighShrs == Extracted(pp.t, Received(HighDealt(pp, r.double), pp.n, id))
  }
}
