/** The class Correlator: one party's function-independent preprocessing, with its fields and its
    messages (fi_prep.cc, correlator.h). The dealers' randomness r is the coins of all parties, of
    which a party uses its own when it sends. */
module Correlator {
  import opened Field
  import opened Poly
  import opened Packed
  import opened Combine
  import opened EvPoly
  import opened FIPrep
  import opened Triples
  import opened Network
  import opened Wrappers

  // ---- Messages ----

  /** Rows of messages one after the other. */
  function Join(rows: seq<Vec>): Vec {
    if rows == [] then [] else rows[0] + Join(rows[1..])
  }

  lemma JoinStep(rows: seq<Vec>, p: nat)
    requires p < |rows|
    ensures Join(rows[p..]) == rows[p] + Join(rows[p + 1..])
  {
    assert rows[p..][0] == rows[p] && rows[p..][1..] == rows[p + 1..];
  }

  lemma Reassociate(a: Vec, b: Vec, c: Vec)
    ensures (a + b) + c == a + (b + c) && a <= a + (b + c)
  {
  }

  lemma SamePrefix(a: Vec, b: Vec, c: Vec)
    requires a + b == a + c
    ensures b == c
  {
    assert b == (a + b)[|a|..] && c == (a + c)[|a|..];
  }

  /** A queue that starts with row p of what is awaited. */
  lemma FrontRow(rows: seq<Vec>, p: nat, rest: Vec, queue: Vec)
    requires p < |rows| && queue == Join(rows[p..]) + rest
    ensures rows[p] <= queue
    ensures forall now: Vec :: queue == rows[p] + now ==> now == Join(rows[p + 1..]) + rest
  {
    JoinStep(rows, p);
    Reassociate(rows[p], Join(rows[p + 1..]), rest);
    forall now: Vec | queue == rows[p] + now ensures now == Join(rows[p + 1..]) + rest {
      SamePrefix(rows[p], now, Join(rows[p + 1..]) + rest);
    }
  }

  lemma JoinNone()
    ensures forall rows: seq<Vec> :: |rows| == 0 ==> Join(rows) == []
  {
  }

  /** One run of blocks: what dealer e sends to party j. */
  function BlockMsgs(dealt: seq<seq<Vec>>, n: nat, e: nat, j: nat): (r: Vec)
    requires DealtShape(dealt, n) && e < n && j < n
    ensures |r| == |dealt|
  {
    seq(|dealt|, b requires 0 <= b < |dealt| => dealt[b][e][j])
  }

  predicate SlotsDealt(dealt: seq<seq<seq<Vec>>>, n: nat) {
    forall q :: 0 <= q < |dealt| ==> DealtShape(dealt[q], n)
  }

  /** One run of blocks per slot. */
  function SlotMsgs(dealt: seq<seq<seq<Vec>>>, n: nat, e: nat, j: nat): (rows: seq<Vec>)
    requires SlotsDealt(dealt, n) && e < n && j < n
    ensures |rows| == |dealt|
  {
    seq(|dealt|, p requires 0 <= p < |dealt| => BlockMsgs(dealt[p], n, e, j))
  }

  function AllUnpacked(pp: Params, sz: Sizes, r: Randomness): (d: seq<seq<seq<Vec>>>)
    requires pp.Valid() && RandomnessShape(pp, sz, r)
    ensures |d| == pp.k && SlotsDealt(d, pp.n)
  {
    seq(pp.k, p requires 0 <= p < pp.k => UnpackedDealt(pp, p, r.unpacked[p]))
  }

  function AllZeroAt(pp: Params, sz: Sizes, r: Randomness): (d: seq<seq<seq<Vec>>>)
    requires pp.Valid() && RandomnessShape(pp, sz, r)
    ensures |d| == pp.k && SlotsDealt(d, pp.n)
  {
    seq(pp.k, p requires 0 <= p < pp.k => ZeroAtDealt(pp, p, r.zeroProd[p]))
  }

  /** What dealer `id` sends to every party, and what party `id` gets from every dealer. */
  function FromDealer(dealt: seq<seq<Vec>>, n: nat, id: nat): (msgs: seq<Vec>)
    requires DealtShape(dealt, n) && id < n
    ensures |msgs| == n && Rows(msgs, |dealt|) && forall j :: 0 <= j < n ==> msgs[j] == BlockMsgs(dealt, n, id, j)
  {
    seq(n, j requires 0 <= j < n => BlockMsgs(dealt, n, id, j))
  }

  function ToParty(dealt: seq<seq<Vec>>, n: nat, id: nat): (msgs: seq<Vec>)
    requires DealtShape(dealt, n) && id < n
    ensures |msgs| == n && Rows(msgs, |dealt|) && forall e :: 0 <= e < n ==> msgs[e] == BlockMsgs(dealt, n, e, id)
  {
    seq(n, e requires 0 <= e < n => BlockMsgs(dealt, n, e, id))
  }

  // ---- Queues while messages are sent or received, one for each party at a time ----

  /** Of the messages, the first b for each party have been put into the queues. */
  ghost predicate Put(msgs: seq<Vec>, len: nat, start: seq<Vec>, b: nat, now: seq<Vec>) {
    && Rows(msgs, len) && b <= len && |start| == |now| == |msgs|
    && forall j :: 0 <= j < |msgs| ==> now[j] == start[j] + msgs[j][..b]
  }

  lemma PutOne(msgs: seq<Vec>, len: nat, start: seq<Vec>, b: nat, now: seq<Vec>, after: seq<Vec>)
    requires Put(msgs, len, start, b, now) && b < len && |after| == |msgs|
    requires forall j :: 0 <= j < |msgs| ==> after[j] == now[j] + [msgs[j][b]]
    ensures Put(msgs, len, start, b + 1, after)
  {
    forall j | 0 <= j < |msgs| ensures after[j] == start[j] + msgs[j][..b + 1] { }
  }

  lemma PutNone(msgs: seq<Vec>, len: nat, start: seq<Vec>)
    requires Rows(msgs, len) && |start| == |msgs|
    ensures Put(msgs, len, start, 0, start)
  {
  }

  lemma PutAll(msgs: seq<Vec>, len: nat, start: seq<Vec>, now: seq<Vec>)
    requires Put(msgs, len, start, len, now)
    ensures forall j :: 0 <= j < |msgs| ==> now[j] == start[j] + msgs[j]
  {
    assert forall j :: 0 <= j < |msgs| ==> msgs[j][..len] == msgs[j];
  }

  /** Of the messages, the first b from each party have been taken from the queues. */
  ghost predicate Taken(msgs: seq<Vec>, len: nat, start: seq<Vec>, b: nat, now: seq<Vec>) {
    && Rows(msgs, len) && b <= len && |start| == |now| == |msgs|
    && forall e :: 0 <= e < |msgs| ==> msgs[e] <= start[e] && start[e] == msgs[e][..b] + now[e]
  }

  lemma NextThere(msgs: seq<Vec>, len: nat, start: seq<Vec>, b: nat, now: seq<Vec>)
    requires Taken(msgs, len, start, b, now) && b < len
    ensures forall e :: 0 <= e < |msgs| ==> now[e] != [] && now[e][0] == msgs[e][b]
  {
    forall e | 0 <= e < |msgs| ensures now[e] != [] && now[e][0] == msgs[e][b] {
      NextMsg(start[e], msgs[e], now[e], b);
    }
  }

  lemma TakeOne(msgs: seq<Vec>, len: nat, start: seq<Vec>, b: nat, now: seq<Vec>, after: seq<Vec>)
    requires Taken(msgs, len, start, b, now) && b < len && |after| == |msgs|
    requires forall e :: 0 <= e < |msgs| ==> now[e] != [] && after[e] == now[e][1..]
    ensures Taken(msgs, len, start, b + 1, after)
  {
    forall e | 0 <= e < |msgs| ensures start[e] == msgs[e][..b + 1] + after[e] {
      NextMsg(start[e], msgs[e], now[e], b);
    }
  }

  /** The front of a queue from which the first b of the awaited messages have been taken. */
  lemma NextMsg(start: Vec, msgs: Vec, rest: Vec, b: nat)
    requires msgs <= start && b < |msgs| && start == msgs[..b] + rest
    ensures rest != [] && rest[0] == msgs[b] && start == msgs[..b + 1] + rest[1..]
  {
    assert rest[0] == start[b];
  }

  lemma TakenNone(msgs: seq<Vec>, len: nat, start: seq<Vec>)
    requires Rows(msgs, len) && |start| == |msgs| && forall e :: 0 <= e < |msgs| ==> msgs[e] <= start[e]
    ensures Taken(msgs, len, start, 0, start)
  {
  }

  lemma TakenAll(msgs: seq<Vec>, len: nat, start: seq<Vec>, now: seq<Vec>)
    requires Taken(msgs, len, start, len, now)
    ensures forall e :: 0 <= e < |msgs| ==> start[e] == msgs[e] + now[e]
  {
    assert forall e :: 0 <= e < |msgs| ==> msgs[e][..len] == msgs[e];
  }

  lemma AboutBlock(dealt: seq<seq<Vec>>, n: nat, id: nat, b: nat)
    requires DealtShape(dealt, n) && id < n && b < |dealt|
    ensures forall j :: 0 <= j < n ==> FromDealer(dealt, n, id)[j][b] == dealt[b][id][j]
    ensures forall e :: 0 <= e < n ==> ToParty(dealt, n, id)[e][b] == dealt[b][e][id]
  {
  }

  // ---- Extraction ----

  /** Extracting from one more block appends t + 1 values. */
  lemma ExtractedSnoc(t: nat, recv: seq<Vec>, col: Vec)
    ensures Extracted(t, recv + [col]) == Extracted(t, recv) + seq(t + 1, r requires 0 <= r < t + 1 => Extract(r, col))
  {
    hide Extract;
    var a, b := Extracted(t, recv + [col]), Extracted(t, recv) + seq(t + 1, r requires 0 <= r < t + 1 => Extract(r, col));
    assert |a| == |b| by { assert (|recv| + 1) * (t + 1) == |recv| * (t + 1) + (t + 1); }
    forall x | 0 <= x < |a| ensures a[x] == b[x] {
      BlockIndex(x, |recv| + 1, t);
      if x < Total(|recv|, t) {
        BlockIndex(x, |recv|, t);
      } else {
        RemainderUnique(x, |recv|, x - Total(|recv|, t), t + 1);
      }
    }
  }

  lemma ExtractedNone(t: nat)
    ensures Extracted(t, []) == []
  {
  }

  lemma ReceivedPrefix(dealt: seq<seq<Vec>>, n: nat, id: nat, b: nat)
    requires DealtShape(dealt, n) && id < n && b < |dealt|
    ensures Received(dealt, n, id)[..b + 1] == Received(dealt, n, id)[..b] + [Column(dealt[b], id)]
  {
  }

  // ---- Dealing with given randomness ----

  method DealShares(secrets: Vec, degree: nat, rnd: Vec, n: nat) returns (s: Vec)
    requires |secrets| + |rnd| == degree + 1 <= P
    ensures s == Deal(secrets, degree, rnd, n)
  {
    hide Lagrange;
    DealXsDistinct(|secrets|, degree);
    var poly := EvPolyFromSecretsAndDegree(secrets, degree, rnd);
    s := SharesFromEvPoly(poly, n);
  }

  method DealSharesAt(secret: Elem, slot: nat, degree: nat, rnd: Vec, n: nat) returns (s: Vec)
    requires |rnd| == degree && slot + degree < P
    ensures s == DealAt(secret, slot, degree, rnd, n)
  {
    hide Lagrange;
    DealAtXsDistinct(slot, degree);
    var poly := EvPolyFromSecretAndPoint(secret, SlotX(slot), degree, rnd);
    s := SharesFromEvPoly(poly, n);
  }

  /** A party's own coins for one run. */
  function OwnDealings(ds: seq<seq<Dealing>>, id: nat): (own: seq<Dealing>)
    requires forall b :: 0 <= b < |ds| ==> id < |ds[b]|
    ensures |own| == |ds|
  {
    seq(|ds|, b requires 0 <= b < |ds| => ds[b][id])
  }

  function OwnZeros(rs: seq<seq<Vec>>, id: nat): (own: seq<Dealing>)
    requires forall b :: 0 <= b < |rs| ==> id < |rs[b]|
    ensures |own| == |rs|
  {
    seq(|rs|, b requires 0 <= b < |rs| => Dealing(0, rs[b][id]))
  }

  /** Filing by a running counter: the first, second and last third of 3m values. */
  method FileInThirds(out: Vec, m: nat) returns (a: Vec, b: Vec, mask: Vec)
    requires |out| >= 3 * m
    ensures a == out[..m] && b == out[m..2 * m] && mask == out[2 * m..3 * m]
  {
    a, b, mask := [], [], [];
    for ctr := 0 to |out|
      invariant a == out[..if ctr < m then ctr else m]
      invariant b == if ctr <= m then [] else out[m..if ctr < 2 * m then ctr else 2 * m]
      invariant mask == if ctr <= 2 * m then [] else out[2 * m..if ctr < 3 * m then ctr else 3 * m]
    {
      if ctr < m { a := a + [out[ctr]]; }
      if m <= ctr && ctr < 2 * m { b := b + [out[ctr]]; }
      if 2 * m <= ctr && ctr < 3 * m { mask := mask + [out[ctr]]; }
    }
  }

  /** The range of std::size_t. */
  const SizeRange: nat := 0x1_0000_0000_0000_0000

  /** SetThreshold: the two conditions on n, t and k, computed on std::size_t. Where nothing exceeds its
      range they are the intended ones; k = 0 wraps to n = t - 1, which the second one never allows, except
      for t = 0, where only the largest n passes. */
  method SetThreshold(n: nat, t: nat, k: nat) returns (r: Option<Params>)
    requires n < SizeRange && t < SizeRange && k < SizeRange
    ensures r.Some? ==> r.value.n == n && r.value.t == t && r.value.k == k
    ensures 2 * t < SizeRange && t + 2 * k <= SizeRange && t + k > 0 ==> (r.Some? <==> k >= 1 && n == t + 2 * (k - 1) + 1 && n > 2 * t)
    ensures 2 * t < SizeRange && t + 2 * k <= SizeRange && t + k > 0 && r.Some? && n + k <= P ==> r.value.Valid()
    ensures r.Some? <==> (n - t - 2 * k + 1) % SizeRange == 0 && n > (2 * t) % SizeRange
  {
    var below := (k - 1) % SizeRange;
    var wanted := (t + (2 * below) % SizeRange + 1) % SizeRange;
    SizeWraps(n, t, k, below, wanted);
    if n != wanted { return None; }
    if n <= (2 * t) % SizeRange { return None; }
    var pp := new Params(n, t, k);
    return Some(pp);
  }

  lemma SizeWraps(n: nat, t: nat, k: nat, below: nat, wanted: nat)
    requires n < SizeRange && t < SizeRange && k < SizeRange
    requires below == (k - 1) % SizeRange && wanted == (t + (2 * below) % SizeRange + 1) % SizeRange
    ensures n == wanted <==> (n - t - 2 * k + 1) % SizeRange == 0
    ensures t + 2 * k <= SizeRange && k >= 1 ==> wanted == t + 2 * (k - 1) + 1
    ensures k == 0 ==> wanted == if t == 0 then SizeRange - 1 else t - 1
  {
    var twice := (2 * below) % SizeRange;
    assert twice == if k == 0 then SizeRange - 2 else if 2 * k - 2 >= SizeRange then 2 * k - 2 - SizeRange else 2 * k - 2;
    assert wanted == if t + twice + 1 >= SizeRange then t + twice + 1 - SizeRange else t + twice + 1;
    SameRemainder(n, wanted, t + 2 * k - 1);
  }

  lemma SameRemainder(n: nat, w: nat, z: int)
    requires n < SizeRange && w < SizeRange
    requires z == w - SizeRange || z == w || z == w + SizeRange || z == w + 2 * SizeRange
    ensures n == w <==> (n - z) % SizeRange == 0
  {
  }

  /** A party's product shares for slot p, one per batch. */
  function ProductRow(k: nat, sz: Sizes, h: Held, p: nat): (r: Vec)
    requires HeldShape(k, sz, h) && p < k
    ensures |r| == sz.mults
  {
    seq(sz.mults, i requires 0 <= i < sz.mults => ProductShare(h, k, sz, p, i))
  }

  function ProductRows(k: nat, sz: Sizes, h: Held): (rows: seq<Vec>)
    requires HeldShape(k, sz, h)
    ensures |rows| == k
  {
    seq(k, p requires 0 <= p < k => ProductRow(k, sz, h, p))
  }

  lemma UnpackedHeld(pp: Params, sz: Sizes, r: Randomness, id: nat)
    requires pp.Valid() && RandomnessShape(pp, sz, r) && id < pp.n
    ensures forall p :: 0 <= p < pp.k ==>
              HeldBy(pp, sz, r, id).unpacked[p] == Extracted(pp.t, Received(AllUnpacked(pp, sz, r)[p], pp.n, id))
  {
    hide Extracted, Received, UnpackedDealt, ZeroAtDealt, IndDealt, ZeroDealt;
  }

  lemma ZeroHeld(pp: Params, sz: Sizes, r: Randomness, id: nat)
    requires pp.Valid() && RandomnessShape(pp, sz, r) && id < pp.n
    ensures HeldBy(pp, sz, r, id).zero == Extracted(pp.t, Received(ZeroDealt(pp, r.zero), pp.n, id))
    ensures forall p :: 0 <= p < pp.k ==>
              HeldBy(pp, sz, r, id).zeroProd[p] == Extracted(pp.t, Received(AllZeroAt(pp, sz, r)[p], pp.n, id))
  {
    hide Extracted, Received, UnpackedDealt, ZeroAtDealt, IndDealt, ZeroDealt;
  }

  class Correlator {
    const pp: Params
    const sz: Sizes
    const id: nat
    const net: Net

    var sharesOfEi: Vec
    var vandermonde: seq<Vec>
    var indShrs: Vec
    var unpackedA: seq<Vec>
    var unpackedB: seq<Vec>
    var unpackedMask: seq<Vec>
    var zeroProdShrs: seq<Vec>
    var multPrep: seq<MultPrep>
    var ioPrep: Vec

    ghost predicate Valid()
      reads `sharesOfEi, `vandermonde, net
    {
      && pp.Valid() && net.Valid() && net.n == pp.n && id < pp.n
      && Tables()
    }

    /** The precomputed tables. */
    ghost predicate Tables()
      reads `sharesOfEi, `vandermonde
    {
      && pp.Valid() && sharesOfEi == EiShares(pp.k, id)
      && IsVandermonde(vandermonde, pp.n, pp.t)
    }

    constructor (pp: Params, sz: Sizes, id: nat, net: Net)
      requires pp.Valid() && net.Valid() && net.n == pp.n && id < pp.n
      ensures Valid() && this.pp == pp && this.sz == sz && this.id == id && this.net == net
      ensures indShrs == [] && unpackedA == [] && unpackedB == [] && unpackedMask == []
      ensures zeroProdShrs == [] && multPrep == [] && ioPrep == []
    {
      this.pp, this.sz, this.id, this.net := pp, sz, id, net;
      indShrs, unpackedA, unpackedB, unpackedMask, zeroProdShrs, multPrep, ioPrep := [], [], [], [], [], [], [];
      var ei := PrecomputeEi(pp.k, id);
      var v := PrecomputeVandermonde(pp.n, pp.t);
      sharesOfEi, vandermonde := ei, v;
    }

    // ---- One block, one run ----

    /** The next block: one share from every dealer. */
    method ReceiveBlock(ghost dealt: seq<seq<Vec>>, ghost start: seq<Vec>, b: nat) returns (recv: Vec)
      requires Valid() && DealtShape(dealt, pp.n) && b < |dealt|
      requires Taken(ToParty(dealt, pp.n, id), |dealt|, start, b, net.inbox)
      modifies net`inbox
      ensures Valid() && recv == Column(dealt[b], id)
      ensures Taken(ToParty(dealt, pp.n, id), |dealt|, start, b + 1, net.inbox)
    {
      hide Tables, Taken, ToParty, BlockMsgs;
      AboutBlock(dealt, pp.n, id, b);
      ghost var before := net.inbox;
      NextThere(ToParty(dealt, pp.n, id), |dealt|, start, b, before);
      recv := net.RecvEach(pp.n);
      TakeOne(ToParty(dealt, pp.n, id), |dealt|, start, b, before, net.inbox);
      assert recv == Column(dealt[b], id);
    }

    /** Send the shares of one block. */
    method SendBlock(ghost dealt: seq<seq<Vec>>, ghost start: seq<Vec>, b: nat, shares: Vec)
      requires Valid() && DealtShape(dealt, pp.n) && b < |dealt| && shares == dealt[b][id]
      requires Put(FromDealer(dealt, pp.n, id), |dealt|, start, b, net.outbox)
      modifies net`outbox
      ensures Valid() && Put(FromDealer(dealt, pp.n, id), |dealt|, start, b + 1, net.outbox)
    {
      hide Tables, Put, FromDealer, BlockMsgs;
      ghost var before := net.outbox;
      net.SendEach(shares, 0);
      AboutBlock(dealt, pp.n, id, b);
      PutOne(FromDealer(dealt, pp.n, id), |dealt|, start, b, before, net.outbox);
    }

    /** Receive the blocks of one run and extract t + 1 values from each. */
    method ReceiveRun(ghost dealt: seq<seq<Vec>>, blocks: nat) returns (out: Vec)
      requires Valid() && DealtShape(dealt, pp.n) && |dealt| == blocks
      requires forall e :: 0 <= e < pp.n ==> BlockMsgs(dealt, pp.n, e, id) <= net.inbox[e]
      modifies net`inbox
      ensures Valid() && out == Extracted(pp.t, Received(dealt, pp.n, id))
      ensures forall e :: 0 <= e < pp.n ==> old(net.inbox)[e] == BlockMsgs(dealt, pp.n, e, id) + net.inbox[e]
    {
      hide Extract, Extracted, IsVandermonde, Taken, BlockMsgs, ToParty, Received, Column;
      out := [];
      ghost var all, msgs := Received(dealt, pp.n, id), ToParty(dealt, pp.n, id);
      ExtractedNone(pp.t);
      TakenNone(msgs, blocks, net.inbox);
      for b := 0 to blocks
        invariant Valid() && out == Extracted(pp.t, all[..b])
        invariant Taken(msgs, blocks, old(net.inbox), b, net.inbox)
      {
        var recv := ReceiveBlock(dealt, old(net.inbox), b);
        ReceivedPrefix(dealt, pp.n, id, b);
        ExtractedSnoc(pp.t, all[..b], recv);
        var more := Combine.ExtractBlock(vandermonde, recv, pp.t);
        out := out + more;
      }
      assert all[..blocks] == all;
      TakenAll(msgs, blocks, old(net.inbox), net.inbox);
    }

    // ---- Individual sharings ----

    method SendIndRun(ghost dealt: seq<seq<Vec>>, own: seq<Dealing>)
      requires Valid() && DealtShape(dealt, pp.n) && |own| == |dealt|
      requires forall b :: 0 <= b < |own| ==> |own[b].rnd| == pp.n + 1 - 2 * pp.k && dealt[b][id] == IndShares(pp, own[b])
      modifies net`outbox
      ensures Valid()
      ensures forall j :: 0 <= j < pp.n ==> net.outbox[j] == old(net.outbox)[j] + BlockMsgs(dealt, pp.n, id, j)
    {
      hide Deal, Tables, Put, BlockMsgs, FromDealer, Rows;
      ghost var msgs := FromDealer(dealt, pp.n, id);
      PutNone(msgs, |dealt|, net.outbox);
      for block := 0 to |own|
        invariant Valid() && Put(msgs, |dealt|, old(net.outbox), block, net.outbox)
      {
        var shares := DealShares(Const(own[block].secret, pp.k), pp.n - pp.k, own[block].rnd, pp.n);
        SendBlock(dealt, old(net.outbox), block, shares);
      }
      PutAll(msgs, |dealt|, old(net.outbox), net.outbox);
    }

    method GenIndShrsPartiesSend(r: Randomness)
      requires Valid() && RandomnessShape(pp, sz, r)
      modifies net`outbox
      ensures Valid()
      ensures forall j :: 0 <= j < pp.n ==> net.outbox[j] == old(net.outbox)[j] + BlockMsgs(IndDealt(pp, r.ind), pp.n, id, j)
    {
      hide IndShares, Tables, BlockMsgs;
      SendIndRun(IndDealt(pp, r.ind), OwnDealings(r.ind, id));
    }

    method GenIndShrsPartiesReceive(ghost r: Randomness)
      requires Valid() && RandomnessShape(pp, sz, r) && indShrs == []
      requires forall e :: 0 <= e < pp.n ==> BlockMsgs(IndDealt(pp, r.ind), pp.n, e, id) <= net.inbox[e]
      modifies this`indShrs, net`inbox
      ensures Valid() && indShrs == HeldBy(pp, sz, r, id).ind
      ensures forall e :: 0 <= e < pp.n ==> old(net.inbox)[e] == BlockMsgs(IndDealt(pp, r.ind), pp.n, e, id) + net.inbox[e]
    {
      hide Extracted, IndDealt, Tables;
      var out := ReceiveRun(IndDealt(pp, r.ind), Blocks(sz.inds, pp.t));
      indShrs := indShrs + out;
    }

    // ---- Sharings with one secret at one slot ----

    /** One run of sharings for slot p, of degree d. */
    method SendRunAt(ghost dealt: seq<seq<Vec>>, p: nat, d: nat, own: seq<Dealing>)
      requires Valid() && p < pp.k && p + d < P && DealtShape(dealt, pp.n) && |own| == |dealt|
      requires forall b :: 0 <= b < |own| ==> |own[b].rnd| == d && dealt[b][id] == DealAt(own[b].secret, p, d, own[b].rnd, pp.n)
      modifies net`outbox
      ensures Valid()
      ensures forall j :: 0 <= j < pp.n ==> net.outbox[j] == old(net.outbox)[j] + BlockMsgs(dealt, pp.n, id, j)
    {
      hide DealAt, Tables, Put, BlockMsgs, FromDealer, Rows;
      ghost var msgs := FromDealer(dealt, pp.n, id);
      PutNone(msgs, |dealt|, net.outbox);
      for block := 0 to |own|
        invariant Valid() && Put(msgs, |dealt|, old(net.outbox), block, net.outbox)
      {
        var shares := DealSharesAt(own[block].secret, p, d, own[block].rnd, pp.n);
        SendBlock(dealt, old(net.outbox), block, shares);
      }
      PutAll(msgs, |dealt|, old(net.outbox), net.outbox);
    }

    method GenUnpackedShrPartiesSend(r: Randomness)
      requires Valid() && RandomnessShape(pp, sz, r)
      modifies net`outbox
      ensures Valid()
      ensures forall j :: 0 <= j < pp.n ==>
                net.outbox[j] == old(net.outbox)[j] + Join(SlotMsgs(AllUnpacked(pp, sz, r), pp.n, id, j))
    {
      hide DealAt, Tables, BlockMsgs, Join;
      ghost var dealt := AllUnpacked(pp, sz, r);
      ghost var start := net.outbox;
      assert forall j :: 0 <= j < pp.n ==> SlotMsgs(dealt, pp.n, id, j)[0..] == SlotMsgs(dealt, pp.n, id, j);
      for p := 0 to pp.k
        invariant Valid()
        invariant forall j :: 0 <= j < pp.n ==>
          net.outbox[j] + Join(SlotMsgs(dealt, pp.n, id, j)[p..]) == start[j] + Join(SlotMsgs(dealt, pp.n, id, j))
      {
        var own := OwnDealings(r.unpacked[p], id);
        SendRunAt(dealt[p], p, pp.t, own);
        forall j | 0 <= j < pp.n { JoinStep(SlotMsgs(dealt, pp.n, id, j), p); }
      }
      JoinNone();
    }

    /** One run per slot: what is extracted for each slot. */
    method ReceiveSlots(ghost dealt: seq<seq<seq<Vec>>>, blocks: nat, ghost rest: seq<Vec>) returns (rows: seq<Vec>)
      requires Valid() && SlotsDealt(dealt, pp.n) && |dealt| == pp.k && |rest| == pp.n
      requires forall p :: 0 <= p < pp.k ==> |dealt[p]| == blocks
      requires forall e :: 0 <= e < pp.n ==> net.inbox[e] == Join(SlotMsgs(dealt, pp.n, e, id)) + rest[e]
      modifies net`inbox
      ensures Valid() && |rows| == pp.k
      ensures forall p :: 0 <= p < pp.k ==> rows[p] == Extracted(pp.t, Received(dealt[p], pp.n, id))
      ensures forall e :: 0 <= e < pp.n ==> net.inbox[e] == rest[e]
    {
      hide Tables, BlockMsgs, Join, Extracted, Received;
      rows := [];
      assert forall e :: 0 <= e < pp.n ==> SlotMsgs(dealt, pp.n, e, id)[0..] == SlotMsgs(dealt, pp.n, e, id);
      for p := 0 to pp.k
        invariant Valid() && |rows| == p
        invariant forall q :: 0 <= q < p ==> rows[q] == Extracted(pp.t, Received(dealt[q], pp.n, id))
        invariant forall e :: 0 <= e < pp.n ==> net.inbox[e] == Join(SlotMsgs(dealt, pp.n, e, id)[p..]) + rest[e]
      {
        forall e | 0 <= e < pp.n { FrontRow(SlotMsgs(dealt, pp.n, e, id), p, rest[e], net.inbox[e]); }
        var out := ReceiveRun(dealt[p], blocks);
        rows := rows + [out];
      }
      JoinNone();
    }

    /** Each slot's values go to A, B or Mask by a counter. */
    method FileUnpacked(rows: seq<Vec>, ghost h: Held)
      requires Valid() && HeldShape(pp.k, sz, h) && rows == h.unpacked
      requires unpackedA == [] && unpackedB == [] && unpackedMask == []
      modifies this`unpackedA, this`unpackedB, this`unpackedMask
      ensures UnpackedFiled(h, pp.k)
    {
      for p := 0 to pp.k
        invariant UnpackedFiled(h, p)
      {
        var a, b, mask := FileInThirds(rows[p], sz.mults);
        unpackedA, unpackedB, unpackedMask := unpackedA + [a], unpackedB + [b], unpackedMask + [mask];
      }
    }

    /** The first m slots' values are filed in thirds. */
    ghost predicate UnpackedFiled(h: Held, m: nat)
      requires pp.Valid() && HeldShape(pp.k, sz, h)
      reads `unpackedA, `unpackedB, `unpackedMask
    {
      && m <= pp.k && |unpackedA| == |unpackedB| == |unpackedMask| == m
      && forall p :: 0 <= p < m ==>
           && unpackedA[p] == h.unpacked[p][..sz.mults]
           && unpackedB[p] == h.unpacked[p][sz.mults..2 * sz.mults]
           && unpackedMask[p] == h.unpacked[p][2 * sz.mults..3 * sz.mults]
    }

    ghost function FactorsOnly(h: Held, i: nat): MultPrep
      requires pp.Valid() && HeldShape(pp.k, sz, h) && i < sz.mults
    {
      MultPrep(Dot(EiShares(pp.k, id), FactorA(h, pp.k, sz, i), pp.k), Dot(EiShares(pp.k, id), FactorB(h, pp.k, sz, i), pp.k), 0, 0, 0, 0)
    }

    method PackFactors(i: nat, ghost h: Held) returns (data: MultPrep)
      requires Valid() && HeldShape(pp.k, sz, h) && UnpackedFiled(h, pp.k) && i < sz.mults
      ensures data == FactorsOnly(h, i)
    {
      hide Mul, Add, Mod, EiShares, VPow;
      data := MultPrep(0, 0, 0, 0, 0, 0);
      for p := 0 to pp.k
        invariant data == MultPrep(Dot(sharesOfEi, FactorA(h, pp.k, sz, i), p), Dot(sharesOfEi, FactorB(h, pp.k, sz, i), p), 0, 0, 0, 0)
      {
        data := data.(a := Add(data.a, Mul(sharesOfEi[p], unpackedA[p][i])), b := Add(data.b, Mul(sharesOfEi[p], unpackedB[p][i])));
      }
    }

    method GenUnpackedShrPartiesReceive(ghost r: Randomness, ghost rest: seq<Vec>)
      requires Valid() && RandomnessShape(pp, sz, r) && |rest| == pp.n
      requires forall e :: 0 <= e < pp.n ==> net.inbox[e] == Join(SlotMsgs(AllUnpacked(pp, sz, r), pp.n, e, id)) + rest[e]
      requires unpackedA == [] && unpackedB == [] && unpackedMask == [] && multPrep == []
      modifies this`unpackedA, this`unpackedB, this`unpackedMask, this`multPrep, net`inbox
      ensures Valid() && UnpackedFiled(HeldBy(pp, sz, r, id), pp.k)
      ensures |multPrep| == sz.mults && forall i :: 0 <= i < sz.mults ==> multPrep[i] == FactorsOnly(HeldBy(pp, sz, r, id), i)
      ensures forall e :: 0 <= e < pp.n ==> net.inbox[e] == rest[e]
    {
      hide Extracted, EiShares, Tables, Join, SlotMsgs, UnpackedFiled, HeldBy, FactorsOnly;
      ghost var h := HeldBy(pp, sz, r, id);
      var rows := ReceiveSlots(AllUnpacked(pp, sz, r), Blocks(3 * sz.mults, pp.t), rest);
      UnpackedHeld(pp, sz, r, id);
      assert rows == h.unpacked;
      FileUnpacked(rows, h);
      for i := 0 to sz.mults
        invariant Valid() && UnpackedFiled(h, pp.k) && forall e :: 0 <= e < pp.n ==> net.inbox[e] == rest[e]
        invariant |multPrep| == i && forall q :: 0 <= q < i ==> multPrep[q] == FactorsOnly(h, q)
      {
        var data := PackFactors(i, h);
        multPrep := multPrep + [data];
      }
    }

    // ---- Sharings of zero ----

    method SendZeroRun(ghost dealt: seq<seq<Vec>>, own: seq<Vec>)
      requires Valid() && DealtShape(dealt, pp.n) && |own| == |dealt|
      requires forall b :: 0 <= b < |own| ==> |own[b]| == pp.n - pp.k && dealt[b][id] == ZeroShares(pp, own[b])
      modifies net`outbox
      ensures Valid()
      ensures forall j :: 0 <= j < pp.n ==> net.outbox[j] == old(net.outbox)[j] + BlockMsgs(dealt, pp.n, id, j)
    {
      hide Deal, Tables, Put, BlockMsgs, FromDealer, Rows;
      ghost var msgs := FromDealer(dealt, pp.n, id);
      PutNone(msgs, |dealt|, net.outbox);
      for block := 0 to |own|
        invariant Valid() && Put(msgs, |dealt|, old(net.outbox), block, net.outbox)
      {
        var shares := DealShares(Const(0, pp.k), pp.n - 1, own[block], pp.n);
        SendBlock(dealt, old(net.outbox), block, shares);
      }
      PutAll(msgs, |dealt|, old(net.outbox), net.outbox);
    }

    method GenZeroPartiesSend(r: Randomness)
      requires Valid() && RandomnessShape(pp, sz, r)
      modifies net`outbox
      ensures Valid()
      ensures forall j :: 0 <= j < pp.n ==> net.outbox[j] == old(net.outbox)[j] + BlockMsgs(ZeroDealt(pp, r.zero), pp.n, id, j)
    {
      hide ZeroShares, Tables, BlockMsgs;
      SendZeroRun(ZeroDealt(pp, r.zero), seq(|r.zero|, b requires 0 <= b < |r.zero| => r.zero[b][id]));
    }

    /** The counter's three tests, of which only the last has an `else`. */
    method FileZero(ctr: nat, shr: Elem)
      requires |multPrep| == sz.mults
      modifies this`multPrep, this`ioPrep
      ensures |multPrep| == sz.mults
      ensures forall i :: 0 <= i < sz.mults ==> multPrep[i] == OneZero(old(multPrep)[i], shr, i, ctr)
      ensures ioPrep == if 2 * sz.mults <= ctr < 3 * sz.mults then old(ioPrep) else old(ioPrep) + [shr]
    {
      var m := sz.mults;
      if ctr < m { multPrep := multPrep[ctr := multPrep[ctr].(o1 := shr)]; }
      if m <= ctr && ctr < 2 * m { multPrep := multPrep[ctr - m := multPrep[ctr - m].(o2 := shr)]; }
      if 2 * m <= ctr && ctr < 3 * m {
        multPrep := multPrep[ctr - 2 * m := multPrep[ctr - 2 * m].(o3 := shr)];
      } else {
        ioPrep := ioPrep + [shr];
      }
    }

    /** Entry i after filing number ctr. */
    ghost function OneZero(d: MultPrep, shr: Elem, i: nat, ctr: nat): MultPrep
      requires i < sz.mults
    {
      MultPrep(d.a, d.b, d.c, if ctr == i then shr else d.o1, if ctr == sz.mults + i then shr else d.o2,
               if ctr == 2 * sz.mults + i then shr else d.o3)
    }

    method FileZeros(zero: Vec)
      requires |zero| >= 3 * sz.mults && |multPrep| == sz.mults && ioPrep == []
      modifies this`multPrep, this`ioPrep
      ensures |multPrep| == sz.mults
      ensures forall i :: 0 <= i < sz.mults ==> multPrep[i] == WithZeros(old(multPrep)[i], zero, i, |zero|)
      ensures ioPrep == zero[..2 * sz.mults] + zero[3 * sz.mults..]
    {
      var m := sz.mults;
      for ctr := 0 to |zero|
        invariant |multPrep| == m
        invariant forall i :: 0 <= i < m ==> multPrep[i] == WithZeros(old(multPrep)[i], zero, i, ctr)
        invariant ioPrep == zero[..if ctr < 2 * m then ctr else 2 * m] + zero[3 * m..if ctr < 3 * m then 3 * m else ctr]
      {
        FileZero(ctr, zero[ctr]);
      }
    }

    /** Entry i after the first ctr zero sharings have been filed. */
    ghost function WithZeros(d: MultPrep, zero: Vec, i: nat, ctr: nat): MultPrep
      requires i < sz.mults && |zero| >= 3 * sz.mults
    {
      var m := sz.mults;
      MultPrep(d.a, d.b, d.c, if i < ctr then zero[i] else d.o1, if m + i < ctr then zero[m + i] else d.o2,
               if 2 * m + i < ctr then zero[2 * m + i] else d.o3)
    }

    method GenZeroPartiesReceive(ghost r: Randomness)
      requires Valid() && RandomnessShape(pp, sz, r) && |multPrep| == sz.mults && ioPrep == []
      requires forall e :: 0 <= e < pp.n ==> BlockMsgs(ZeroDealt(pp, r.zero), pp.n, e, id) <= net.inbox[e]
      modifies this`multPrep, this`ioPrep, net`inbox
      ensures Valid() && |multPrep| == sz.mults
      ensures forall i :: 0 <= i < sz.mults ==> multPrep[i] == AllZeros(old(multPrep)[i], HeldBy(pp, sz, r, id), i)
      ensures ioPrep == IOZeros(sz, HeldBy(pp, sz, r, id).zero)
      ensures forall e :: 0 <= e < pp.n ==> old(net.inbox)[e] == BlockMsgs(ZeroDealt(pp, r.zero), pp.n, e, id) + net.inbox[e]
    {
      hide Extracted, ZeroDealt, Tables, BlockMsgs, HeldBy;
      var zero := ReceiveRun(ZeroDealt(pp, r.zero), Blocks(3 * sz.mults + sz.ios, pp.t));
      ZeroHeld(pp, sz, r, id);
      FileZeros(zero);
    }

    ghost function AllZeros(d: MultPrep, h: Held, i: nat): MultPrep
      requires pp.Valid() && HeldShape(pp.k, sz, h) && i < sz.mults
    {
      d.(o1 := h.zero[i], o2 := h.zero[sz.mults + i], o3 := h.zero[2 * sz.mults + i])
    }

    // ---- Sharings of zero at one slot ----

    method GenZeroForProdPartiesSend(r: Randomness)
      requires Valid() && RandomnessShape(pp, sz, r)
      modifies net`outbox
      ensures Valid()
      ensures forall j :: 0 <= j < pp.n ==>
                net.outbox[j] == old(net.outbox)[j] + Join(SlotMsgs(AllZeroAt(pp, sz, r), pp.n, id, j))
    {
      hide DealAt, Tables, BlockMsgs, Join;
      ghost var dealt := AllZeroAt(pp, sz, r);
      ghost var start := net.outbox;
      assert forall j :: 0 <= j < pp.n ==> SlotMsgs(dealt, pp.n, id, j)[0..] == SlotMsgs(dealt, pp.n, id, j);
      for p := 0 to pp.k
        invariant Valid()
        invariant forall j :: 0 <= j < pp.n ==>
          net.outbox[j] + Join(SlotMsgs(dealt, pp.n, id, j)[p..]) == start[j] + Join(SlotMsgs(dealt, pp.n, id, j))
      {
        var own := OwnZeros(r.zeroProd[p], id);
        SendRunAt(dealt[p], p, pp.n - 1, own);
        forall j | 0 <= j < pp.n { JoinStep(SlotMsgs(dealt, pp.n, id, j), p); }
      }
      JoinNone();
    }

    method GenZeroForProdPartiesReceive(ghost r: Randomness, ghost rest: seq<Vec>)
      requires Valid() && RandomnessShape(pp, sz, r) && |rest| == pp.n && zeroProdShrs == []
      requires forall e :: 0 <= e < pp.n ==> net.inbox[e] == Join(SlotMsgs(AllZeroAt(pp, sz, r), pp.n, e, id)) + rest[e]
      modifies this`zeroProdShrs, net`inbox
      ensures Valid() && zeroProdShrs == HeldBy(pp, sz, r, id).zeroProd
      ensures forall e :: 0 <= e < pp.n ==> net.inbox[e] == rest[e]
    {
      hide Extracted, Tables, Join, SlotMsgs, HeldBy;
      var rows := ReceiveSlots(AllZeroAt(pp, sz, r), Blocks(sz.mults, pp.t), rest);
      ZeroHeld(pp, sz, r, id);
      zeroProdShrs := zeroProdShrs + rows;
    }

    // ---- Products ----

    /** Everything received in the first rounds is held. */
    ghost predicate Holds(h: Held)
      requires pp.Valid() && HeldShape(pp.k, sz, h)
      reads `unpackedA, `unpackedB, `unpackedMask, `zeroProdShrs
    {
      UnpackedFiled(h, pp.k) && zeroProdShrs == h.zeroProd
    }

    method SendProductRow(p: nat, ghost h: Held)
      requires Valid() && HeldShape(pp.k, sz, h) && Holds(h) && p < pp.k
      modifies net`outbox
      ensures Valid() && net.outbox[0] == old(net.outbox)[0] + ProductRow(pp.k, sz, h, p)
      ensures forall j :: 0 < j < pp.n ==> net.outbox[j] == old(net.outbox)[j]
    {
      hide Tables, Mul, Add, Mod;
      for batch := 0 to sz.mults
        invariant Valid() && net.outbox[0] == old(net.outbox)[0] + ProductRow(pp.k, sz, h, p)[..batch]
        invariant forall j :: 0 < j < pp.n ==> net.outbox[j] == old(net.outbox)[j]
      {
        var share := Add(Add(Mul(unpackedA[p][batch], unpackedB[p][batch]), unpackedMask[p][batch]), zeroProdShrs[p][batch]);
        assert share == ProductRow(pp.k, sz, h, p)[batch];
        net.Send(0, share);
      }
      assert ProductRow(pp.k, sz, h, p)[..sz.mults] == ProductRow(pp.k, sz, h, p);
    }

    method GenProdPartiesSendP1(ghost h: Held)
      requires Valid() && HeldShape(pp.k, sz, h) && Holds(h)
      modifies net`outbox
      ensures Valid() && net.outbox[0] == old(net.outbox)[0] + Join(ProductRows(pp.k, sz, h))
      ensures forall j :: 0 < j < pp.n ==> net.outbox[j] == old(net.outbox)[j]
    {
      hide Tables, Join, Holds, ProductRow;
      ghost var rows, start := ProductRows(pp.k, sz, h), net.outbox;
      assert rows[0..] == rows;
      for p := 0 to pp.k
        invariant Valid() && Holds(h) && net.outbox[0] + Join(rows[p..]) == start[0] + Join(rows)
        invariant forall j :: 0 < j < pp.n ==> net.outbox[j] == start[j]
      {
        SendProductRow(p, h);
        JoinStep(rows, p);
      }
      JoinNone();
    }

    /** P1 opens the product of slot p in one batch and shares it again, sending only to the parties
        from t on. */
    method OpenOne(p: nat, ghost recvd: Vec)
      requires Valid() && p < pp.k && |recvd| == pp.n
      requires forall e :: 0 <= e < pp.n ==> net.inbox[e] != [] && net.inbox[e][0] == recvd[e]
      modifies net`inbox, net`outbox
      ensures Valid() && forall e :: 0 <= e < pp.n ==> net.inbox[e] == old(net.inbox)[e][1..]
      ensures forall j :: 0 <= j < pp.n ==> net.outbox[j] == old(net.outbox)[j] + OnlyLate(pp, j, [OpenedShares(pp, recvd, p)[j]])
      ensures forall j :: 0 <= j < pp.t ==> net.outbox[j] == old(net.outbox)[j]
    {
      hide Tables, Lagrange;
      var recv := net.RecvEach(pp.n);
      assert recv == recvd;
      var secret := SecretFromPointAndShares(SlotX(p), recv);
      var yPoints, xPoints := [secret], [SlotX(p)];
      for i := 1 to pp.t + 1
        invariant yPoints == [secret] + Const(0, i - 1) && xPoints == [SlotX(p)] + ShareXs(i - 1)
      {
        yPoints := yPoints + [0];
        xPoints := xPoints + [Mod(i)];
      }
      DealAtXsDistinct(p, pp.t);
      var poly := FromPoints(xPoints, yPoints);
      var shares := SharesFromEvPoly(poly.value, pp.n);
      net.SendEach(shares, pp.t);
    }

    method OpenRow(p: nat, ghost r: Randomness)
      requires Valid() && RandomnessShape(pp, sz, r) && p < pp.k
      requires forall e :: 0 <= e < pp.n ==> ProductRow(pp.k, sz, HeldBy(pp, sz, r, e), p) <= net.inbox[e]
      modifies net`inbox, net`outbox
      ensures Valid()
      ensures forall e :: 0 <= e < pp.n ==> old(net.inbox)[e] == ProductRow(pp.k, sz, HeldBy(pp, sz, r, e), p) + net.inbox[e]
      ensures forall j :: 0 <= j < pp.n ==> net.outbox[j] == old(net.outbox)[j] + OnlyLate(pp, j, OpenedRow(pp, sz, r, p, j))
    {
      hide Tables, Taken, OpenedShares, HeldBy, RandomnessShape, AllProductRows, OpenedRow, ProductsSent, ProductRow, OnlyLate, Opened;
      ghost var msgs := AllProductRows(pp, sz, r, p);
      TakenNone(msgs, sz.mults, net.inbox);
      NoneOpened(pp, sz, r, p, net.outbox);
      for i := 0 to sz.mults
        invariant Valid() && Taken(msgs, sz.mults, old(net.inbox), i, net.inbox)
        invariant Opened(pp, sz, r, p, i, old(net.outbox), net.outbox)
      {
        ghost var inbox, outbox := net.inbox, net.outbox;
        NextThere(msgs, sz.mults, old(net.inbox), i, inbox);
        AboutProducts(pp, sz, r, p, i);
        OpenOne(p, ProductsSent(pp, sz, r, p, i));
        TakeOne(msgs, sz.mults, old(net.inbox), i, inbox, net.inbox);
        OneOpened(pp, sz, r, p, i, old(net.outbox), outbox, net.outbox);
      }
      TakenAll(msgs, sz.mults, old(net.inbox), net.inbox);
      AllOpened(pp, sz, r, p, old(net.outbox), net.outbox);
    }

    method GenProdP1ReceivesAndSends(ghost r: Randomness, ghost rest: seq<Vec>)
      requires Valid() && RandomnessShape(pp, sz, r) && |rest| == pp.n
      requires id == 0 ==> forall e :: 0 <= e < pp.n ==> net.inbox[e] == Join(ProductRows(pp.k, sz, HeldBy(pp, sz, r, e))) + rest[e]
      modifies net`inbox, net`outbox
      ensures Valid()
      ensures id == 0 ==> forall e :: 0 <= e < pp.n ==> net.inbox[e] == rest[e]
      ensures id == 0 ==> forall j :: 0 <= j < pp.n ==>
                net.outbox[j] == old(net.outbox)[j] + OnlyLate(pp, j, Join(OpenedRows(pp, sz, r, j)))
      ensures id == 0 ==> forall j :: 0 <= j < pp.t ==> net.outbox[j] == old(net.outbox)[j]
      ensures id != 0 ==> net.inbox == old(net.inbox) && net.outbox == old(net.outbox)
    {
      hide Tables, Join, HeldBy, OpenedRow, ProductRow, RandomnessShape, RowsAwaited, RowsMissing, OnlyLate, ProductRows, OpenedRows;
      if id == 0 {
        ghost var start := net.outbox;
        RowsStart(pp, sz, r, net.inbox, rest, start);
        for p := 0 to pp.k
          invariant Valid() && RowsAwaited(pp, sz, r, p, net.inbox, rest) && RowsMissing(pp, sz, r, p, start, net.outbox)
        {
          ghost var inbox, outbox := net.inbox, net.outbox;
          RowAhead(pp, sz, r, p, inbox, rest);
          OpenRow(p, r);
          RowTaken(pp, sz, r, p, inbox, rest, net.inbox);
          RowSent(pp, sz, r, p, start, outbox, net.outbox);
        }
        RowsDone(pp, sz, r, net.inbox, rest, start, net.outbox);
      }
    }

    /** Slot p: what is received, or 0 for the first t parties, minus the mask. */
    method ReceiveProductRow(p: nat, ghost r: Randomness) returns (row: Vec)
      requires Valid() && RandomnessShape(pp, sz, r) && p < pp.k && Holds(HeldBy(pp, sz, r, id))
      requires id >= pp.t ==> OpenedRow(pp, sz, r, p, id) <= net.inbox[0]
      modifies net`inbox
      ensures Valid() && row == UnmaskedRow(pp, sz, r, id, p)
      ensures old(net.inbox)[0] == OnlyLate(pp, id, OpenedRow(pp, sz, r, p, id)) + net.inbox[0]
      ensures forall e :: 0 < e < pp.n ==> net.inbox[e] == old(net.inbox)[e]
    {
      hide Tables, OpenedShares, RandomnessShape, ProductsSent, HeldBy;
      ghost var sent := OpenedRow(pp, sz, r, p, id);
      row := [];
      for batch := 0 to sz.mults
        invariant Valid() && |row| == batch && forall i :: 0 <= i < batch ==> row[i] == UnmaskedRow(pp, sz, r, id, p)[i]
        invariant old(net.inbox)[0] == OnlyLate(pp, id, sent[..batch]) + net.inbox[0]
        invariant forall e :: 0 < e < pp.n ==> net.inbox[e] == old(net.inbox)[e]
      {
        var recv: Elem := 0;
        if id >= pp.t {
          NextMsg(old(net.inbox)[0], sent, net.inbox[0], batch);
          recv := net.Recv(0);
        }
        row := row + [Sub(recv, unpackedMask[p][batch])];
      }
      assert sent[..sz.mults] == sent;
    }

    method ReceiveProducts(ghost r: Randomness, ghost rest: Vec) returns (sharesProd: seq<Vec>)
      requires Valid() && RandomnessShape(pp, sz, r) && Holds(HeldBy(pp, sz, r, id))
      requires net.inbox[0] == OnlyLate(pp, id, Join(OpenedRows(pp, sz, r, id))) + rest
      modifies net`inbox
      ensures Valid() && net.inbox[0] == rest && forall e :: 0 < e < pp.n ==> net.inbox[e] == old(net.inbox)[e]
      ensures |sharesProd| == pp.k && forall p :: 0 <= p < pp.k ==> sharesProd[p] == UnmaskedRow(pp, sz, r, id, p)
    {
      hide Tables, OpenedShares, RandomnessShape, ProductsSent, HeldBy, UnmaskedRow, OpenedRow, Join, Holds;
      ghost var rows := OpenedRows(pp, sz, r, id);
      sharesProd := [];
      assert rows[0..] == rows;
      for p := 0 to pp.k
        invariant Valid() && Holds(HeldBy(pp, sz, r, id))
        invariant net.inbox[0] == OnlyLate(pp, id, Join(rows[p..])) + rest
        invariant forall e :: 0 < e < pp.n ==> net.inbox[e] == old(net.inbox)[e]
        invariant |sharesProd| == p && forall q :: 0 <= q < p ==> sharesProd[q] == UnmaskedRow(pp, sz, r, id, q)
      {
        if id >= pp.t { FrontRow(rows, p, rest, net.inbox[0]); }
        var row := ReceiveProductRow(p, r);
        sharesProd := sharesProd + [row];
      }
      JoinNone();
    }

    /** The last round: afterwards every batch holds exactly the triple and zero shares of PrepBy. */
    method GenProdPartiesReceive(ghost r: Randomness, ghost rest: Vec)
      requires Valid() && RandomnessShape(pp, sz, r) && Holds(HeldBy(pp, sz, r, id)) && |multPrep| == sz.mults
      requires forall i :: 0 <= i < sz.mults ==>
                 multPrep[i] == AllZeros(FactorsOnly(HeldBy(pp, sz, r, id), i), HeldBy(pp, sz, r, id), i)
      requires net.inbox[0] == OnlyLate(pp, id, Join(OpenedRows(pp, sz, r, id))) + rest
      modifies this`multPrep, net`inbox
      ensures Valid() && net.inbox[0] == rest && forall e :: 0 < e < pp.n ==> net.inbox[e] == old(net.inbox)[e]
      ensures id < pp.t ==> net.inbox[0] == old(net.inbox)[0]
      ensures |multPrep| == sz.mults && forall i :: 0 <= i < sz.mults ==> multPrep[i] == PrepBy(pp, sz, r, id, i)
    {
      hide Tables, OpenedShares, RandomnessShape, ProductsSent, HeldBy, UnmaskedRow, OpenedRow, Join, Holds, AllZeros, FactorsOnly, PrepBy;
      var sharesProd := ReceiveProducts(r, rest);
      for i := 0 to sz.mults
        invariant Valid() && |multPrep| == sz.mults
        invariant net.inbox[0] == rest && forall e :: 0 < e < pp.n ==> net.inbox[e] == old(net.inbox)[e]
        invariant forall q :: 0 <= q < sz.mults ==>
          multPrep[q] == if q < i then PrepBy(pp, sz, r, id, q) else AllZeros(FactorsOnly(HeldBy(pp, sz, r, id), q), HeldBy(pp, sz, r, id), q)
      {
        var c := PackProducts(sharesProd, i, r);
        FinishedPrep(pp, sz, r, i);
        multPrep := multPrep[i := multPrep[i].(c := c)];
      }
    }

    method PackProducts(sharesProd: seq<Vec>, i: nat, ghost r: Randomness) returns (c: Elem)
      requires Valid() && RandomnessShape(pp, sz, r) && i < sz.mults
      requires |sharesProd| == pp.k && forall p :: 0 <= p < pp.k ==> sharesProd[p] == UnmaskedRow(pp, sz, r, id, p)
      ensures c == PrepBy(pp, sz, r, id, i).c
    {
      hide OpenedShares, RandomnessShape, ProductsSent, HeldBy, EiShares, Mul, Add, Sub, Mod, VPow;
      ghost var values := VSub(TakenBy(pp, sz, r, id, i), Masks(HeldBy(pp, sz, r, id), pp.k, sz, i));
      c := 0;
      for p := 0 to pp.k
        invariant c == Dot(sharesOfEi, values, p)
      {
        assert sharesProd[p][i] == values[p];
        c := Add(c, Mul(sharesOfEi[p], sharesProd[p][i]));
      }
    }

    lemma FinishedPrep(pp': Params, sz': Sizes, r: Randomness, i: nat)
      requires pp' == pp && sz' == sz && pp.Valid() && RandomnessShape(pp, sz, r) && id < pp.n && i < sz.mults
      ensures AllZeros(FactorsOnly(HeldBy(pp, sz, r, id), i), HeldBy(pp, sz, r, id), i).(c := PrepBy(pp, sz, r, id, i).c) == PrepBy(pp, sz, r, id, i)
    {
      hide OpenedShares, RandomnessShape, ProductsSent, HeldBy, EiShares, Dot, TakenBy;
    }
  }

  lemma AboutProducts(pp: Params, sz: Sizes, r: Randomness, p: nat, i: nat)
    requires pp.Valid() && RandomnessShape(pp, sz, r) && p < pp.k && i < sz.mults
    ensures forall e :: 0 <= e < pp.n ==> AllProductRows(pp, sz, r, p)[e][i] == ProductsSent(pp, sz, r, p, i)[e]
  {
    hide HeldBy, RandomnessShape, ProductShare;
  }

  /** For slot p, the shares of the first i batches have been sent. */
  ghost predicate Opened(pp: Params, sz: Sizes, r: Randomness, p: nat, i: nat, start: seq<Vec>, now: seq<Vec>)
    requires pp.Valid() && RandomnessShape(pp, sz, r) && p < pp.k && i <= sz.mults
  {
    |start| == |now| == pp.n
    && forall j :: 0 <= j < pp.n ==> now[j] == start[j] + OnlyLate(pp, j, OpenedRow(pp, sz, r, p, j)[..i])
  }

  lemma OneOpened(pp: Params, sz: Sizes, r: Randomness, p: nat, i: nat, start: seq<Vec>, now: seq<Vec>, after: seq<Vec>)
    requires pp.Valid() && RandomnessShape(pp, sz, r) && p < pp.k && i < sz.mults
    requires Opened(pp, sz, r, p, i, start, now) && |after| == pp.n
    requires forall j :: 0 <= j < pp.n ==> after[j] == now[j] + OnlyLate(pp, j, [OpenedShares(pp, ProductsSent(pp, sz, r, p, i), p)[j]])
    ensures Opened(pp, sz, r, p, i + 1, start, after)
  {
    hide OpenedShares, HeldBy, RandomnessShape, ProductsSent;
    forall j | 0 <= j < pp.n ensures after[j] == start[j] + OnlyLate(pp, j, OpenedRow(pp, sz, r, p, j)[..i + 1]) {
      OneMoreSent(pp, j, start[j], now[j], OpenedRow(pp, sz, r, p, j), i, after[j]);
    }
  }

  lemma OneMoreSent(pp: Params, j: nat, start: Vec, now: Vec, row: Vec, i: nat, after: Vec)
    requires i < |row| && now == start + OnlyLate(pp, j, row[..i]) && after == now + OnlyLate(pp, j, [row[i]])
    ensures after == start + OnlyLate(pp, j, row[..i + 1])
  {
    assert row[..i + 1] == row[..i] + [row[i]];
  }

  lemma NoneOpened(pp: Params, sz: Sizes, r: Randomness, p: nat, start: seq<Vec>)
    requires pp.Valid() && RandomnessShape(pp, sz, r) && p < pp.k && |start| == pp.n
    ensures Opened(pp, sz, r, p, 0, start, start)
  {
    hide OpenedShares, HeldBy, RandomnessShape, ProductsSent;
  }

  lemma AllOpened(pp: Params, sz: Sizes, r: Randomness, p: nat, start: seq<Vec>, now: seq<Vec>)
    requires pp.Valid() && RandomnessShape(pp, sz, r) && p < pp.k && Opened(pp, sz, r, p, sz.mults, start, now)
    ensures forall j :: 0 <= j < pp.n ==> now[j] == start[j] + OnlyLate(pp, j, OpenedRow(pp, sz, r, p, j))
  {
    hide OpenedShares, HeldBy, RandomnessShape, ProductsSent;
    assert forall j :: 0 <= j < pp.n ==> OpenedRow(pp, sz, r, p, j)[..sz.mults] == OpenedRow(pp, sz, r, p, j);
  }

  /** Before slot p: the awaited rows from p on are in the inboxes. */
  ghost predicate RowsAwaited(pp: Params, sz: Sizes, r: Randomness, p: nat, inbox: seq<Vec>, rest: seq<Vec>)
    requires pp.Valid() && RandomnessShape(pp, sz, r)
  {
    p <= pp.k && |inbox| == |rest| == pp.n
    && forall e :: 0 <= e < pp.n ==> inbox[e] == Join(AllOf(pp, sz, r, e)[p..]) + rest[e]
  }

  /** Before slot p: the rows to be sent from p on are missing in the outboxes. */
  ghost predicate RowsMissing(pp: Params, sz: Sizes, r: Randomness, p: nat, start: seq<Vec>, outbox: seq<Vec>)
    requires pp.Valid() && RandomnessShape(pp, sz, r)
  {
    p <= pp.k && |start| == |outbox| == pp.n
    && forall j :: 0 <= j < pp.n ==>
         outbox[j] + OnlyLate(pp, j, Join(OpenedRows(pp, sz, r, j)[p..])) == start[j] + OnlyLate(pp, j, Join(OpenedRows(pp, sz, r, j)))
  }

  lemma RowsStart(pp: Params, sz: Sizes, r: Randomness, inbox: seq<Vec>, rest: seq<Vec>, start: seq<Vec>)
    requires pp.Valid() && RandomnessShape(pp, sz, r) && |inbox| == |rest| == |start| == pp.n
    requires forall e :: 0 <= e < pp.n ==> inbox[e] == Join(ProductRows(pp.k, sz, HeldBy(pp, sz, r, e))) + rest[e]
    ensures RowsAwaited(pp, sz, r, 0, inbox, rest) && RowsMissing(pp, sz, r, 0, start, start)
  {
    hide Join, HeldBy, OpenedRow, ProductRow, RandomnessShape, OnlyLate;
    assert forall e :: 0 <= e < pp.n ==> AllOf(pp, sz, r, e)[0..] == AllOf(pp, sz, r, e);
    assert forall j :: 0 <= j < pp.n ==> OpenedRows(pp, sz, r, j)[0..] == OpenedRows(pp, sz, r, j);
  }

  lemma RowAhead(pp: Params, sz: Sizes, r: Randomness, p: nat, inbox: seq<Vec>, rest: seq<Vec>)
    requires pp.Valid() && RandomnessShape(pp, sz, r) && p < pp.k && RowsAwaited(pp, sz, r, p, inbox, rest)
    ensures forall e :: 0 <= e < pp.n ==> ProductRow(pp.k, sz, HeldBy(pp, sz, r, e), p) <= inbox[e]
  {
    hide Join, HeldBy, ProductRow, RandomnessShape;
    forall e | 0 <= e < pp.n ensures ProductRow(pp.k, sz, HeldBy(pp, sz, r, e), p) <= inbox[e] {
      FrontRow(AllOf(pp, sz, r, e), p, rest[e], inbox[e]);
    }
  }

  lemma RowTaken(pp: Params, sz: Sizes, r: Randomness, p: nat, inbox: seq<Vec>, rest: seq<Vec>, after: seq<Vec>)
    requires pp.Valid() && RandomnessShape(pp, sz, r) && p < pp.k && RowsAwaited(pp, sz, r, p, inbox, rest) && |after| == pp.n
    requires forall e :: 0 <= e < pp.n ==> inbox[e] == ProductRow(pp.k, sz, HeldBy(pp, sz, r, e), p) + after[e]
    ensures RowsAwaited(pp, sz, r, p + 1, after, rest)
  {
    hide Join, HeldBy, ProductRow, RandomnessShape;
    forall e | 0 <= e < pp.n ensures after[e] == Join(AllOf(pp, sz, r, e)[p + 1..]) + rest[e] {
      FrontRow(AllOf(pp, sz, r, e), p, rest[e], inbox[e]);
      assert inbox[e] == AllOf(pp, sz, r, e)[p] + after[e];
    }
  }

  lemma RowSent(pp: Params, sz: Sizes, r: Randomness, p: nat, start: seq<Vec>, outbox: seq<Vec>, after: seq<Vec>)
    requires pp.Valid() && RandomnessShape(pp, sz, r) && p < pp.k && RowsMissing(pp, sz, r, p, start, outbox) && |after| == pp.n
    requires forall j :: 0 <= j < pp.n ==> after[j] == outbox[j] + OnlyLate(pp, j, OpenedRow(pp, sz, r, p, j))
    ensures RowsMissing(pp, sz, r, p + 1, start, after)
  {
    hide Join, OpenedRow, RandomnessShape;
    forall j | 0 <= j < pp.n
      ensures after[j] + OnlyLate(pp, j, Join(OpenedRows(pp, sz, r, j)[p + 1..])) == start[j] + OnlyLate(pp, j, Join(OpenedRows(pp, sz, r, j)))
    {
      if pp.t <= j {
        MissingStep(OpenedRows(pp, sz, r, j), p, outbox[j], start[j]);
      } else {
        assert outbox[j] + [] == outbox[j];
      }
    }
  }

  lemma MissingStep(rows: seq<Vec>, p: nat, now: Vec, start: Vec)
    requires p < |rows| && now + Join(rows[p..]) == start + Join(rows)
    ensures (now + rows[p]) + Join(rows[p + 1..]) == start + Join(rows)
  {
    hide Join;
    JoinStep(rows, p);
    Reassociate(now, rows[p], Join(rows[p + 1..]));
  }

  lemma RowsDone(pp: Params, sz: Sizes, r: Randomness, inbox: seq<Vec>, rest: seq<Vec>, start: seq<Vec>, outbox: seq<Vec>)
    requires pp.Valid() && RandomnessShape(pp, sz, r)
    requires RowsAwaited(pp, sz, r, pp.k, inbox, rest) && RowsMissing(pp, sz, r, pp.k, start, outbox)
    ensures forall e :: 0 <= e < pp.n ==> inbox[e] == rest[e]
    ensures forall j :: 0 <= j < pp.n ==> outbox[j] == start[j] + OnlyLate(pp, j, Join(OpenedRows(pp, sz, r, j)))
  {
    hide Join, HeldBy, OpenedRow, ProductRow, RandomnessShape;
    JoinNone();
  }

  /** Only the parties from t on are sent anything. */
  function OnlyLate(pp: Params, j: nat, msgs: Vec): (r: Vec)
    ensures j < pp.t ==> r == []
  {
    if pp.t <= j then msgs else []
  }

  function AllProductRows(pp: Params, sz: Sizes, r: Randomness, p: nat): (msgs: seq<Vec>)
    requires pp.Valid() && RandomnessShape(pp, sz, r) && p < pp.k
    ensures |msgs| == pp.n && Rows(msgs, sz.mults)
    ensures forall e :: 0 <= e < pp.n ==> msgs[e] == ProductRow(pp.k, sz, HeldBy(pp, sz, r, e), p)
  {
    seq(pp.n, e requires 0 <= e < pp.n => ProductRow(pp.k, sz, HeldBy(pp, sz, r, e), p))
  }

  function AllOf(pp: Params, sz: Sizes, r: Randomness, e: nat): (rows: seq<Vec>)
    requires pp.Valid() && RandomnessShape(pp, sz, r) && e < pp.n
    ensures |rows| == pp.k
  {
    ProductRows(pp.k, sz, HeldBy(pp, sz, r, e))
  }

  /** The shares of slot p after unmasking, one per batch. */
  function UnmaskedRow(pp: Params, sz: Sizes, r: Randomness, id: nat, p: nat): (row: Vec)
    requires pp.Valid() && RandomnessShape(pp, sz, r) && id < pp.n && p < pp.k
    ensures |row| == sz.mults
  {
    seq(sz.mults, i requires 0 <= i < sz.mults =>
      Sub(TakenShare(pp, id, OpenedShares(pp, ProductsSent(pp, sz, r, p, i), p)), Masks(HeldBy(pp, sz, r, id), pp.k, sz, i)[p]))
  }

  /** What P1 sends party j for slot p: one share per batch. */
  function OpenedRow(pp: Params, sz: Sizes, r: Randomness, p: nat, j: nat): (row: Vec)
    requires pp.Valid() && RandomnessShape(pp, sz, r) && p < pp.k && j < pp.n
    ensures |row| == sz.mults
  {
    seq(sz.mults, i requires 0 <= i < sz.mults => OpenedShares(pp, ProductsSent(pp, sz, r, p, i), p)[j])
  }

  function OpenedRows(pp: Params, sz: Sizes, r: Randomness, j: nat): (rows: seq<Vec>)
    requires pp.Valid() && RandomnessShape(pp, sz, r) && j < pp.n
    ensures |rows| == pp.k
  {
    seq(pp.k, p requires 0 <= p < pp.k => OpenedRow(pp, sz, r, p, j))
  }
}
