/** All parties together in the function-independent preprocessing: one correlator per party, the
    dealings delivered in between, and the round in which P1 opens masked products. */
module PartiesFI {
  import opened Field
  import opened Packed
  import opened FIPrep
  import opened Triples
  import opened Network
  import opened Correlator

  /** Everything dealer e sends party j: FIPrepSend (circuits.h). */
  ghost function FIMsgs(pp: Params, sz: Sizes, r: Randomness, e: nat, j: nat): Vec
    requires pp.Valid() && RandomnessShape(pp, sz, r) && e < pp.n && j < pp.n
  {
    BlockMsgs(IndDealt(pp, r.ind), pp.n, e, j) + (Join(SlotMsgs(AllUnpacked(pp, sz, r), pp.n, e, j)) + ZeroMsgs(pp, sz, r, e, j))
  }

  ghost function ZeroMsgs(pp: Params, sz: Sizes, r: Randomness, e: nat, j: nat): Vec
    requires pp.Valid() && RandomnessShape(pp, sz, r) && e < pp.n && j < pp.n
  {
    BlockMsgs(ZeroDealt(pp, r.zero), pp.n, e, j) + Join(SlotMsgs(AllZeroAt(pp, sz, r), pp.n, e, j))
  }

  /** Nothing has been generated yet. */
  ghost predicate Fresh(q: Correlator)
    reads q
  {
    && q.Tables() && q.indShrs == [] && q.unpackedA == [] && q.unpackedB == [] && q.unpackedMask == []
    && q.zeroProdShrs == [] && q.multPrep == [] && q.ioPrep == []
  }

  /** The first rounds are done. */
  ghost predicate Gathered(q: Correlator, r: Randomness)
    reads q
  {
    && q.Tables() && q.id < q.pp.n && RandomnessShape(q.pp, q.sz, r)
    && var h := HeldBy(q.pp, q.sz, r, q.id);
       && q.Holds(h) && q.indShrs == h.ind && q.ioPrep == IOZeros(q.sz, h.zero) && |q.multPrep| == q.sz.mults
       && forall i :: 0 <= i < q.sz.mults ==> q.multPrep[i] == q.AllZeros(q.FactorsOnly(h, i), h, i)
  }

  // ---- The dealings ----

  method FIPrepSend(q: Correlator, r: Randomness)
    requires q.Valid() && RandomnessShape(q.pp, q.sz, r) && Idle(q.net)
    modifies q.net`outbox
    ensures q.Valid() && q.net.inbox == NoMsgs(q.pp.n) && forall j :: 0 <= j < q.pp.n ==> q.net.outbox[j] == FIMsgs(q.pp, q.sz, r, q.id, j)
  {
    hide RandomnessShape, Join, SlotMsgs, BlockMsgs;
    q.GenIndShrsPartiesSend(r);
    q.GenUnpackedShrPartiesSend(r);
    q.GenZeroPartiesSend(r);
    q.GenZeroForProdPartiesSend(r);
  }

  method FIPrepRecv(q: Correlator, ghost r: Randomness)
    requires Fresh(q) && q.Valid() && RandomnessShape(q.pp, q.sz, r)
    requires q.net.outbox == NoMsgs(q.pp.n) && forall e :: 0 <= e < q.pp.n ==> q.net.inbox[e] == FIMsgs(q.pp, q.sz, r, e, q.id)
    modifies q, q.net`inbox
    ensures q.Valid() && Gathered(q, r) && Idle(q.net)
  {
    hide Join, SlotMsgs, BlockMsgs, HeldBy, Correlator.Tables, Correlator.FactorsOnly, Correlator.UnpackedFiled;
    ghost var n, id := q.pp.n, q.id;
    ghost var zeros := seq(n, e requires 0 <= e < n => ZeroMsgs(q.pp, q.sz, r, e, id));
    q.GenIndShrsPartiesReceive(r);
    forall e | 0 <= e < n ensures q.net.inbox[e] == Join(SlotMsgs(AllUnpacked(q.pp, q.sz, r), n, e, id)) + zeros[e] {
      SamePrefix(BlockMsgs(IndDealt(q.pp, r.ind), n, e, id), q.net.inbox[e], Join(SlotMsgs(AllUnpacked(q.pp, q.sz, r), n, e, id)) + zeros[e]);
    }
    q.GenUnpackedShrPartiesReceive(r, zeros);
    q.GenZeroPartiesReceive(r);
    forall e | 0 <= e < n ensures q.net.inbox[e] == Join(SlotMsgs(AllZeroAt(q.pp, q.sz, r), n, e, id)) + [] {
      SamePrefix(BlockMsgs(ZeroDealt(q.pp, r.zero), n, e, id), q.net.inbox[e], Join(SlotMsgs(AllZeroAt(q.pp, q.sz, r), n, e, id)));
    }
    q.GenZeroForProdPartiesReceive(r, NoMsgs(n));
  }

  // ---- All parties ----

  /** One correlator per party, for the same circuit sizes. */
  ghost predicate AllCorrelators(qs: seq<Correlator>, nets: seq<Net>, pp: Params, sz: Sizes, r: Randomness) {
    && pp.Valid() && RandomnessShape(pp, sz, r) && |qs| == |nets| == pp.n
    && (forall i :: 0 <= i < pp.n ==> qs[i].pp == pp && qs[i].sz == sz && qs[i].id == i && qs[i].net == nets[i])
  }

  ghost predicate DealingsOut(q: Correlator, net: Net, r: Randomness)
    reads net
  {
    && q.pp.Valid() && RandomnessShape(q.pp, q.sz, r) && q.id < q.pp.n == net.n && net.Valid() && net.inbox == NoMsgs(net.n)
    && forall j :: 0 <= j < net.n ==> net.outbox[j] == FIMsgs(q.pp, q.sz, r, q.id, j)
  }

  ghost predicate DealingsThere(q: Correlator, net: Net, r: Randomness)
    reads net
  {
    && q.pp.Valid() && RandomnessShape(q.pp, q.sz, r) && q.id < q.pp.n == net.n && net.Valid() && net.outbox == NoMsgs(net.n)
    && forall e :: 0 <= e < net.n ==> net.inbox[e] == FIMsgs(q.pp, q.sz, r, e, q.id)
  }

  lemma DealingsArrive(qs: seq<Correlator>, nets: seq<Net>, pp: Params, sz: Sizes, r: Randomness)
    requires AllCorrelators(qs, nets, pp, sz, r) && Connected(nets) && forall i :: 0 <= i < pp.n ==> DealingsOut(qs[i], nets[i], r)
    ensures forall i, e :: 0 <= i < pp.n && 0 <= e < pp.n ==> Arrived(nets, i)[e] == FIMsgs(pp, sz, r, e, i)
  {
    hide RandomnessShape, FIMsgs;
    forall i, e | 0 <= i < pp.n && 0 <= e < pp.n ensures Arrived(nets, i)[e] == FIMsgs(pp, sz, r, e, i) {
      assert DealingsOut(qs[i], nets[i], r) && DealingsOut(qs[e], nets[e], r);
    }
  }

  /** FIPrepSend at all parties. */
  method DealAll(qs: seq<Correlator>, nets: seq<Net>, ghost pp: Params, ghost sz: Sizes, r: Randomness)
    requires AllCorrelators(qs, nets, pp, sz, r) && Connected(nets) && forall i :: 0 <= i < pp.n ==> Fresh(qs[i]) && Idle(nets[i])
    modifies nets
    ensures Connected(nets) && forall i :: 0 <= i < pp.n ==> DealingsOut(qs[i], nets[i], r)
  {
    hide RandomnessShape, FIMsgs, Correlator.Tables, Idle;
    for i := 0 to |qs|
      invariant Connected(nets)
      invariant forall e :: 0 <= e < i ==> DealingsOut(qs[e], nets[e], r)
      invariant forall e :: i <= e < pp.n ==> Idle(nets[e])
    {
      FIPrepSend(qs[i], r);
    }
  }

  /** FIPrepRecv at all parties. */
  method GatherAll(qs: seq<Correlator>, nets: seq<Net>, ghost pp: Params, ghost sz: Sizes, ghost r: Randomness)
    requires AllCorrelators(qs, nets, pp, sz, r) && Connected(nets) && forall i :: 0 <= i < pp.n ==> Fresh(qs[i]) && DealingsThere(qs[i], nets[i], r)
    modifies qs, nets
    ensures Connected(nets) && forall i :: 0 <= i < pp.n ==> Gathered(qs[i], r) && Idle(nets[i])
  {
    hide RandomnessShape, FIMsgs, Gathered, Idle;
    assert forall i, j :: 0 <= i < j < pp.n ==> qs[i] != qs[j];
    for i := 0 to |qs|
      invariant Connected(nets) && forall e :: i <= e < pp.n ==> Fresh(qs[e]) && DealingsThere(qs[e], nets[e], r)
      invariant forall e :: 0 <= e < i ==> Gathered(qs[e], r) && Idle(nets[e])
    {
      FIPrepRecv(qs[i], r);
    }
  }

  method Deal(qs: seq<Correlator>, nets: seq<Net>, ghost pp: Params, ghost sz: Sizes, r: Randomness)
    requires AllCorrelators(qs, nets, pp, sz, r) && Connected(nets) && forall i :: 0 <= i < pp.n ==> Fresh(qs[i]) && Idle(nets[i])
    modifies qs, nets
    ensures Connected(nets) && forall i :: 0 <= i < pp.n ==> Gathered(qs[i], r) && Idle(nets[i])
  {
    hide RandomnessShape, FIMsgs, Fresh, Gathered, Idle, Arrived;
    DealAll(qs, nets, pp, sz, r);
    DealingsArrive(qs, nets, pp, sz, r);
    Deliver(nets);
    GatherAll(qs, nets, pp, sz, r);
  }

  // ---- The products ----

  method SendProductsOne(q: Correlator, ghost r: Randomness)
    requires q.Valid() && Gathered(q, r) && Idle(q.net)
    modifies q.net`outbox
    ensures q.Valid() && q.net.inbox == NoMsgs(q.pp.n)
    ensures q.net.outbox == NoMsgs(q.pp.n)[0 := Join(ProductRows(q.pp.k, q.sz, HeldBy(q.pp, q.sz, r, q.id)))]
  {
    hide RandomnessShape, HeldBy, Join, ProductRows, Correlator.Tables, Correlator.Holds, Correlator.FactorsOnly, Correlator.AllZeros;
    q.GenProdPartiesSendP1(HeldBy(q.pp, q.sz, r, q.id));
    assert q.net.outbox[0] == Join(ProductRows(q.pp.k, q.sz, HeldBy(q.pp, q.sz, r, q.id)));
  }

  /** GenProdPartiesSendP1 at all parties. */
  method SendProducts(qs: seq<Correlator>, nets: seq<Net>, ghost pp: Params, ghost sz: Sizes, ghost r: Randomness)
    requires AllCorrelators(qs, nets, pp, sz, r) && Connected(nets) && forall i :: 0 <= i < pp.n ==> Gathered(qs[i], r) && Idle(nets[i])
    modifies nets
    ensures Connected(nets) && OnlyToFirst(nets)
    ensures forall i :: 0 <= i < pp.n ==> nets[i].outbox[0] == Join(ProductRows(pp.k, sz, HeldBy(pp, sz, r, i)))
  {
    hide RandomnessShape, HeldBy, Join, ProductRows, Gathered, Idle;
    assert forall i :: 0 <= i < pp.n ==> qs[i].Tables() by { TablesKept(qs, pp.n, r); }
    for i := 0 to |qs|
      invariant Connected(nets) && forall e :: i <= e < pp.n ==> Idle(nets[e])
      invariant forall e :: 0 <= e < i ==>
        nets[e].inbox == NoMsgs(pp.n) && nets[e].outbox == NoMsgs(pp.n)[0 := Join(ProductRows(pp.k, sz, HeldBy(pp, sz, r, e)))]
    {
      SendProductsOne(qs[i], r);
    }
  }

  lemma TablesKept(qs: seq<Correlator>, n: nat, r: Randomness)
    requires n <= |qs| && forall i :: 0 <= i < n ==> Gathered(qs[i], r)
    ensures forall i :: 0 <= i < n ==> qs[i].Tables()
  {
    hide HeldBy, RandomnessShape;
  }

  method OpenProductsOne(q: Correlator, ghost r: Randomness)
    requires q.Valid() && RandomnessShape(q.pp, q.sz, r)
    requires q.id > 0 ==> Idle(q.net)
    requires q.id == 0 ==> q.net.outbox == NoMsgs(q.pp.n)
                           && forall e :: 0 <= e < q.pp.n ==> q.net.inbox[e] == Join(ProductRows(q.pp.k, q.sz, HeldBy(q.pp, q.sz, r, e)))
    modifies q.net`inbox, q.net`outbox
    ensures q.Valid() && q.net.inbox == NoMsgs(q.pp.n) && (q.id > 0 ==> Idle(q.net))
    ensures q.id == 0 ==> forall j :: 0 <= j < q.pp.n ==> q.net.outbox[j] == OnlyLate(q.pp, j, Join(OpenedRows(q.pp, q.sz, r, j)))
  {
    hide RandomnessShape, HeldBy, Join, ProductRows, OpenedRows, OnlyLate, Correlator.Tables;
    if q.id == 0 {
      forall e | 0 <= e < q.pp.n ensures q.net.inbox[e] == Join(ProductRows(q.pp.k, q.sz, HeldBy(q.pp, q.sz, r, e))) + NoMsgs(q.pp.n)[e] { }
    }
    q.GenProdP1ReceivesAndSends(r, NoMsgs(q.pp.n));
    if q.id == 0 {
      forall j | 0 <= j < q.pp.n ensures q.net.outbox[j] == OnlyLate(q.pp, j, Join(OpenedRows(q.pp, q.sz, r, j))) {
        assert [] + OnlyLate(q.pp, j, Join(OpenedRows(q.pp, q.sz, r, j))) == OnlyLate(q.pp, j, Join(OpenedRows(q.pp, q.sz, r, j)));
      }
    }
  }

  /** GenProdP1ReceivesAndSends at all parties. */
  method OpenProducts(qs: seq<Correlator>, nets: seq<Net>, ghost pp: Params, ghost sz: Sizes, ghost r: Randomness)
    requires AllCorrelators(qs, nets, pp, sz, r) && Connected(nets) && forall i :: 0 <= i < pp.n ==> qs[i].Tables()
    requires nets[0].outbox == NoMsgs(pp.n) && forall e :: 0 <= e < pp.n ==> nets[0].inbox[e] == Join(ProductRows(pp.k, sz, HeldBy(pp, sz, r, e)))
    requires forall i :: 0 < i < pp.n ==> Idle(nets[i])
    modifies nets
    ensures Connected(nets) && OnlyFirstSends(nets)
    ensures forall j :: 0 <= j < pp.n ==> nets[0].outbox[j] == OnlyLate(pp, j, Join(OpenedRows(pp, sz, r, j)))
  {
    hide RandomnessShape, HeldBy, Join, ProductRows, OpenedRows, OnlyLate, Correlator.Tables;
    for i := 0 to |qs|
      invariant Connected(nets) && forall e :: 0 < e < pp.n ==> Idle(nets[e])
      invariant i == 0 ==> nets[0].outbox == NoMsgs(pp.n) && forall e :: 0 <= e < pp.n ==> nets[0].inbox[e] == Join(ProductRows(pp.k, sz, HeldBy(pp, sz, r, e)))
      invariant i > 0 ==> nets[0].inbox == NoMsgs(pp.n) && forall j :: 0 <= j < pp.n ==> nets[0].outbox[j] == OnlyLate(pp, j, Join(OpenedRows(pp, sz, r, j)))
    {
      OpenProductsOne(qs[i], r);
    }
  }

  /** All fields are as the functions of the preprocessing say. */
  ghost predicate Generated(q: Correlator, r: Randomness)
    reads q
  {
    && q.pp.Valid() && q.id < q.pp.n && RandomnessShape(q.pp, q.sz, r)
    && var h := HeldBy(q.pp, q.sz, r, q.id);
       && q.indShrs == h.ind && q.ioPrep == IOZeros(q.sz, h.zero) && |q.multPrep| == q.sz.mults
       && forall i :: 0 <= i < q.sz.mults ==> q.multPrep[i] == PrepBy(q.pp, q.sz, r, q.id, i)
  }

  /** P1's answers for party i have arrived. */
  ghost predicate ProductsThere(net: Net, pp: Params, sz: Sizes, r: Randomness, i: nat)
    requires pp.Valid() && RandomnessShape(pp, sz, r) && i < pp.n
    reads net
  {
    net.outbox == NoMsgs(pp.n) && net.inbox == NoMsgs(pp.n)[0 := OnlyLate(pp, i, Join(OpenedRows(pp, sz, r, i)))]
  }

  method TakeProductsOne(q: Correlator, ghost r: Randomness)
    requires q.Valid() && Gathered(q, r) && ProductsThere(q.net, q.pp, q.sz, r, q.id)
    modifies q, q.net`inbox
    ensures q.net.Valid() && Generated(q, r) && Idle(q.net)
  {
    hide RandomnessShape, HeldBy, Join, OpenedRows, OnlyLate, Correlator.Tables, Correlator.Holds, Correlator.FactorsOnly, Correlator.AllZeros, PrepBy;
    ghost var msgs := OnlyLate(q.pp, q.id, Join(OpenedRows(q.pp, q.sz, r, q.id)));
    assert q.net.inbox[0] == msgs + [];
    q.GenProdPartiesReceive(r, []);
    assert q.net.inbox == NoMsgs(q.pp.n);
  }

  /** GenProdPartiesReceive at all parties. */
  method TakeProducts(qs: seq<Correlator>, nets: seq<Net>, ghost pp: Params, ghost sz: Sizes, ghost r: Randomness)
    requires AllCorrelators(qs, nets, pp, sz, r) && Connected(nets)
    requires forall i :: 0 <= i < pp.n ==> Gathered(qs[i], r) && ProductsThere(nets[i], pp, sz, r, i)
    modifies qs, nets
    ensures Connected(nets) && forall i :: 0 <= i < pp.n ==> Generated(qs[i], r) && Idle(nets[i])
  {
    hide RandomnessShape, ProductsThere, Gathered, Generated, Idle, Correlator.Tables;
    assert forall i, j :: 0 <= i < j < pp.n ==> qs[i] != qs[j];
    TablesKept(qs, pp.n, r);
    for i := 0 to |qs|
      invariant Connected(nets)
      invariant forall e :: i <= e < pp.n ==> Gathered(qs[e], r) && qs[e].Tables() && ProductsThere(nets[e], pp, sz, r, e)
      invariant forall e :: 0 <= e < i ==> Generated(qs[e], r) && Idle(nets[e])
    {
      TakeProductsOne(qs[i], r);
    }
  }

  /** P1 has received the product shares of everybody. */
  ghost predicate ProductsAtP1(nets: seq<Net>, pp: Params, sz: Sizes, r: Randomness)
    requires pp.Valid() && RandomnessShape(pp, sz, r)
    reads nets
  {
    && |nets| == pp.n && Connected(nets) && nets[0].outbox == NoMsgs(pp.n)
    && (forall e :: 0 <= e < pp.n ==> nets[0].inbox[e] == Join(ProductRows(pp.k, sz, HeldBy(pp, sz, r, e))))
    && forall i :: 0 < i < pp.n ==> Idle(nets[i])
  }

  method ProductsToP1(qs: seq<Correlator>, nets: seq<Net>, ghost pp: Params, ghost sz: Sizes, ghost r: Randomness)
    requires AllCorrelators(qs, nets, pp, sz, r) && Connected(nets) && forall i :: 0 <= i < pp.n ==> Gathered(qs[i], r) && Idle(nets[i])
    modifies nets
    ensures ProductsAtP1(nets, pp, sz, r)
  {
    hide RandomnessShape, HeldBy, Join, ProductRows, Gathered, Idle, Arrived, OnlyToFirst;
    SendProducts(qs, nets, pp, sz, r);
    AtFirst(nets);
    Deliver(nets);
    Quiet(nets);
  }

  method ProductsBack(qs: seq<Correlator>, nets: seq<Net>, ghost pp: Params, ghost sz: Sizes, ghost r: Randomness)
    requires AllCorrelators(qs, nets, pp, sz, r) && ProductsAtP1(nets, pp, sz, r) && forall i :: 0 <= i < pp.n ==> qs[i].Tables()
    modifies nets
    ensures Connected(nets) && forall i :: 0 <= i < pp.n ==> ProductsThere(nets[i], pp, sz, r, i)
  {
    hide RandomnessShape, HeldBy, Join, ProductRows, OpenedRows, OnlyLate, Idle, Arrived, OnlyFirstSends, Correlator.Tables;
    OpenProducts(qs, nets, pp, sz, r);
    FirstArrives(nets);
    Deliver(nets);
  }

  /** The whole function-independent preprocessing, run by n correlators over their networks: for all
      randomness every one of them ends with exactly its part of what the functions of the protocol
      say, and all queues are empty. */
  method RunFIPhase(qs: seq<Correlator>, nets: seq<Net>, ghost pp: Params, ghost sz: Sizes, r: Randomness)
    requires AllCorrelators(qs, nets, pp, sz, r) && Connected(nets) && forall i :: 0 <= i < pp.n ==> Fresh(qs[i]) && Idle(nets[i])
    modifies qs, nets
    ensures Connected(nets) && forall i :: 0 <= i < pp.n ==> Generated(qs[i], r) && Idle(nets[i])
  {
    hide RandomnessShape, Fresh, Gathered, Generated, Idle, ProductsAtP1, ProductsThere, Correlator.Tables;
    Deal(qs, nets, pp, sz, r);
    TablesKept(qs, pp.n, r);
    ProductsToP1(qs, nets, pp, sz, r);
    ProductsBack(qs, nets, pp, sz, r);
    TakeProducts(qs, nets, pp, sz, r);
  }
}
