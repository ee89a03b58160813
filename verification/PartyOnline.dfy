/** One party's steps in the online phase (mult_gate.cc, input_gate.h, output_gate.h). */
module PartyOnline {
  import opened Field
  import opened Packed
  import opened FIPrep
  import opened Batch
  import opened Circuits
  import opened TurboPack
  import opened Online
  import opened Gates
  import opened Network
  import opened Wrappers
  import Correlator
  import PartyPrep

  /** The slots of a batch name different gates. */
  predicate SlotsDiffer(slots: seq<Slot>) {
    forall i, j :: 0 <= i < j < |slots| && slots[i].Wire? && slots[j].Wire? ==> slots[i].id != slots[j].id
  }

  class MultBatchRun {
    const pp: Params
    const c: Circuit
    const id: nat
    const net: Net
    const slots: seq<Slot>
    const prep: BatchPrep
    var shrMuA: Elem
    var shrMuB: Elem

    ghost predicate Ready()
      reads net
    {
      pp.Valid() && Topological(c) && id < pp.n && net.Valid() && net.n == pp.n && |slots| == pp.k && MultSlots(c, slots)
    }

    constructor (pp: Params, c: Circuit, id: nat, net: Net, slots: seq<Slot>, prep: BatchPrep)
      requires pp.Valid() && Topological(c) && id < pp.n && net.Valid() && net.n == pp.n && |slots| == pp.k && MultSlots(c, slots)
      ensures Ready() && this.pp == pp && this.c == c && this.id == id && this.net == net && this.slots == slots && this.prep == prep
    {
      this.pp, this.c, this.id, this.net, this.slots, this.prep := pp, c, id, net, slots, prep;
      shrMuA, shrMuB := 0, 0;
    }

    /** mu's of one side, or None where GetMu throws. */
    method CollectMus(table: WireValues, wires: seq<Slot>) returns (r: Option<Vec>)
      requires table.Valid() && table.c == c && SlotsOk(c, wires)
      modifies table`memo
      ensures table.Valid() && table.leaf == old(table.leaf)
      ensures r.Some? <==> AllAvailable(c, table.leaf, wires)
      ensures r.Some? ==> r.value == Mus(c, table.leaf, wires)
    {
      hide Known, Spread;
      var mu: Vec := [];
      for i := 0 to |wires|
        invariant table.Valid() && table.leaf == old(table.leaf) && |mu| == i
        invariant forall j :: 0 <= j < i ==> GetMu(c, table.leaf, wires[j]) == Some(mu[j])
      {
        if wires[i].Wire? {
          var v := table.Get(wires[i].id);
          if v.None? {
            assert GetMu(c, table.leaf, wires[i]).None?;
            return None;
          }
          mu := mu + [v.value];
        } else {
          mu := mu + [0];
        }
      }
      assert forall j :: 0 <= j < |wires| ==> GetMu(c, table.leaf, wires[j]).Some?;
      return Some(mu);
    }

    method P1Sends(table: WireValues) returns (ok: bool)
      requires Ready() && table.Valid() && table.c == c
      modifies net`outbox, table`memo
      ensures Ready() && table.Valid() && table.leaf == old(table.leaf)
      ensures ok <==> id != 0 || (AllAvailable(c, table.leaf, Lefts(c, slots)) && AllAvailable(c, table.leaf, Rights(c, slots)))
      ensures id == 0 && ok ==>
                var a, b := Reshare(pp, Mus(c, table.leaf, Lefts(c, slots))), Reshare(pp, Mus(c, table.leaf, Rights(c, slots)));
                forall j :: 0 <= j < pp.n ==> net.outbox[j] == old(net.outbox)[j] + [a[j], b[j]]
      ensures id != 0 || !ok ==> net.outbox == old(net.outbox)
    {
      hide Deal, Mus, AllAvailable, Lefts, Rights;
      if id != 0 { return true; }
      var a := CollectMus(table, Lefts(c, slots));
      if a.None? { return false; }
      var b := CollectMus(table, Rights(c, slots));
      if b.None? { return false; }
      var sharesA := Correlator.DealShares(a.value, pp.k - 1, [], pp.n);
      var sharesB := Correlator.DealShares(b.value, pp.k - 1, [], pp.n);
      net.SendPairs(sharesA, sharesB);
      return true;
    }

    method PartiesReceive()
      requires Ready() && |net.inbox[0]| >= 2
      modifies `shrMuA, `shrMuB, net`inbox
      ensures Ready() && shrMuA == old(net.inbox)[0][0] && shrMuB == old(net.inbox)[0][1]
      ensures net.inbox[0] == old(net.inbox)[0][2..] && forall e :: 0 < e < pp.n ==> net.inbox[e] == old(net.inbox)[e]
    {
      shrMuA := net.Recv(0);
      shrMuB := net.Recv(0);
    }

    method PartiesSend()
      requires Ready()
      modifies net`outbox
      ensures Ready() && net.outbox[0] == old(net.outbox)[0] + [OnlineShare(prep, shrMuA, shrMuB)]
      ensures forall j :: 0 < j < pp.n ==> net.outbox[j] == old(net.outbox)[j]
    {
      hide Mul, Add, Mod;
      var shrMuC := Add(Add(Add(Mul(shrMuB, prep.lambdaA), Mul(shrMuA, prep.lambdaB)), Mul(shrMuA, shrMuB)), prep.delta);
      net.Send(0, shrMuC);
    }

    /** P1 reconstructs and learns the mu's of the batch's gates; what it knew before stays. */
    method P1Receives(table: WireValues)
      requires Ready() && table.Valid() && table.c == c && SlotsDiffer(slots)
      requires id == 0 ==> forall e :: 0 <= e < pp.n ==> net.inbox[e] != []
      requires forall j :: 0 <= j < pp.k && slots[j].Wire? ==> slots[j].id !in table.leaf
      modifies net`inbox, table
      ensures Ready() && table.Valid()
      ensures id != 0 ==> net.inbox == old(net.inbox) && table.leaf == old(table.leaf)
      ensures id == 0 ==> forall e :: 0 <= e < pp.n ==> net.inbox[e] == old(net.inbox)[e][1..]
      ensures id == 0 ==>
                var mu := Reconstruct(PartyPrep.Heads(old(net.inbox), pp.n, 0), pp.k);
                (forall j :: 0 <= j < pp.k && slots[j].Wire? ==> slots[j].id in table.leaf && table.leaf[slots[j].id] == mu[j])
                && (forall g :: g in old(table.leaf) ==> g in table.leaf && table.leaf[g] == old(table.leaf)[g])
                && (forall g :: g in table.leaf ==> g in old(table.leaf) || Wire(g) in slots)
    {
      hide Reconstruct, Topological;
      if id == 0 {
        var shares := net.RecvEach(pp.n);
        assert shares == PartyPrep.Heads(old(net.inbox), pp.n, 0);
        var mu := SecretsFromSharesAndLength(shares, pp.k);
        for i := 0 to pp.k
          invariant Ready() && table.Valid() && forall e :: 0 <= e < pp.n ==> net.inbox[e] == old(net.inbox)[e][1..]
          invariant forall j :: 0 <= j < pp.k && slots[j].Wire? ==>
            if j < i then slots[j].id in table.leaf && table.leaf[slots[j].id] == mu[j] else slots[j].id !in table.leaf
          invariant forall g :: g in old(table.leaf) ==> g in table.leaf && table.leaf[g] == old(table.leaf)[g]
          invariant forall g :: g in table.leaf ==> g in old(table.leaf) || Wire(g) in slots
        {
          if slots[i].Wire? {
            assert Wire(slots[i].id) in slots;
            table.Learn(slots[i].id, mu[i]);
          }
        }
      }
    }
  }

  // ---- Input and output gates ----

  /** InputGate::OwnerSendsP1. */
  method OwnerSendsP1(net: Net, id: nat, owner: nat, value: Elem, lambda: Elem)
    requires net.Valid() && net.n > 0
    modifies net`outbox
    ensures net.Valid() && net.outbox[0] == old(net.outbox)[0] + (if id == owner then [Sub(value, lambda)] else [])
    ensures forall j :: 0 < j < net.n ==> net.outbox[j] == old(net.outbox)[j]
  {
    if id == owner { net.Send(0, Sub(value, lambda)); }
  }

  /** InputGate::P1Receives. */
  method InputP1Receives(net: Net, id: nat, owner: nat, gate: nat, table: WireValues)
    requires net.Valid() && owner < net.n && table.Valid() && IsLeaf(table.c, gate) && gate !in table.leaf
    requires id == 0 ==> net.inbox[owner] != []
    modifies net`inbox, table
    ensures net.Valid() && table.Valid()
    ensures id == 0 ==> table.leaf == old(table.leaf)[gate := old(net.inbox)[owner][0]]
                        && net.inbox == old(net.inbox)[owner := old(net.inbox)[owner][1..]]
    ensures id != 0 ==> table.leaf == old(table.leaf) && net.inbox == old(net.inbox)
  {
    if id == 0 {
      var mu := net.Recv(owner);
      table.Learn(gate, mu);
    }
  }

  /** OutputGate::P1SendsMu; false where GetMu throws. */
  method P1SendsMu(net: Net, id: nat, owner: nat, gate: nat, table: WireValues) returns (ok: bool)
    requires net.Valid() && owner < net.n && table.Valid() && gate < |table.c.gates|
    modifies net`outbox, table`memo
    ensures net.Valid() && table.Valid() && table.leaf == old(table.leaf)
    ensures ok <==> id != 0 || Known(table.c, table.leaf.Keys, gate)
    ensures id == 0 && ok ==> net.outbox == old(net.outbox)[owner := old(net.outbox)[owner] + [Spread(table.c, table.leaf, gate)]]
    ensures id != 0 || !ok ==> net.outbox == old(net.outbox)
  {
    if id != 0 { return true; }
    var mu := table.Get(gate);
    if mu.None? { return false; }
    net.Send(owner, mu.value);
    return true;
  }

  /** OutputGate::OwnerReceivesMu: the value is lambda plus mu. */
  method OwnerReceivesMu(net: Net, id: nat, owner: nat, lambda: Elem, value: Elem) returns (v: Elem)
    requires net.Valid() && net.n > 0 && (id == owner ==> net.inbox[0] != [])
    modifies net`inbox
    ensures net.Valid() && v == if id == owner then Add(lambda, old(net.inbox)[0][0]) else value
    ensures net.inbox == if id == owner then old(net.inbox)[0 := old(net.inbox)[0][1..]] else old(net.inbox)
  {
    v := value;
    if id == owner {
      var mu := net.Recv(0);
      v := Add(lambda, mu);
    }
  }
}
