/** One party's steps in DN07 (dn07.cc) after the extraction of random and double sharings. */
module PartyDN07 {
  import opened Field
  import opened Poly
  import opened EvPoly
  import opened Packed
  import opened Combine
  import opened FIPrep
  import opened Circuits
  import opened DN07
  import opened Gates
  import opened Network
  import opened Wrappers
  import opened PrepDN07
  import PartyPrep

  class PartyDN07 {
    const pp: Parties
    const c: Circuit
    const id: nat
    const net: Net
    const table: WireValues
    const rShrs: Vec
    const dShrs: Vec
    const dHighShrs: Vec
    var mapInputs: map<nat, nat>
    var mapMults: map<nat, nat>
    var sharesFromLast: seq<Vec>
    var sharesToSend: seq<Vec>
    var results: map<nat, Elem>

    ghost predicate Ready() {
      && pp.Admitted() && WellFormed(c) && id < pp.n && net.n == pp.n && |c.inputs| <= pp.n && |c.outputs| <= pp.n
      && table.c == c && |rShrs| >= |Flatten(c.inputs)| && |dShrs| == |dHighShrs| >= |Flatten(c.mults)|
    }

    constructor (pp: Parties, c: Circuit, id: nat, net: Net, table: WireValues, rShrs: Vec, dShrs: Vec, dHighShrs: Vec)
      requires pp.Admitted() && WellFormed(c) && id < pp.n && net.n == pp.n && |c.inputs| <= pp.n && |c.outputs| <= pp.n
      requires table.c == c && |rShrs| >= |Flatten(c.inputs)| && |dShrs| == |dHighShrs| >= |Flatten(c.mults)|
      ensures Ready() && this.pp == pp && this.c == c && this.id == id && this.net == net && this.table == table
      ensures this.rShrs == rShrs && this.dShrs == dShrs && this.dHighShrs == dHighShrs
      ensures sharesFromLast == [] && sharesToSend == []
    {
      this.pp, this.c, this.id, this.net, this.table := pp, c, id, net, table;
      this.rShrs, this.dShrs, this.dHighShrs := rShrs, dShrs, dHighShrs;
      mapInputs, mapMults, results := map[], map[], map[];
      sharesFromLast, sharesToSend := [], [];
    }

    // ---- The sharings of gates ----

    ghost function RandOf(g: nat): Elem
      requires Ready() && g < |c.gates| && c.gates[g].InputGate?
    {
      InputInOrder(c, g);
      rShrs[IndexOf(Flatten(c.inputs), g)]
    }

    ghost function LowOf(g: nat): Elem
      requires Ready() && g < |c.gates| && c.gates[g].MultGate?
    {
      MultInOrder(c, g);
      dShrs[IndexOf(Flatten(c.mults), g)]
    }

    ghost function HighOf(g: nat): Elem
      requires Ready() && g < |c.gates| && c.gates[g].MultGate?
    {
      MultInOrder(c, g);
      dHighShrs[IndexOf(Flatten(c.mults), g)]
    }

    /** Every input gate has its own random sharing, every multiplication its own double sharing. */
    ghost predicate AllMapped()
      requires Ready()
      reads `mapInputs, `mapMults
    {
      && (forall g :: 0 <= g < |c.gates| && c.gates[g].InputGate? ==>
            g in mapInputs && mapInputs[g] < |rShrs| && rShrs[mapInputs[g]] == RandOf(g))
      && (forall g :: 0 <= g < |c.gates| && c.gates[g].MultGate? ==>
            g in mapMults && mapMults[g] < |dShrs| && dShrs[mapMults[g]] == LowOf(g) && dHighShrs[mapMults[g]] == HighOf(g))
    }

    method Number(lists: seq<seq<nat>>) returns (m: map<nat, nat>)
      requires AllDistinct(lists)
      ensures forall l, p :: 0 <= l < |lists| && 0 <= p < |lists[l]| ==>
                lists[l][p] in Flatten(lists) && lists[l][p] in m && m[lists[l][p]] == IndexOf(Flatten(lists), lists[l][p])
    {
      hide Flatten, IndexOf, Offset;
      m := map[];
      var ctr := 0;
      PartyPrep.OffsetZero(lists);
      for l := 0 to |lists|
        invariant ctr == Offset(lists, l)
        invariant forall q, p :: 0 <= q < l && 0 <= p < |lists[q]| ==> lists[q][p] in m && m[lists[q][p]] == Offset(lists, q) + p
      {
        for p := 0 to |lists[l]|
          invariant ctr == Offset(lists, l) + p
          invariant forall q, d :: 0 <= q < l && 0 <= d < |lists[q]| ==> lists[q][d] in m && m[lists[q][d]] == Offset(lists, q) + d
          invariant forall d :: 0 <= d < p ==> lists[l][d] in m && m[lists[l][d]] == Offset(lists, l) + d
        {
          m := m[lists[l][p] := ctr];
          ctr := ctr + 1;
        }
        OffsetStep(lists, l);
      }
      forall l, p | 0 <= l < |lists| && 0 <= p < |lists[l]|
        ensures lists[l][p] in Flatten(lists) && IndexOf(Flatten(lists), lists[l][p]) == Offset(lists, l) + p
      {
        FlattenIndex(lists, l, p);
      }
    }

    method FDMapPrepToGates()
      requires Ready()
      modifies `mapInputs, `mapMults
      ensures AllMapped()
    {
      hide Topological, OutputsListed, Flatten, AllDistinct;
      ListsDistinct(c);
      var ins := Number(c.inputs);
      var muls := Number(c.mults);
      mapInputs, mapMults := ins, muls;
      forall g | 0 <= g < |c.gates| && c.gates[g].InputGate?
        ensures g in mapInputs && mapInputs[g] < |rShrs| && rShrs[mapInputs[g]] == RandOf(g)
      {
        var o := c.gates[g].owner;
        assert c.inputs[o][IndexOf(c.inputs[o], g)] == g;
      }
      forall g | 0 <= g < |c.gates| && c.gates[g].MultGate?
        ensures g in mapMults && mapMults[g] < |dShrs| && dShrs[mapMults[g]] == LowOf(g) && dHighShrs[mapMults[g]] == HighOf(g)
      {
        var l := c.layerOf[g];
        assert c.mults[l][IndexOf(c.mults[l], g)] == g;
      }
    }

    // ---- Function-dependent phase of the last parties ----

    /** The final leaf shares of a party that is silent online. */
    ghost function SilentLeaves(): (m: map<nat, Elem>)
      requires Ready()
      ensures m.Keys == LeafIds(c)
    {
      map g | g in LeafIds(c) :: if c.gates[g].InputGate? then RandOf(g) else LowOf(g)
    }

    /** The table holds final shares of the given leaves. */
    ghost predicate Holds(dom: set<nat>)
      requires Ready()
      reads table
    {
      table.Valid() && table.leaf.Keys == dom && forall g :: g in table.leaf ==> table.leaf[g] == SilentLeaves()[g]
    }

    /** Only inputs are set, with their final shares. */
    ghost predicate InputsOnly()
      requires Ready()
      reads table
    {
      table.Valid() && forall g :: g in table.leaf ==> g in InputIds(c) && table.leaf[g] == SilentLeaves()[g]
    }

    method SetInputShare(g: nat)
      requires Ready() && AllMapped() && InputsOnly() && g < |c.gates| && c.gates[g].InputGate?
      modifies table
      ensures InputsOnly() && table.leaf.Keys == old(table.leaf.Keys) + {g}
    {
      hide OutputsListed, MultsListed, InputsListed, Topological, Flatten, LowOf, HighOf, RandOf;
      table.Learn(g, rShrs[mapInputs[g]]);
    }

    method SetInputShares()
      requires Ready() && AllMapped() && table.Valid() && table.leaf == map[]
      modifies table
      ensures Holds(InputIds(c)) && table.Valid()
    {
      hide OutputsListed, MultsListed, Topological, Flatten, AllMapped, InputsOnly;
      InputsOnlyMeans();
      for o := 0 to |c.inputs|
        invariant InputsOnly()
        invariant forall q, p :: 0 <= q < o && 0 <= p < |c.inputs[q]| ==> c.inputs[q][p] in table.leaf.Keys
      {
        for p := 0 to |c.inputs[o]|
          invariant InputsOnly()
          invariant forall q, d :: 0 <= q < o && 0 <= d < |c.inputs[q]| ==> c.inputs[q][d] in table.leaf.Keys
          invariant forall d :: 0 <= d < p ==> c.inputs[o][d] in table.leaf.Keys
        {
          SetInputShare(c.inputs[o][p]);
        }
      }
      forall g | g in InputIds(c) ensures g in table.leaf.Keys {
        var o := c.gates[g].owner;
        assert c.inputs[o][IndexOf(c.inputs[o], g)] == g;
      }
      InputsOnlyMeans();
    }

    lemma InputsOnlyMeans()
      requires Ready()
      ensures table.Valid() && table.leaf == map[] ==> InputsOnly()
      ensures InputsOnly() && (forall g :: g in InputIds(c) ==> g in table.leaf.Keys) ==> Holds(InputIds(c)) && table.Valid()
    {
      hide OutputsListed, MultsListed, InputsListed, Topological, Flatten, LowOf, HighOf, RandOf;
      if InputsOnly() && forall g :: g in InputIds(c) ==> g in table.leaf.Keys {
        assert table.leaf.Keys == InputIds(c);
      }
    }

    /** What a silent party sends for gate g, with all its shares in place. */
    ghost function SilentShareOf(g: nat): Elem
      requires Ready() && g < |c.gates| && c.gates[g].MultGate?
    {
      AllKnown(c, c.gates[g].left);
      AllKnown(c, c.gates[g].right);
      Sub(Mul(Spread(c, SilentLeaves(), c.gates[g].left), Spread(c, SilentLeaves(), c.gates[g].right)), HighOf(g))
    }

    /** One gate: set its share, then multiply the operands' shares; false where a share is missing. */
    method SilentGate(g: nat, ghost dom: set<nat>) returns (ok: bool)
      requires Ready() && AllMapped() && net.Valid() && g < |c.gates| && c.gates[g].MultGate? && Holds(dom)
      modifies table, net`outbox
      ensures net.Valid() && table.Valid() && Holds(dom + {g})
      ensures ok <==> OperandsKnown(c, dom + {g}, g)
      ensures net.outbox == if ok then old(net.outbox)[0 := old(net.outbox)[0] + [SilentShareOf(g)]] else old(net.outbox)
    {
      hide OutputsListed, InputsListed, MultsListed, Flatten, LowOf, HighOf, RandOf, Mul, Mod, Sub;
      table.Learn(g, dShrs[mapMults[g]]);
      assert table.leaf.Keys == dom + {g};
      var a := table.Get(c.gates[g].left);
      if a.None? { return false; }
      var b := table.Get(c.gates[g].right);
      if b.None? { return false; }
      SpreadGrows(c, table.leaf, SilentLeaves(), c.gates[g].left);
      SpreadGrows(c, table.leaf, SilentLeaves(), c.gates[g].right);
      net.Send(0, Sub(Mul(a.value, b.value), dHighShrs[mapMults[g]]));
      return true;
    }

    /** The share of gate p of layer l is at its place among the messages. */
    ghost predicate Sent(start: Vec, queue: Vec, l: nat, p: nat)
      requires Ready() && l < |c.mults| && p < |c.mults[l]|
    {
      |start| + Offset(c.mults, l) + p < |queue| && queue[|start| + Offset(c.mults, l) + p] == SilentShareOf(c.mults[l][p])
    }

    /** Exactly the shares of the gates before gate p of layer l were sent, and all their operands
        had shares. */
    ghost predicate SentBefore(start: Vec, queue: Vec, l: nat, p: nat)
      requires Ready() && l <= |c.mults| && (l < |c.mults| ==> p <= |c.mults[l]|)
    {
      && start <= queue && |queue| == |start| + Offset(c.mults, l) + p
      && (forall q, d :: 0 <= q < l && 0 <= d < |c.mults[q]| ==>
            OperandsKnown(c, DoneBefore(c, q, d), c.mults[q][d]) && Sent(start, queue, q, d))
      && (l < |c.mults| ==> forall d :: 0 <= d < p ==>
            OperandsKnown(c, DoneBefore(c, l, d), c.mults[l][d]) && Sent(start, queue, l, d))
    }

    lemma SentNothing(start: Vec)
      requires Ready()
      ensures SentBefore(start, start, 0, 0)
    {
      hide WellFormed;
      PartyPrep.OffsetZero(c.mults);
    }

    lemma SentOne(start: Vec, queue: Vec, l: nat, p: nat)
      requires Ready() && l < |c.mults| && p < |c.mults[l]| && SentBefore(start, queue, l, p)
      requires OperandsKnown(c, DoneBefore(c, l, p), c.mults[l][p])
      ensures SentBefore(start, queue + [SilentShareOf(c.mults[l][p])], l, p + 1)
    {
      hide Topological, OutputsListed, InputsListed, Flatten, SilentShareOf, OperandsKnown, DoneBefore, Offset;
    }

    lemma SentLayer(start: Vec, queue: Vec, l: nat)
      requires Ready() && l < |c.mults| && SentBefore(start, queue, l, |c.mults[l]|)
      ensures SentBefore(start, queue, l + 1, 0)
    {
      hide Topological, OutputsListed, InputsListed, Flatten, SilentShareOf, OperandsKnown, DoneBefore, Offset;
      OffsetStep(c.mults, l);
    }

    /** One layer; false where a gate's operand has no share. */
    method SilentLayer(l: nat, ghost start: Vec) returns (ok: bool)
      requires Ready() && AllMapped() && net.Valid() && table.Valid() && l < |c.mults| && Holds(DoneLayers(c, l))
      requires SentBefore(start, net.outbox[0], l, 0)
      modifies table, net`outbox
      ensures net.Valid() && table.Valid()
      ensures ok <==> forall p :: 0 <= p < |c.mults[l]| ==> OperandsKnown(c, DoneBefore(c, l, p), c.mults[l][p])
      ensures ok ==> Holds(DoneLayers(c, l + 1)) && SentBefore(start, net.outbox[0], l + 1, 0)
      ensures forall j :: 0 < j < pp.n ==> net.outbox[j] == old(net.outbox)[j]
    {
      hide Topological, OutputsListed, InputsListed, MultsListed, Flatten, SilentShareOf, OperandsKnown, AllMapped, Offset,
        Elements, DoneBefore, DoneLayers, SentBefore, Holds;
      MultGates(c, l);
      NoneOfLayer(c, l);
      LayerDone(c, l);
      for p := 0 to |c.mults[l]|
        invariant net.Valid() && table.Valid() && Holds(DoneLayers(c, l) + Elements(c.mults[l][..p]))
        invariant SentBefore(start, net.outbox[0], l, p) && forall j :: 0 < j < pp.n ==> net.outbox[j] == old(net.outbox)[j]
        invariant forall d :: 0 <= d < p ==> OperandsKnown(c, DoneBefore(c, l, d), c.mults[l][d])
      {
        ghost var before := net.outbox[0];
        OneGateMore(c, l, p);
        var sent := SilentGate(c.mults[l][p], DoneLayers(c, l) + Elements(c.mults[l][..p]));
        if !sent { return false; }
        SentOne(start, before, l, p);
      }
      SentLayer(start, net.outbox[0], l);
      return true;
    }

    /** FDMultPartiesSendP1: for a party with id >= t+1 it goes through exactly when every gate's
        operands already have shares, and then P1 is sent one share per gate, layer by layer. */
    method FDMultPartiesSendP1() returns (ok: bool)
      requires Ready() && AllMapped() && net.Valid() && table.Valid() && table.leaf == map[]
      modifies table, net`outbox
      ensures net.Valid() && table.Valid()
      ensures id < pp.t + 1 ==> ok && net.outbox == old(net.outbox) && table.leaf == map[]
      ensures id >= pp.t + 1 ==> (ok <==> SilentReady(c))
      ensures id >= pp.t + 1 && ok ==>
                |net.outbox[0]| == |old(net.outbox)[0]| + |Flatten(c.mults)| && old(net.outbox)[0] <= net.outbox[0]
      ensures forall j :: 0 < j < pp.n ==> net.outbox[j] == old(net.outbox)[j]
      ensures id >= pp.t + 1 && ok ==> Holds(DoneLayers(c, |c.mults|))
      ensures id >= pp.t + 1 && ok ==> forall l, p :: 0 <= l < |c.mults| && 0 <= p < |c.mults[l]| ==> Sent(old(net.outbox)[0], net.outbox[0], l, p)
    {
      hide Topological, OutputsListed, InputsListed, Flatten, Holds, SilentShareOf, OperandsKnown, AllMapped, Offset,
        Elements, DoneBefore, DoneLayers, SentBefore, Sent;
      if id < pp.t + 1 { return true; }
      SetInputShares();
      NothingDone(c);
      ghost var start := net.outbox[0];
      SentNothing(start);
      for l := 0 to |c.mults|
        invariant net.Valid() && table.Valid() && Holds(DoneLayers(c, l)) && SentBefore(start, net.outbox[0], l, 0)
        invariant forall j :: 0 < j < pp.n ==> net.outbox[j] == old(net.outbox)[j]
        invariant forall q, p :: 0 <= q < l && 0 <= p < |c.mults[q]| ==> OperandsKnown(c, DoneBefore(c, q, p), c.mults[q][p])
      {
        var sent := SilentLayer(l, start);
        if !sent { return false; }
      }
      SentAll(start, net.outbox[0]);
      return true;
    }

    lemma SentAll(start: Vec, queue: Vec)
      requires Ready() && SentBefore(start, queue, |c.mults|, 0)
      ensures start <= queue && |queue| == |start| + |Flatten(c.mults)|
      ensures forall l, p :: 0 <= l < |c.mults| && 0 <= p < |c.mults[l]| ==> Sent(start, queue, l, p)
    {
      hide Topological, OutputsListed, InputsListed, SilentShareOf, OperandsKnown, DoneBefore;
      TotalOffset(c.mults);
    }

    // ---- P1's queue of the last parties' shares ----

    /** One gate: a share from each of the last parties. */
    method P1ReceivesLast(ghost start: seq<Vec>, ghost x: nat)
      requires Ready() && net.Valid() && Dropped(start, net.inbox, pp.t + 1, pp.n, x)
      requires forall i :: pp.t + 1 <= i < pp.n ==> x < |start[i]|
      modifies `sharesFromLast, net`inbox
      ensures net.Valid() && Dropped(start, net.inbox, pp.t + 1, pp.n, x + 1)
      ensures sharesFromLast == old(sharesFromLast) + [HeadsOf(start, pp.t + 1, pp.n, x)]
    {
      var recv := net.RecvFrom(pp.t + 1, pp.n);
      assert recv == HeadsOf(start, pp.t + 1, pp.n, x);
      sharesFromLast := sharesFromLast + [recv];
    }

    /** FDMultP1Receives: one vector per multiplication gate, in layer order. */
    method FDMultP1Receives()
      requires Ready() && net.Valid()
      requires id == 0 ==> forall i :: pp.t < i < pp.n ==> |net.inbox[i]| >= |Flatten(c.mults)|
      modifies `sharesFromLast, net`inbox
      ensures net.Valid()
      ensures id == 0 ==> Dropped(old(net.inbox), net.inbox, pp.t + 1, pp.n, |Flatten(c.mults)|)
      ensures id == 0 ==> sharesFromLast == old(sharesFromLast) + Rounds(old(net.inbox), pp.t + 1, pp.n, |Flatten(c.mults)|)
      ensures id != 0 ==> net.inbox == old(net.inbox) && sharesFromLast == old(sharesFromLast)
    {
      hide WellFormed, Flatten, Offset, Dropped, Rounds, HeadsOf;
      if id != 0 { return; }
      ghost var start, queue := net.inbox, sharesFromLast;
      var m := pp.t + 1;
      PartyPrep.OffsetZero(c.mults);
      NoRounds(start, m, pp.n);
      for layer := 0 to |c.mults|
        invariant net.Valid() && Dropped(start, net.inbox, m, pp.n, Offset(c.mults, layer))
        invariant Long(start, m, pp.n, Offset(c.mults, layer))
        invariant sharesFromLast == queue + Rounds(start, m, pp.n, Offset(c.mults, layer))
      {
        OffsetStep(c.mults, layer);
        for p := 0 to |c.mults[layer]|
          invariant net.Valid() && Dropped(start, net.inbox, m, pp.n, Offset(c.mults, layer) + p)
          invariant Long(start, m, pp.n, Offset(c.mults, layer) + p)
          invariant sharesFromLast == queue + Rounds(start, m, pp.n, Offset(c.mults, layer) + p)
        {
          P1ReceivesLast(start, Offset(c.mults, layer) + p);
          OneRound(start, m, pp.n, Offset(c.mults, layer) + p);
        }
      }
      TotalOffset(c.mults);
    }

    // ---- Inputs ----

    method InputPartiesSendOwners()
      requires Ready() && AllMapped() && net.Valid()
      modifies net`outbox
      ensures net.Valid()
      ensures forall o :: 0 <= o < pp.n ==> net.outbox[o] == old(net.outbox)[o] + (if id < pp.t + 1 && o < |c.inputs| then RandsOf(o) else [])
    {
      hide Topological, OutputsListed, MultsListed, Flatten, RandOf, LowOf, HighOf;
      if id >= pp.t + 1 { return; }
      for o := 0 to |c.inputs|
        invariant net.Valid()
        invariant forall q :: 0 <= q < pp.n ==> net.outbox[q] == old(net.outbox)[q] + (if q < o then RandsOf(q) else [])
      {
        for p := 0 to |c.inputs[o]|
          invariant net.Valid()
          invariant forall q :: 0 <= q < pp.n && q != o ==> net.outbox[q] == old(net.outbox)[q] + (if q < o then RandsOf(q) else [])
          invariant net.outbox[o] == old(net.outbox)[o] + RandsOf(o)[..p]
        {
          net.Send(o, rShrs[mapInputs[c.inputs[o][p]]]);
        }
        assert RandsOf(o)[..|c.inputs[o]|] == RandsOf(o);
      }
    }

    /** The party's random shares for the input gates of one owner. */
    ghost function RandsOf(o: nat): (v: Vec)
      requires Ready() && o < |c.inputs|
      ensures |v| == |c.inputs[o]|
    {
      seq(|c.inputs[o]|, p requires 0 <= p < |c.inputs[o]| => RandOf(c.inputs[o][p]))
    }

    /** What an owner sends for one input when it received the given shares of the mask. */
    ghost function InputMsg(value: Elem, mask: Vec): (v: Vec)
      requires Ready() && |mask| == pp.t + 1
      ensures |v| == pp.t + 1
    {
      ZeroEndShares(pp, Sub(value, ReconstructAt(mask, SlotX(0))), pp.t + 1)
    }

    /** Shares of a value for the first t + 1 parties, the last t parties' being zero. */
    method SharesWithZeros(value: Elem) returns (s: Vec)
      requires Ready()
      ensures s == ZeroEndShares(pp, value, pp.t + 1)
    {
      hide Lagrange, Mod, WellFormed;
      var yPoints: Vec := [value];
      var xPoints: Vec := [SlotX(0)];
      for q := 0 to pp.t
        invariant yPoints == [value] + Const(0, q) && xPoints == [SlotX(0)] + LastXs(pp)[..q]
      {
        yPoints, xPoints := yPoints + [0], xPoints + [ShareX(pp.n - pp.t + q)];
      }
      assert LastXs(pp)[..pp.t] == LastXs(pp);
      ZeroEndXsDistinct(pp);
      s := SharesFromEvPoly(EvPolynomial(xPoints, yPoints), pp.t + 1);
    }

    /** One gate of InputOwnersReceiveAndSendParties. */
    method OwnerMasks(value: Elem, ghost start: seq<Vec>, ghost p: nat)
      requires Ready() && net.Valid() && Dropped(start, net.inbox, 0, pp.t + 1, p) && Long(start, 0, pp.t + 1, p + 1)
      modifies net`inbox, net`outbox
      ensures net.Valid() && Dropped(start, net.inbox, 0, pp.t + 1, p + 1)
      ensures Appended(old(net.outbox), net.outbox, InputMsg(value, HeadsOf(start, 0, pp.t + 1, p)))
    {
      hide ReconstructAt, ZeroEndShares, WellFormed;
      var recv := net.RecvFrom(0, pp.t + 1);
      assert recv == HeadsOf(start, 0, pp.t + 1, p);
      var mask := SecretFromPointAndShares(SlotX(0), recv);
      var shares := SharesWithZeros(Sub(value, mask));
      net.SendFirst(shares);
    }

    /** InputOwnersReceiveAndSendParties, with the values of the owner's input gates. */
    method InputOwnersReceiveAndSendParties(values: Vec)
      requires Ready() && net.Valid() && id < |c.inputs| && |values| == |c.inputs[id]|
      requires Long(net.inbox, 0, pp.t + 1, |values|)
      modifies net`inbox, net`outbox
      ensures net.Valid() && Dropped(old(net.inbox), net.inbox, 0, pp.t + 1, |values|)
      ensures SentRows(old(net.outbox), net.outbox, InputMsgs(values, old(net.inbox)), pp.t + 1)
    {
      hide Dropped, Appended, InputMsg, SentRows, WellFormed, Long;
      ghost var start, before := net.inbox, net.outbox;
      DroppedNone(start, 0, pp.t + 1);
      SentNoRows(before, pp.t + 1);
      for p := 0 to |values|
        invariant net.Valid() && Dropped(start, net.inbox, 0, pp.t + 1, p)
        invariant SentRows(before, net.outbox, InputMsgs(values, start)[..p], pp.t + 1)
      {
        LongShorter(start, 0, pp.t + 1, |values|, p + 1);
        ghost var was := net.outbox;
        OwnerMasks(values[p], start, p);
        SentRow(before, was, net.outbox, InputMsgs(values, start)[..p], pp.t + 1, InputMsgs(values, start)[p]);
        assert InputMsgs(values, start)[..p + 1] == InputMsgs(values, start)[..p] + [InputMsgs(values, start)[p]];
      }
      assert InputMsgs(values, start)[..|values|] == InputMsgs(values, start);
    }

    ghost function InputMsgs(values: Vec, start: seq<Vec>): (rows: seq<Vec>)
      requires Ready() && |start| == pp.n && Long(start, 0, pp.t + 1, |values|)
      ensures |rows| == |values| && forall p :: 0 <= p < |rows| ==> |rows[p]| == pp.t + 1
    {
      seq(|values|, p requires 0 <= p < |values| => InputMsg(values[p], HeadsOf(start, 0, pp.t + 1, p)))
    }

    /** The gates of one owner. */
    method OwnerInputsReceive(o: nat)
      requires Ready() && AllMapped() && net.Valid() && table.Valid() && o < |c.inputs| && |net.inbox[o]| >= |c.inputs[o]|
      requires forall p :: 0 <= p < |c.inputs[o]| ==> c.inputs[o][p] !in table.leaf
      modifies table, net`inbox
      ensures net.Valid() && table.Valid()
      ensures net.inbox[o] == old(net.inbox)[o][|c.inputs[o]|..] && forall e :: 0 <= e < pp.n && e != o ==> net.inbox[e] == old(net.inbox)[e]
      ensures forall g :: g in table.leaf <==> g in old(table.leaf) || g in c.inputs[o]
      ensures forall p :: 0 <= p < |c.inputs[o]| ==> table.leaf[c.inputs[o][p]] == Add(old(net.inbox)[o][p], RandOf(c.inputs[o][p]))
      ensures forall g :: g in old(table.leaf) ==> table.leaf[g] == old(table.leaf)[g]
    {
      hide Topological, OutputsListed, MultsListed, Flatten, RandOf, LowOf, HighOf, Add;
      for p := 0 to |c.inputs[o]|
        invariant net.Valid() && table.Valid() && net.inbox[o] == old(net.inbox)[o][p..]
        invariant forall e :: 0 <= e < pp.n && e != o ==> net.inbox[e] == old(net.inbox)[e]
        invariant forall d :: 0 <= d < |c.inputs[o]| ==> (c.inputs[o][d] in table.leaf <==> d < p)
        invariant forall d :: 0 <= d < p ==> table.leaf[c.inputs[o][d]] == Add(old(net.inbox)[o][d], RandOf(c.inputs[o][d]))
        invariant forall g :: g in old(table.leaf) ==> g in table.leaf && table.leaf[g] == old(table.leaf)[g]
        invariant forall g :: g in table.leaf ==> g in old(table.leaf) || g in c.inputs[o]
      {
        var masked := net.Recv(o);
        table.Learn(c.inputs[o][p], Add(masked, rShrs[mapInputs[c.inputs[o][p]]]));
      }
    }

    /** Gate p of owner o has its share, the message plus the mask share. */
    ghost predicate InputSet(start: seq<Vec>, leaf: map<nat, Elem>, o: nat, p: nat)
      requires Ready() && o < |c.inputs| && p < |c.inputs[o]| && o < |start| && p < |start[o]|
    {
      c.inputs[o][p] in leaf && leaf[c.inputs[o][p]] == Add(start[o][p], RandOf(c.inputs[o][p]))
    }

    /** InputPartiesReceive: parties 0, ..., t set the shares of all input gates. */
    method InputPartiesReceive()
      requires Ready() && AllMapped() && net.Valid() && table.Valid() && (id < pp.t + 1 ==> table.leaf == map[])
      requires id < pp.t + 1 ==> forall o :: 0 <= o < |c.inputs| ==> |net.inbox[o]| >= |c.inputs[o]|
      modifies table, net`inbox
      ensures net.Valid() && table.Valid()
      ensures id >= pp.t + 1 ==> net.inbox == old(net.inbox) && table.leaf == old(table.leaf)
      ensures id < pp.t + 1 ==> table.leaf.Keys == InputIds(c)
      ensures id < pp.t + 1 ==> forall o, p :: 0 <= o < |c.inputs| && 0 <= p < |c.inputs[o]| ==>
                InputSet(old(net.inbox), table.leaf, o, p)
      ensures id < pp.t + 1 ==> forall o :: 0 <= o < |c.inputs| ==> net.inbox[o] == old(net.inbox)[o][|c.inputs[o]|..]
    {
      hide WellFormed, AllMapped, InputSet;
      if id >= pp.t + 1 { return; }
      ghost var start := net.inbox;
      for o := 0 to |c.inputs|
        invariant net.Valid() && table.Valid()
        invariant forall e :: 0 <= e < pp.n ==> net.inbox[e] == if e < o then start[e][|c.inputs[e]|..] else start[e]
        invariant InputsSet(start, table.leaf, o)
      {
        NotYetSet(start, table.leaf, o);
        ghost var before := table.leaf;
        OwnerInputsReceive(o);
        OneOwnerMore(start, before, table.leaf, o);
      }
      AllInputsSet(start, table.leaf);
    }

    /** The input gates of the first m owners, and nothing else, have their shares. */
    ghost predicate InputsSet(start: seq<Vec>, leaf: map<nat, Elem>, m: nat)
      requires Ready() && m <= |c.inputs| && |start| == pp.n && forall o :: 0 <= o < |c.inputs| ==> |start[o]| >= |c.inputs[o]|
    {
      && (forall g :: g in leaf ==> g in InputIds(c) && c.gates[g].owner < m)
      && forall q, p :: 0 <= q < m && 0 <= p < |c.inputs[q]| ==> InputSet(start, leaf, q, p)
    }

    lemma NotYetSet(start: seq<Vec>, leaf: map<nat, Elem>, o: nat)
      requires Ready() && o < |c.inputs| && |start| == pp.n && forall q :: 0 <= q < |c.inputs| ==> |start[q]| >= |c.inputs[q]|
      requires InputsSet(start, leaf, o)
      ensures forall p :: 0 <= p < |c.inputs[o]| ==> c.inputs[o][p] !in leaf
    {
      hide Topological, OutputsListed, MultsListed, InputSet;
    }

    lemma OneOwnerMore(start: seq<Vec>, before: map<nat, Elem>, leaf: map<nat, Elem>, o: nat)
      requires Ready() && o < |c.inputs| && |start| == pp.n && forall q :: 0 <= q < |c.inputs| ==> |start[q]| >= |c.inputs[q]|
      requires InputsSet(start, before, o)
      requires forall g :: g in leaf <==> g in before || g in c.inputs[o]
      requires forall p :: 0 <= p < |c.inputs[o]| ==> leaf[c.inputs[o][p]] == Add(start[o][p], RandOf(c.inputs[o][p]))
      requires forall g :: g in before ==> leaf[g] == before[g]
      ensures InputsSet(start, leaf, o + 1)
    {
      hide Topological, OutputsListed, MultsListed, RandOf, Add;
      forall q, p | 0 <= q < o + 1 && 0 <= p < |c.inputs[q]| ensures InputSet(start, leaf, q, p) {
        if q < o { assert InputSet(start, before, q, p); }
      }
    }

    lemma AllInputsSet(start: seq<Vec>, leaf: map<nat, Elem>)
      requires Ready() && |start| == pp.n && forall q :: 0 <= q < |c.inputs| ==> |start[q]| >= |c.inputs[q]|
      requires InputsSet(start, leaf, |c.inputs|)
      ensures leaf.Keys == InputIds(c)
      ensures forall o, p :: 0 <= o < |c.inputs| && 0 <= p < |c.inputs[o]| ==> InputSet(start, leaf, o, p)
    {
      hide Topological, OutputsListed, MultsListed, RandOf, Add;
      forall g | g in InputIds(c) ensures g in leaf {
        var o := c.gates[g].owner;
        var p := IndexOf(c.inputs[o], g);
        assert InputSet(start, leaf, o, p);
      }
    }

    // ---- One layer of multiplications ----

    /** What an active party sends for gate g. */
    ghost function ActiveShareOf(leaf: map<nat, Elem>, g: nat): Elem
      requires Ready() && g < |c.gates| && c.gates[g].MultGate? && OperandsKnown(c, leaf.Keys, g)
    {
      Sub(Mul(Spread(c, leaf, c.gates[g].left), Spread(c, leaf, c.gates[g].right)), HighOf(g))
    }

    method ActiveGate(g: nat) returns (ok: bool)
      requires Ready() && AllMapped() && net.Valid() && table.Valid() && g < |c.gates| && c.gates[g].MultGate?
      modifies table`memo, net`outbox
      ensures net.Valid() && table.Valid() && table.leaf == old(table.leaf)
      ensures ok <==> OperandsKnown(c, table.leaf.Keys, g)
      ensures ok ==> net.outbox == old(net.outbox)[0 := old(net.outbox)[0] + [ActiveShareOf(table.leaf, g)]]
    {
      hide OutputsListed, InputsListed, MultsListed, Flatten, LowOf, HighOf, RandOf, Mul, Mod, Sub;
      var a := table.Get(c.gates[g].left);
      if a.None? { return false; }
      var b := table.Get(c.gates[g].right);
      if b.None? { return false; }
      net.Send(0, Sub(Mul(a.value, b.value), dHighShrs[mapMults[g]]));
      return true;
    }

    /** MultPartiesSendP1: it throws exactly when a gate reads a wire without a share. */
    method MultPartiesSendP1(l: nat) returns (ok: bool)
      requires Ready() && AllMapped() && net.Valid() && table.Valid() && l < |c.mults|
      modifies table`memo, net`outbox
      ensures net.Valid() && table.Valid() && table.leaf == old(table.leaf)
      ensures ok <==> id >= pp.t + 1 || LayerReady(c, table.leaf.Keys, l)
      ensures id >= pp.t + 1 ==> net.outbox == old(net.outbox)
      ensures id < pp.t + 1 && ok ==> forall j :: 0 < j < pp.n ==> net.outbox[j] == old(net.outbox)[j]
      ensures id < pp.t + 1 && ok ==> net.outbox[0] == old(net.outbox)[0] + LayerMsgs(table.leaf, l)
    {
      hide Topological, OutputsListed, InputsListed, Flatten, ActiveShareOf, OperandsKnown, AllMapped;
      if id >= pp.t + 1 { return true; }
      ghost var start := net.outbox;
      for p := 0 to |c.mults[l]|
        invariant net.Valid() && table.Valid() && table.leaf == old(table.leaf)
        invariant forall d :: 0 <= d < p ==> OperandsKnown(c, table.leaf.Keys, c.mults[l][d])
        invariant forall j :: 0 < j < pp.n ==> net.outbox[j] == start[j]
        invariant |net.outbox[0]| == |start[0]| + p && start[0] <= net.outbox[0]
        invariant forall d :: 0 <= d < p ==> net.outbox[0][|start[0]| + d] == ActiveShareOf(table.leaf, c.mults[l][d])
      {
        var sent := ActiveGate(c.mults[l][p]);
        if !sent { return false; }
      }
      assert net.outbox[0] == start[0] + LayerMsgs(table.leaf, l);
      return true;
    }

    ghost function LayerMsgs(leaf: map<nat, Elem>, l: nat): (v: Vec)
      requires Ready() && l < |c.mults| && LayerReady(c, leaf.Keys, l)
      ensures |v| == |c.mults[l]|
    {
      seq(|c.mults[l]|, p requires 0 <= p < |c.mults[l]| => ActiveShareOf(leaf, c.mults[l][p]))
    }

    /** What P1 sends for a gate, from the active parties' shares and the vector it popped. */
    ghost function Opened(recv: Vec, last: Vec): (v: Vec)
      requires Ready() && |recv| == pp.t + 1 && |last| == pp.n - (pp.t + 1)
      ensures |v| == pp.t + 1
    {
      ZeroEndShares(pp, ReconstructAt(recv + last, SlotX(0)), pp.t + 1)
    }

    /** One gate of MultP1Receives. */
    method P1OpensGate(ghost start: seq<Vec>, ghost p: nat)
      requires Ready() && net.Valid() && Dropped(start, net.inbox, 0, pp.t + 1, p) && Long(start, 0, pp.t + 1, p + 1)
      requires sharesFromLast != [] && |sharesFromLast[0]| == pp.n - (pp.t + 1)
      modifies `sharesFromLast, `sharesToSend, net`inbox
      ensures net.Valid() && Dropped(start, net.inbox, 0, pp.t + 1, p + 1)
      ensures sharesFromLast == old(sharesFromLast)[1..]
      ensures sharesToSend == old(sharesToSend) + [Opened(HeadsOf(start, 0, pp.t + 1, p), old(sharesFromLast)[0])]
    {
      hide ReconstructAt, ZeroEndShares, WellFormed;
      var shares := net.RecvFrom(0, pp.t + 1);
      assert shares == HeadsOf(start, 0, pp.t + 1, p);
      var last := sharesFromLast[0];
      sharesFromLast := sharesFromLast[1..];
      for i := pp.t + 1 to pp.n
        invariant shares == HeadsOf(start, 0, pp.t + 1, p) + last[..i - (pp.t + 1)]
      {
        shares := shares + [last[i - (pp.t + 1)]];
      }
      assert last[..pp.n - (pp.t + 1)] == last;
      var secret := SecretFromPointAndShares(SlotX(0), shares);
      var toSend := SharesWithZeros(secret);
      sharesToSend := sharesToSend + [toSend];
    }

    /** MultP1Receives: the queue is popped once per gate of the layer. */
    method MultP1Receives(l: nat)
      requires Ready() && net.Valid() && l < |c.mults|
      requires id == 0 ==> |sharesFromLast| >= |c.mults[l]| && Long(net.inbox, 0, pp.t + 1, |c.mults[l]|)
      requires id == 0 ==> forall x :: 0 <= x < |sharesFromLast| ==> |sharesFromLast[x]| == pp.n - (pp.t + 1)
      modifies `sharesFromLast, `sharesToSend, net`inbox
      ensures net.Valid()
      ensures id != 0 ==> net.inbox == old(net.inbox) && sharesFromLast == old(sharesFromLast) && sharesToSend == old(sharesToSend)
      ensures id == 0 ==> sharesFromLast == old(sharesFromLast)[|c.mults[l]|..]
      ensures id == 0 ==> sharesToSend == old(sharesToSend) + OpenedRows(old(net.inbox), old(sharesFromLast), |c.mults[l]|)
      ensures id == 0 ==> Dropped(old(net.inbox), net.inbox, 0, pp.t + 1, |c.mults[l]|)
    {
      hide Dropped, HeadsOf, Opened, WellFormed, Long;
      if id != 0 { return; }
      ghost var start, q, s, m := net.inbox, sharesFromLast, sharesToSend, |c.mults[l]|;
      DroppedNone(start, 0, pp.t + 1);
      for p := 0 to |c.mults[l]|
        invariant net.Valid() && Dropped(start, net.inbox, 0, pp.t + 1, p)
        invariant sharesFromLast == q[p..] && sharesToSend == s + OpenedRows(start, q, m)[..p]
      {
        LongShorter(start, 0, pp.t + 1, m, p + 1);
        P1OpensGate(start, p);
        assert OpenedRows(start, q, m)[..p + 1] == OpenedRows(start, q, m)[..p] + [OpenedRows(start, q, m)[p]];
      }
      assert OpenedRows(start, q, m)[..m] == OpenedRows(start, q, m);
    }

    ghost function OpenedRows(start: seq<Vec>, queue: seq<Vec>, m: nat): (rows: seq<Vec>)
      requires Ready() && |start| == pp.n && Long(start, 0, pp.t + 1, m) && m <= |queue|
      requires forall x :: 0 <= x < m ==> |queue[x]| == pp.n - (pp.t + 1)
      ensures |rows| == m && forall p :: 0 <= p < m ==> |rows[p]| == pp.t + 1
    {
      seq(m, p requires 0 <= p < m => Opened(HeadsOf(start, 0, pp.t + 1, p), queue[p]))
    }

    method P1SendsGate()
      requires Ready() && net.Valid() && sharesToSend != [] && |sharesToSend[0]| == pp.t + 1
      modifies `sharesToSend, net`outbox
      ensures net.Valid() && sharesToSend == old(sharesToSend)[1..]
      ensures Appended(old(net.outbox), net.outbox, old(sharesToSend)[0])
    {
      hide WellFormed;
      net.SendFirst(sharesToSend[0]);
      sharesToSend := sharesToSend[1..];
    }

    /** MultP1SendsParties. */
    method MultP1SendsParties(l: nat)
      requires Ready() && net.Valid() && l < |c.mults|
      requires id == 0 ==> |sharesToSend| >= |c.mults[l]| && forall p :: 0 <= p < |c.mults[l]| ==> |sharesToSend[p]| == pp.t + 1
      modifies `sharesToSend, net`outbox
      ensures net.Valid()
      ensures id != 0 ==> net.outbox == old(net.outbox) && sharesToSend == old(sharesToSend)
      ensures id == 0 ==> sharesToSend == old(sharesToSend)[|c.mults[l]|..]
      ensures id == 0 ==> SentRows(old(net.outbox), net.outbox, old(sharesToSend)[..|c.mults[l]|], pp.t + 1)
    {
      hide WellFormed, Appended, SentRows;
      if id != 0 { return; }
      ghost var before, q := net.outbox, sharesToSend;
      SentNoRows(before, pp.t + 1);
      for p := 0 to |c.mults[l]|
        invariant net.Valid() && sharesToSend == q[p..] && SentRows(before, net.outbox, q[..p], pp.t + 1)
      {
        ghost var was := net.outbox;
        SplitAt(q, p);
        P1SendsGate();
        SentRow(before, was, net.outbox, q[..p], pp.t + 1, q[p]);
      }
    }

    /** MultPartiesReceive: the gates' shares are set, everything else stays. */
    method MultPartiesReceive(l: nat)
      requires Ready() && AllMapped() && net.Valid() && table.Valid() && l < |c.mults|
      requires id < pp.t + 1 ==> |net.inbox[0]| >= |c.mults[l]|
      requires id < pp.t + 1 ==> forall p :: 0 <= p < |c.mults[l]| ==> c.mults[l][p] !in table.leaf
      modifies table, net`inbox
      ensures net.Valid() && table.Valid()
      ensures id >= pp.t + 1 ==> net.inbox == old(net.inbox) && table.leaf == old(table.leaf)
      ensures id < pp.t + 1 ==> Dropped(old(net.inbox), net.inbox, 0, 1, |c.mults[l]|)
      ensures id < pp.t + 1 ==> table.leaf.Keys == old(table.leaf.Keys) + LayerIds(c, l)
      ensures id < pp.t + 1 ==> forall p :: 0 <= p < |c.mults[l]| ==>
                c.mults[l][p] in table.leaf && table.leaf[c.mults[l][p]] == Add(old(net.inbox)[0][p], LowOf(c.mults[l][p]))
      ensures forall g :: g in old(table.leaf) ==> g in table.leaf && table.leaf[g] == old(table.leaf)[g]
    {
      hide Topological, OutputsListed, InputsListed, Flatten, RandOf, LowOf, HighOf, Add;
      if id >= pp.t + 1 { return; }
      for p := 0 to |c.mults[l]|
        invariant net.Valid() && table.Valid() && Dropped(old(net.inbox), net.inbox, 0, 1, p)
        invariant forall d :: 0 <= d < |c.mults[l]| ==> (c.mults[l][d] in table.leaf <==> d < p)
        invariant forall d :: 0 <= d < p ==> table.leaf[c.mults[l][d]] == Add(old(net.inbox)[0][d], LowOf(c.mults[l][d]))
        invariant forall g :: g in old(table.leaf) ==> g in table.leaf && table.leaf[g] == old(table.leaf)[g]
        invariant forall g :: g in table.leaf ==> g in old(table.leaf) || g in c.mults[l]
      {
        var masked := net.Recv(0);
        table.Learn(c.mults[l][p], Add(masked, dShrs[mapMults[c.mults[l][p]]]));
      }
    }

    // ---- Outputs ----

    /** The shares of an owner's output gates, the first m of them. */
    ghost function OutputMsgs(leaf: map<nat, Elem>, o: nat, m: nat): (v: Vec)
      requires Ready() && o < |c.outputs| && m <= |c.outputs[o]|
      requires forall p :: 0 <= p < m ==> Known(c, leaf.Keys, c.outputs[o][p])
      ensures |v| == m
    {
      seq(m, p requires 0 <= p < m => Spread(c, leaf, c.outputs[o][p]))
    }

    ghost predicate OutputsKnown(leaf: map<nat, Elem>, o: nat)
      requires Ready() && o < |c.outputs|
    {
      forall p :: 0 <= p < |c.outputs[o]| ==> Known(c, leaf.Keys, c.outputs[o][p])
    }

    ghost function OutputRow(leaf: map<nat, Elem>, o: nat): Vec
      requires Ready() && o < |c.outputs| && OutputsKnown(leaf, o)
    {
      OutputMsgs(leaf, o, |c.outputs[o]|)
    }

    /** The gates of one owner; false where GetDn07Share throws. */
    method SendOutputs(o: nat) returns (ok: bool)
      requires Ready() && net.Valid() && table.Valid() && o < |c.outputs|
      modifies table`memo, net`outbox
      ensures net.Valid() && table.Valid() && table.leaf == old(table.leaf)
      ensures ok <==> OutputsKnown(table.leaf, o)
      ensures ok ==> net.outbox[o] == old(net.outbox)[o] + OutputRow(table.leaf, o)
      ensures forall e :: 0 <= e < pp.n && e != o ==> net.outbox[e] == old(net.outbox)[e]
    {
      hide Topological, InputsListed, MultsListed, Flatten, Known, Spread;
      for p := 0 to |c.outputs[o]|
        invariant net.Valid() && table.Valid() && table.leaf == old(table.leaf)
        invariant forall d :: 0 <= d < p ==> Known(c, table.leaf.Keys, c.outputs[o][d])
        invariant net.outbox[o] == old(net.outbox)[o] + OutputMsgs(table.leaf, o, p)
        invariant forall e :: 0 <= e < pp.n && e != o ==> net.outbox[e] == old(net.outbox)[e]
      {
        var share := table.Get(c.outputs[o][p]);
        if share.None? { return false; }
        net.Send(o, share.value);
        assert OutputMsgs(table.leaf, o, p + 1) == OutputMsgs(table.leaf, o, p) + [share.value];
      }
      return true;
    }

    /** OutputPartiesSendOwners. */
    method OutputPartiesSendOwners() returns (ok: bool)
      requires Ready() && net.Valid() && table.Valid()
      modifies table`memo, net`outbox
      ensures net.Valid() && table.Valid() && table.leaf == old(table.leaf)
      ensures ok <==> id >= pp.t + 1 || forall o :: 0 <= o < |c.outputs| ==> OutputsKnown(table.leaf, o)
      ensures id >= pp.t + 1 ==> net.outbox == old(net.outbox)
      ensures id < pp.t + 1 && ok ==> forall o :: 0 <= o < |c.outputs| ==>
                net.outbox[o] == old(net.outbox)[o] + OutputRow(table.leaf, o)
    {
      hide WellFormed, OutputRow, OutputsKnown;
      if id >= pp.t + 1 { return true; }
      for o := 0 to |c.outputs|
        invariant net.Valid() && table.Valid() && table.leaf == old(table.leaf)
        invariant forall q :: 0 <= q < o ==> OutputsKnown(table.leaf, q)
        invariant forall q :: 0 <= q < o ==> net.outbox[q] == old(net.outbox)[q] + OutputRow(table.leaf, q)
        invariant forall q :: o <= q < pp.n ==> net.outbox[q] == old(net.outbox)[q]
      {
        var sent := SendOutputs(o);
        if !sent { return false; }
      }
      return true;
    }

    /** One gate of OutputOwnersReceive. */
    method OwnerOpens(gate: nat, ghost start: seq<Vec>, ghost p: nat)
      requires Ready() && net.Valid() && Dropped(start, net.inbox, 0, pp.t + 1, p) && Long(start, 0, pp.t + 1, p + 1)
      modifies `results, net`inbox
      ensures net.Valid() && Dropped(start, net.inbox, 0, pp.t + 1, p + 1)
      ensures results == old(results)[gate := ReconstructAt(HeadsOf(start, 0, pp.t + 1, p), SlotX(0))]
    {
      hide ReconstructAt, WellFormed;
      var recv := net.RecvFrom(0, pp.t + 1);
      assert recv == HeadsOf(start, 0, pp.t + 1, p);
      var result := SecretFromPointAndShares(SlotX(0), recv);
      results := results[gate := result];
    }

    /** OutputOwnersReceive: a gate that is listed more than once keeps what was opened last for it. */
    method OutputOwnersReceive()
      requires Ready() && net.Valid() && id < |c.outputs| && Long(net.inbox, 0, pp.t + 1, |c.outputs[id]|)
      modifies `results, net`inbox
      ensures net.Valid() && Dropped(old(net.inbox), net.inbox, 0, pp.t + 1, |c.outputs[id]|)
      ensures forall p :: 0 <= p < |c.outputs[id]| ==> OpenedFor(results, old(net.inbox), c.outputs[id][p], |c.outputs[id]|)
      ensures forall g :: g !in c.outputs[id] ==> (g in results <==> g in old(results)) && (g in results ==> results[g] == old(results)[g])
    {
      hide ReconstructAt, WellFormed, Dropped;
      ghost var start := net.inbox;
      DroppedNone(start, 0, pp.t + 1);
      for p := 0 to |c.outputs[id]|
        invariant net.Valid() && Dropped(start, net.inbox, 0, pp.t + 1, p)
        invariant forall d :: 0 <= d < p ==> OpenedFor(results, start, c.outputs[id][d], p)
        invariant forall g :: g !in c.outputs[id] ==> (g in results <==> g in old(results)) && (g in results ==> results[g] == old(results)[g])
      {
        ghost var was := results;
        OwnerOpens(c.outputs[id][p], start, p);
        assert OpenedAs(results, start, c.outputs[id][p], p);
        forall d | 0 <= d < p ensures OpenedFor(results, start, c.outputs[id][d], p + 1) {
          if c.outputs[id][d] != c.outputs[id][p] {
            var q :| 0 <= q < p && OpenedAs(was, start, c.outputs[id][d], q);
            assert OpenedAs(results, start, c.outputs[id][d], q);
          }
        }
      }
    }

    /** The gate's result is what the messages of round q open to, and q is a round for that gate. */
    ghost predicate OpenedAs(res: map<nat, Elem>, start: seq<Vec>, g: nat, q: nat)
      requires Ready() && id < |c.outputs|
    {
      && q < |c.outputs[id]| && c.outputs[id][q] == g && Long(start, 0, pp.t + 1, q + 1)
      && g in res && res[g] == ReconstructAt(HeadsOf(start, 0, pp.t + 1, q), SlotX(0))
    }

    ghost predicate OpenedFor(res: map<nat, Elem>, start: seq<Vec>, g: nat, m: nat)
      requires Ready() && id < |c.outputs|
    {
      exists q :: 0 <= q < m && OpenedAs(res, start, g, q)
    }
  }

  // ---- One party's part of the run of all parties ----

  /** The party's shares for a gate are its entries of the vectors of all parties. */
  lemma OwnParts(party: PartyDN07, r: DealerRandomness, g: nat)
    requires party.Ready() && Setup(party.pp, party.c, r) && IsLeaf(party.c, g)
    requires OwnShares(party.pp, r, party.id, party.rShrs, party.dShrs, party.dHighShrs)
    ensures party.c.gates[g].InputGate? ==> party.RandOf(g) == RandVec(party.pp, party.c, r, g)[party.id]
    ensures party.c.gates[g].MultGate? ==>
              party.LowOf(g) == LowVec(party.pp, party.c, r, g)[party.id] && party.HighOf(g) == HighVec(party.pp, party.c, r, g)[party.id]
    ensures party.SilentLeaves()[g] == MaskShare(party.pp, party.c, r, party.id, g)
  {
    hide WellFormed, Flatten, Blocks, Total, Received, RandDealt, LowDealt, HighDealt, Extract;
    LeafIdsAre(party.c, g);
  }

  lemma LeafIdsAre(c: Circuit, g: nat)
    requires IsLeaf(c, g)
    ensures g in LeafIds(c)
  {
  }

  /** In the function-dependent phase a silent party sends what P1's queue is made of. */
  lemma SilentPart(party: PartyDN07, r: DealerRandomness, g: nat)
    requires party.Ready() && Setup(party.pp, party.c, r) && party.id > party.pp.t
    requires OwnShares(party.pp, r, party.id, party.rShrs, party.dShrs, party.dHighShrs)
    requires g < |party.c.gates| && party.c.gates[g].MultGate?
    ensures party.SilentShareOf(g) == FDShare(party.pp, party.c, r, party.id, g)
  {
    hide Blocks, Total, OwnShares, DealerShape, MaskShare, Mul, Sub, InputsListed, MultsListed, OutputsListed, Flatten;
    var leaves := PartyLeaves(party.pp, party.c, r, map[], party.id);
    forall q | q in leaves ensures leaves[q] == party.SilentLeaves()[q] { OwnParts(party, r, q); }
    assert leaves == party.SilentLeaves();
    OwnParts(party, r, g);
  }

  /** P1's queue after FDMultP1Receives is the queue of the run, when each last party's messages
      are those FDMultPartiesSendP1 puts into its queue to P1. */
  lemma QueueOfTheRun(pp: Parties, c: Circuit, r: DealerRandomness, start: seq<Vec>)
    requires Setup(pp, c, r) && |start| == pp.n && Long(start, pp.t + 1, pp.n, |Flatten(c.mults)|)
    requires forall i, l, p :: pp.t + 1 <= i < pp.n && 0 <= l < |c.mults| && 0 <= p < |c.mults[l]| ==>
               LastSent(pp, c, r, start[i], i, l, p)
    ensures Rounds(start, pp.t + 1, pp.n, |Flatten(c.mults)|) == FDQueue(pp, c, r)
  {
    hide WellFormed, FDShare, DealerShape, Flatten, Offset;
    var a, b := Rounds(start, pp.t + 1, pp.n, |Flatten(c.mults)|), FDQueue(pp, c, r);
    forall x | 0 <= x < |a| ensures a[x] == b[x] {
      var l, p := PlaceOf(c.mults, x);
      FlattenAt(c.mults, l, p);
      forall q | 0 <= q < pp.n - (pp.t + 1) ensures a[x][q] == b[x][q] {
        assert LastSent(pp, c, r, start[pp.t + 1 + q], pp.t + 1 + q, l, p);
      }
    }
  }

  /** The message for gate p of layer l is at its place in what party i sent. */
  predicate LastSent(pp: Parties, c: Circuit, r: DealerRandomness, queue: Vec, i: nat, l: nat, p: nat)
    requires Setup(pp, c, r) && pp.t < i < pp.n && l < |c.mults| && p < |c.mults[l]|
  {
    Offset(c.mults, l) + p < |queue| && queue[Offset(c.mults, l) + p] == FDShare(pp, c, r, i, c.mults[l][p])
  }

  /** Online, an active party's message for a gate is its entry of what P1 assembles. */
  lemma ActivePart(party: PartyDN07, r: DealerRandomness, active: map<nat, Vec>, g: nat, last: Vec)
    requires party.Ready() && Setup(party.pp, party.c, r) && party.id <= party.pp.t
    requires OwnShares(party.pp, r, party.id, party.rShrs, party.dShrs, party.dHighShrs)
    requires ActiveShape(party.pp, party.c, active) && |last| == party.pp.n - (party.pp.t + 1)
    requires g < |party.c.gates| && party.c.gates[g].MultGate? && OperandsKnown(party.c, active.Keys, g)
    ensures party.ActiveShareOf(PartyLeaves(party.pp, party.c, r, active, party.id), g)
         == Assembled(party.pp, party.c, r, active, g, last)[party.id]
  {
    hide Blocks, Total, OwnShares, DealerShape, Mul, Sub, InputsListed, MultsListed, OutputsListed, Flatten;
    OwnParts(party, r, g);
  }

  /** What P1 returns to party j for what it assembled, unmasked with party j's share, is that party's
      new share. */
  lemma NewSharePart(p1: PartyDN07, r: DealerRandomness, active: map<nat, Vec>, g: nat, recv: Vec, last: Vec, j: nat)
    requires p1.Ready() && Setup(p1.pp, p1.c, r) && j <= p1.pp.t
    requires ActiveShape(p1.pp, p1.c, active) && |last| == p1.pp.n - (p1.pp.t + 1)
    requires g < |p1.c.gates| && p1.c.gates[g].MultGate? && OperandsKnown(p1.c, active.Keys, g)
    requires recv == Assembled(p1.pp, p1.c, r, active, g, last)[..p1.pp.t + 1]
    ensures Add(p1.Opened(recv, last)[j], LowVec(p1.pp, p1.c, r, g)[j]) == MultShares(p1.pp, p1.c, r, active, g, last)[j]
  {
    hide DealerShape, Add, WellFormed, ReconstructAt, ZeroEndShares, LowVec, OperandsKnown, WireShare;
    assert recv + last == Assembled(p1.pp, p1.c, r, active, g, last);
  }

  /** The same for an input: what its owner sends party j, plus that party's share of the mask. */
  lemma InputPart(owner: PartyDN07, r: DealerRandomness, x: map<nat, Elem>, g: nat, j: nat)
    requires owner.Ready() && Setup(owner.pp, owner.c, r) && HasInputs(owner.c, x) && j <= owner.pp.t
    requires g < |owner.c.gates| && owner.c.gates[g].InputGate?
    ensures Add(owner.InputMsg(x[g], RandVec(owner.pp, owner.c, r, g)[..owner.pp.t + 1])[j], RandVec(owner.pp, owner.c, r, g)[j])
         == InputShares(owner.pp, owner.c, r, x, g)[j]
  {
    hide DealerShape, Add, WellFormed, ReconstructAt, ZeroEndShares, RandVec;
  }

  // ---- Queues of several parties, read and written in rounds ----

  /** The x-th message of the parties first, ..., last - 1. */
  function HeadsOf(start: seq<Vec>, first: nat, last: nat, x: nat): (v: Vec)
    requires first <= last <= |start| && forall i :: first <= i < last ==> x < |start[i]|
    ensures |v| == last - first
  {
    seq(last - first, i requires 0 <= i < last - first => start[first + i][x])
  }

  /** Each of these queues has at least x messages. */
  predicate Long(start: seq<Vec>, first: nat, last: nat, x: nat) {
    first <= last <= |start| && forall i :: first <= i < last ==> x <= |start[i]|
  }

  /** x messages have been taken from each of these queues, and none from the others. */
  predicate Dropped(start: seq<Vec>, now: seq<Vec>, first: nat, last: nat, x: nat) {
    && |now| == |start| && Long(start, first, last, x)
    && forall i :: 0 <= i < |start| ==> now[i] == if first <= i < last then start[i][x..] else start[i]
  }

  lemma DroppedNone(start: seq<Vec>, first: nat, last: nat)
    requires first <= last <= |start|
    ensures Dropped(start, start, first, last, 0)
  {
  }

  lemma LongShorter(start: seq<Vec>, first: nat, last: nat, x: nat, y: nat)
    requires Long(start, first, last, x) && y <= x
    ensures Long(start, first, last, y)
  {
  }

  /** The first x rounds of messages. */
  function Rounds(start: seq<Vec>, first: nat, last: nat, x: nat): (rows: seq<Vec>)
    requires Long(start, first, last, x)
    ensures |rows| == x
  {
    seq(x, q requires 0 <= q < x => HeadsOf(start, first, last, q))
  }

  lemma NoRounds(start: seq<Vec>, first: nat, last: nat)
    requires first <= last <= |start|
    ensures Dropped(start, start, first, last, 0) && Long(start, first, last, 0) && Rounds(start, first, last, 0) == []
  {
  }

  lemma OneRound(start: seq<Vec>, first: nat, last: nat, x: nat)
    requires Long(start, first, last, x + 1)
    ensures Long(start, first, last, x) && Rounds(start, first, last, x + 1) == Rounds(start, first, last, x) + [HeadsOf(start, first, last, x)]
  {
  }

  /** One row has been sent to as many parties as it has entries. */
  predicate Appended(before: seq<Vec>, after: seq<Vec>, row: Vec) {
    |after| == |before| && |row| <= |before|
    && forall j :: 0 <= j < |before| ==> after[j] == if j < |row| then before[j] + [row[j]] else before[j]
  }

  lemma SplitAt(q: seq<Vec>, p: nat)
    requires p < |q|
    ensures q[p..] != [] && q[p..][0] == q[p] && q[p..][1..] == q[p + 1..] && q[..p + 1] == q[..p] + [q[p]]
  {
  }

  /** Entry j of each row. */
  function Entries(rows: seq<Vec>, j: nat): (v: Vec)
    requires forall p :: 0 <= p < |rows| ==> j < |rows[p]|
    ensures |v| == |rows|
  {
    seq(|rows|, p requires 0 <= p < |rows| => rows[p][j])
  }

  /** The rows have been sent, one after the other, to the first m parties. */
  predicate SentRows(before: seq<Vec>, after: seq<Vec>, rows: seq<Vec>, m: nat) {
    && |after| == |before| && m <= |before| && (forall p :: 0 <= p < |rows| ==> |rows[p]| == m)
    && forall j :: 0 <= j < |before| ==> after[j] == if j < m then before[j] + Entries(rows, j) else before[j]
  }

  lemma SentNoRows(before: seq<Vec>, m: nat)
    requires m <= |before|
    ensures SentRows(before, before, [], m)
  {
  }

  lemma SentRow(before: seq<Vec>, was: seq<Vec>, now: seq<Vec>, rows: seq<Vec>, m: nat, row: Vec)
    requires SentRows(before, was, rows, m) && Appended(was, now, row) && |row| == m
    ensures SentRows(before, now, rows + [row], m)
  {
    forall j | 0 <= j < m ensures now[j] == before[j] + Entries(rows + [row], j) {
      assert Entries(rows + [row], j) == Entries(rows, j) + [row[j]];
    }
  }

  lemma MultGates(c: Circuit, l: nat)
    requires WellFormed(c) && l < |c.mults|
    ensures forall p :: 0 <= p < |c.mults[l]| ==> c.mults[l][p] < |c.gates| && c.gates[c.mults[l][p]].MultGate?
  {
    hide Topological, OutputsListed, InputsListed;
  }

  /** Inputs and the gates of the first l layers. */
  function DoneLayers(c: Circuit, l: nat): set<nat>
    requires l <= |c.mults|
  {
    InputIds(c) + Elements(Flatten(c.mults)[..Offset(c.mults, l)])
  }

  lemma NothingDone(c: Circuit)
    ensures |c.mults| >= 0 && DoneLayers(c, 0) == InputIds(c)
  {
    PartyPrep.OffsetZero(c.mults);
  }

  lemma NoneOfLayer(c: Circuit, l: nat)
    requires l < |c.mults|
    ensures DoneLayers(c, l) + Elements(c.mults[l][..0]) == DoneLayers(c, l)
  {
  }

  lemma OneGateMore(c: Circuit, l: nat, p: nat)
    requires l < |c.mults| && p < |c.mults[l]|
    ensures DoneLayers(c, l) + Elements(c.mults[l][..p]) + {c.mults[l][p]} == DoneBefore(c, l, p)
    ensures DoneLayers(c, l) + Elements(c.mults[l][..p + 1]) == DoneBefore(c, l, p)
  {
    hide Flatten;
    assert c.mults[l][..p + 1] == c.mults[l][..p] + [c.mults[l][p]];
  }

  lemma LayerDone(c: Circuit, l: nat)
    requires l < |c.mults|
    ensures DoneLayers(c, l) + Elements(c.mults[l][..|c.mults[l]|]) == DoneLayers(c, l + 1)
  {
    hide Offset;
    OffsetStep(c.mults, l);
    var a, b := Flatten(c.mults)[..Offset(c.mults, l)], Flatten(c.mults)[..Offset(c.mults, l + 1)];
    forall p | 0 <= p < |c.mults[l]| ensures b[Offset(c.mults, l) + p] == c.mults[l][p] { FlattenAt(c.mults, l, p); }
    assert b == a + c.mults[l];
    assert c.mults[l][..|c.mults[l]|] == c.mults[l];
  }

  lemma TotalOffset(ss: seq<seq<nat>>)
    ensures Offset(ss, |ss|) == |Flatten(ss)|
  {
    assert ss[..|ss|] == ss;
  }
}
