/** The whole of DN07, run by one object per party: networks, the preparation of sharings, the early
    phase and the online phase, from the dealers' randomness and the owners' inputs to the outputs. */
module ProtocolDN07 {
  import opened Field
  import opened Packed
  import opened Combine
  import opened FIPrep
  import opened Circuits
  import opened DN07
  import opened Gates
  import opened Network
  import opened Wrappers
  import opened PrepDN07
  import opened PartyDN07
  import opened PartiesDN07
  import DN07Correct

  method MakePreps(nets: seq<Net>, pp: Parties, ghost c: Circuit, ghost r: DealerRandomness) returns (qs: seq<PrepDN07>)
    requires Setup(pp, c, r) && |nets| == pp.n && Connected(nets)
    ensures fresh(qs) && AllPreps(qs, nets, pp, c, r) && forall i :: 0 <= i < pp.n ==> PartiesDN07.Fresh(qs[i])
  {
    hide WellFormed, DealerShape, IsVandermonde;
    qs := [];
    for i := 0 to pp.n
      invariant |qs| == i && fresh(qs) && forall e :: 0 <= e < i ==> PartiesDN07.Fresh(qs[e])
      invariant forall e :: 0 <= e < i ==> qs[e].pp == pp && qs[e].id == e && qs[e].net == nets[e]
    {
      var q := new PrepDN07(pp, i, nets[i]);
      qs := qs + [q];
    }
  }

  /** The extracted shares are enough for the circuit. */
  lemma EnoughShares(pp: Parties, c: Circuit, r: DealerRandomness, id: nat, rShrs: Vec, dShrs: Vec, dHighShrs: Vec)
    requires Setup(pp, c, r) && OwnShares(pp, r, id, rShrs, dShrs, dHighShrs)
    ensures |rShrs| >= |Flatten(c.inputs)| && |dShrs| == |dHighShrs| >= |Flatten(c.mults)|
  {
    hide WellFormed, Flatten, RandDealt, LowDealt, HighDealt, Extract, Total, Blocks;
    BlocksCover(|Flatten(c.inputs)|, pp.t);
    BlocksCover(|Flatten(c.mults)|, pp.t);
  }

  method MakeParty(q: PrepDN07, net: Net, table: WireValues, pp: Parties, c: Circuit, ghost r: DealerRandomness, i: nat) returns (p: PartyDN07)
    requires Setup(pp, c, r) && i < pp.n && net.n == pp.n && table.c == c && |c.inputs| == |c.outputs| == pp.n
    requires OwnShares(pp, r, i, q.rShrs, q.dShrs, q.dHighShrs) && table.Valid() && table.leaf == map[]
    ensures fresh(p) && IsParty(p, net, table, pp, c, r, i) && p.Ready() && Begins(p)
  {
    hide WellFormed, DealerShape, OwnShares, Flatten;
    EnoughShares(pp, c, r, i, q.rShrs, q.dShrs, q.dHighShrs);
    p := new PartyDN07(pp, c, i, net, table, q.rShrs, q.dShrs, q.dHighShrs);
  }

  /** The parties with what they extracted, each with its own table. */
  method MakeParties(qs: seq<PrepDN07>, nets: seq<Net>, pp: Parties, c: Circuit, ghost r: DealerRandomness) returns (ps: seq<PartyDN07>, tables: seq<WireValues>)
    requires Setup(pp, c, r) && |qs| == |nets| == |c.inputs| == |c.outputs| == pp.n && forall i :: 0 <= i < pp.n ==> nets[i].n == pp.n
    requires forall i :: 0 <= i < pp.n ==> OwnShares(pp, r, i, qs[i].rShrs, qs[i].dShrs, qs[i].dHighShrs)
    ensures fresh(ps) && fresh(tables) && Together(ps, nets, tables, pp, c, r)
    ensures forall i :: 0 <= i < pp.n ==> ps[i].Ready() && Begins(ps[i])
  {
    hide InputsListed, MultsListed, OutputsListed, DealerShape, OwnShares, IsParty, PartyDN07.Ready;
    ps, tables := [], [];
    for i := 0 to pp.n
      invariant |ps| == |tables| == i && fresh(ps) && fresh(tables)
      invariant forall e, d :: 0 <= e < d < i ==> tables[e] != tables[d]
      invariant forall e :: 0 <= e < i ==> IsParty(ps[e], nets[e], tables[e], pp, c, r, e) && ps[e].Ready() && Begins(ps[e])
    {
      var table := new WireValues(c);
      var p := MakeParty(qs[i], nets[i], table, pp, c, r, i);
      ps, tables := ps + [p], tables + [table];
    }
  }

  /** GetOutput for all of an owner's output gates. */
  method GetOutputs(p: PartyDN07, ghost r: DealerRandomness, ghost x: map<nat, Elem>) returns (outputs: Vec)
    requires Setup(p.pp, p.c, r) && HasInputs(p.c, x) && HasResults(p.pp, p.c, r, x, p.id, p.results)
    ensures |outputs| == |p.c.outputs[p.id]|
    ensures forall d :: 0 <= d < |outputs| ==> RunProtocol(p.pp, p.c, r, x, p.id, d) == Some(outputs[d])
  {
    hide WellFormed, DealerShape, HasInputs, RunProtocol;
    outputs := [];
    for d := 0 to |p.c.outputs[p.id]|
      invariant |outputs| == d && forall q :: 0 <= q < d ==> RunProtocol(p.pp, p.c, r, x, p.id, q) == Some(outputs[q])
    {
      outputs := outputs + [p.results[p.c.outputs[p.id][d]]];
    }
  }

  method AllOutputs(ps: seq<PartyDN07>, ghost nets: seq<Net>, ghost tables: seq<WireValues>, pp: Parties, c: Circuit, ghost r: DealerRandomness, ghost x: map<nat, Elem>)
      returns (all: seq<Vec>)
    requires Together(ps, nets, tables, pp, c, r) && Setup(pp, c, r) && HasInputs(c, x) && |ps| == |c.outputs| == pp.n
    requires forall o :: 0 <= o < pp.n ==> HasResults(pp, c, r, x, o, ps[o].results)
    ensures |all| == pp.n && forall o :: 0 <= o < pp.n ==> |all[o]| == |c.outputs[o]|
    ensures forall o, p :: 0 <= o < pp.n && 0 <= p < |c.outputs[o]| ==> RunProtocol(pp, c, r, x, o, p) == Some(all[o][p])
  {
    hide Setup, HasInputs, Together, PartyDN07.Ready, RunProtocol, HasResults;
    PartyIs(ps, nets, tables, pp, c, r);
    all := [];
    for i := 0 to pp.n
      invariant |all| == i && forall o :: 0 <= o < i ==> |all[o]| == |c.outputs[o]|
      invariant forall o, p :: 0 <= o < i && 0 <= p < |c.outputs[o]| ==> RunProtocol(pp, c, r, x, o, p) == Some(all[o][p])
    {
      var mine := GetOutputs(ps[i], r, x);
      all := all + [mine];
    }
  }

  lemma ResultsClear(pp: Parties, c: Circuit, r: DealerRandomness, x: map<nat, Elem>, all: seq<Vec>)
    requires pp.Valid() && Setup(pp, c, r) && HasInputs(c, x) && WellLayered(c) && |all| == |c.outputs| == pp.n
    requires forall o :: 0 <= o < pp.n ==> |all[o]| == |c.outputs[o]|
    requires forall o, p :: 0 <= o < pp.n && 0 <= p < |c.outputs[o]| ==> RunProtocol(pp, c, r, x, o, p) == Some(all[o][p])
    ensures forall o, p :: 0 <= o < pp.n && 0 <= p < |c.outputs[o]| ==> all[o][p] == Clear(c, x, c.outputs[o][p])
  {
    hide InputsListed, MultsListed, Topological, DealerShape, HasInputs, WellLayered, RunProtocol, Clear;
    forall o, p | 0 <= o < pp.n && 0 <= p < |c.outputs[o]| ensures all[o][p] == Clear(c, x, c.outputs[o][p]) {
      DN07Correct.DN07IsCorrect(pp, c, r, x, o, p);
    }
  }

  /** DN07, end to end. For all circuits, inputs and randomness of all dealers and every n > 2t, n parties
      that start from nothing but these run through all phases; an exception ends the run exactly when
      the circuit is not well layered, and otherwise every owner ends with what the functions of the
      protocol give, which with n = 2t + 1 is the value of the cleartext evaluation. */
  method Run(pp: Parties, c: Circuit, r: DealerRandomness, ghost x: map<nat, Elem>, values: seq<Vec>) returns (res: Option<seq<Vec>>)
    requires Setup(pp, c, r) && |c.inputs| == |c.outputs| == pp.n && HasInputs(c, x) && OwnValues(c, x, values)
    ensures res.Some? <==> WellLayered(c)
    ensures res.Some? ==> |res.value| == pp.n && forall o :: 0 <= o < pp.n ==> |res.value[o]| == |c.outputs[o]|
    ensures res.Some? ==> forall o, p :: 0 <= o < pp.n && 0 <= p < |c.outputs[o]| ==> RunProtocol(pp, c, r, x, o, p) == Some(res.value[o][p])
    ensures res.Some? && pp.n == 2 * pp.t + 1 ==>
              forall o, p :: 0 <= o < pp.n && 0 <= p < |c.outputs[o]| ==> res.value[o][p] == Clear(c, x, c.outputs[o][p])
  {
    hide InputsListed, MultsListed, Topological, DealerShape, HasInputs, WellLayered, OwnValues, OwnShares, Together, Idle, PartiesDN07.Fresh, Begins,
      PartyDN07.Ready, RunProtocol, Clear, HasResults;
    var nets := MakeNets(pp.n);
    var qs := MakePreps(nets, pp, c, r);
    PrepPhase(qs, nets, pp, c, r);
    var ps, tables := MakeParties(qs, nets, pp, c, r);
    var ok := RunParties(ps, nets, tables, pp, c, r, x, values);
    if !ok { return None; }
    var all := AllOutputs(ps, nets, tables, pp, c, r, x);
    if pp.Valid() { ResultsClear(pp, c, r, x, all); }
    return Some(all);
  }
}
