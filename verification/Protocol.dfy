/** The whole of TurboPack, run by one object per party: networks, correlators, both preprocessing
    phases and the online phase, from the dealers' randomness and the owners' inputs to the outputs. */
module Protocol {
  import opened Field
  import opened FIPrep
  import opened Triples
  import opened Circuits
  import opened Mapping
  import opened TurboPack
  import opened Online
  import opened Network
  import opened Wrappers
  import Correlator
  import PartyPrep
  import PartyOffline
  import Parties
  import PartiesFI
  import PartiesOnline

  method MakeCorrelators(nets: seq<Net>, pp: Params, sz: Sizes, ghost r: Randomness) returns (qs: seq<Correlator.Correlator>)
    requires pp.Valid() && RandomnessShape(pp, sz, r) && |nets| == pp.n && Connected(nets)
    ensures fresh(qs) && PartiesFI.AllCorrelators(qs, nets, pp, sz, r) && forall i :: 0 <= i < pp.n ==> PartiesFI.Fresh(qs[i])
  {
    hide RandomnessShape;
    qs := [];
    for i := 0 to pp.n
      invariant |qs| == i && fresh(qs) && forall e :: 0 <= e < i ==> PartiesFI.Fresh(qs[e])
      invariant forall e :: 0 <= e < i ==> qs[e].pp == pp && qs[e].sz == sz && qs[e].id == e && qs[e].net == nets[e]
    {
      var q := new Correlator.Correlator(pp, sz, i, nets[i]);
      qs := qs + [q];
    }
  }

  /** The correlators with what they generated, ready to be mapped to the circuit. */
  method MakeParties(qs: seq<Correlator.Correlator>, nets: seq<Net>, pp: Params, c: Circuit, ghost r: Randomness) returns (ps: seq<PartyPrep.PartyPrep>)
    requires Setup(pp, c, r) && PartiesFI.AllCorrelators(qs, nets, pp, CircuitSizes(c, pp.k), r) && Connected(nets)
    requires forall i :: 0 <= i < pp.n ==> PartiesFI.Generated(qs[i], r)
    ensures fresh(ps) && Parties.Together(ps, nets, pp, c, r) && forall i :: 0 <= i < pp.n ==> Parties.Unmapped(ps[i])
  {
    hide RandomnessShape, WellFormed, HeldBy, PrepBy, CircuitSizes, Parties.IsParty;
    ps := [];
    for i := 0 to pp.n
      invariant |ps| == i && fresh(ps)
      invariant forall e :: 0 <= e < i ==> Parties.IsParty(ps[e], nets[e], pp, c, r, e) && Parties.Unmapped(ps[e])
    {
      var p := MakeParty(qs[i], nets[i], pp, c, r, i);
      ps := ps + [p];
    }
  }

  method MakeParty(q: Correlator.Correlator, net: Net, pp: Params, c: Circuit, ghost r: Randomness, i: nat) returns (p: PartyPrep.PartyPrep)
    requires Setup(pp, c, r) && i < pp.n && net.n == pp.n && q.pp == pp && q.sz == CircuitSizes(c, pp.k) && q.id == i && PartiesFI.Generated(q, r)
    ensures fresh(p) && Parties.IsParty(p, net, pp, c, r, i) && Parties.Unmapped(p)
  {
    hide RandomnessShape, WellFormed, HeldBy, PrepBy, CircuitSizes;
    p := new PartyPrep.PartyPrep(pp, c, i, net, q.indShrs, q.multPrep, q.ioPrep);
  }

  /** TurboPack, end to end. For all circuits, parameters, inputs and randomness of all dealers, n parties
      that start from nothing but these run through all phases; an exception ends the run exactly when
      the circuit is not well layered, and otherwise every owner ends with the values of its output
      wires as they are read, which are those of the cleartext evaluation unless the mapping misses
      something that is read. */
  method Run(pp: Params, c: Circuit, r: Randomness, ghost x: map<nat, Elem>, values: seq<map<nat, Elem>>) returns (res: Option<seq<seq<Elem>>>)
    requires Setup(pp, c, r) && Parties.ClientsFit(pp, c) && HasInputs(c, x) && |values| == pp.n
    requires forall o, p :: 0 <= o < |c.inputs| && 0 <= p < |c.inputs[o]| ==> PartiesOnline.OwnValue(c, x, values[o], o, p)
    ensures res.Some? <==> WellLayered(c)
    ensures res.Some? ==> |res.value| == pp.n && forall o :: 0 <= o < |c.outputs| ==> |res.value[o]| == |c.outputs[o]|
    ensures res.Some? ==> forall o, p :: 0 <= o < |c.outputs| && 0 <= p < |c.outputs[o]| ==> Obtains(pp, c, r, x, o, p, res.value[o][p])
  {
    hide RandomnessShape, WellFormed, HasInputs, WellLayered, Obtains, PartiesFI.Fresh, PartiesFI.Generated, Parties.Together, Idle, CircuitSizes;
    var nets := MakeNets(pp.n);
    var sz := CircuitSizes(c, pp.k);
    var qs := MakeCorrelators(nets, pp, sz, r);
    PartiesFI.RunFIPhase(qs, nets, pp, sz, r);
    var ps := MakeParties(qs, nets, pp, c, r);
    res := PartiesOnline.RunTurboPack(ps, nets, pp, c, r, x, values);
  }
}
