/** The programs of Interleaving and the objects of PartiesOnline agree: on every channel the programs
    send, phase by phase and in the same order, the values that the objects put into their queues. */
module SameMessages {
  import opened Field
  import opened Packed
  import opened FIPrep
  import opened Batch
  import opened Circuits
  import opened TurboPack
  import opened Online
  import opened Wrappers
  import opened Schedule
  import opened Interleaving
  import PartyCircuit
  import PartyPrep
  import PartiesOnline

  /** The values a list of messages stands for. */
  ghost function Meaning(pp: Params, c: Circuit, r: Randomness, x: map<nat, Elem>, msgs: seq<Msg>): (v: Vec)
    requires Session(pp, c, r, x)
    ensures |v| == |msgs|
  {
    seq(|msgs|, q requires 0 <= q < |msgs| => ValueOf(pp, c, r, x, msgs[q]))
  }

  /** An owner's inputs. */
  lemma SameInputs(pp: Params, c: Circuit, r: Randomness, x: map<nat, Elem>, values: seq<map<nat, Elem>>, lambdas: seq<map<nat, Elem>>, o: nat)
    requires Session(pp, c, r, x) && PartiesOnline.OwnersKnow(pp, c, r, x, values, lambdas) && o < pp.n
    ensures Meaning(pp, c, r, x, InMsgs(c, o)) == PartyCircuit.InputMsgs(c, values[o], lambdas[o], o)
  {
    hide RandomnessShape, InputMask, InputMu, Topological, MultsListed, OutputsListed, WellLayered, PartiesOnline.KnowsOutput;
    SessionParts(pp, c, r, x);
    if o < |c.inputs| {
      forall q | 0 <= q < |c.inputs[o]|
        ensures Meaning(pp, c, r, x, InMsgs(c, o))[q] == PartyCircuit.InputMsgs(c, values[o], lambdas[o], o)[q]
      {
        assert PartiesOnline.KnowsInput(pp, c, r, x, values[o], lambdas[o], o, q);
        PartyCircuit.InputMsgIsMu(pp, c, r, x, lambdas[o], o, q);
      }
    }
  }

  /** Position of the two messages of a batch. */
  lemma {:induction false} MuMsgsAt(l: nat, batches: nat, i: nat, b: nat)
    requires b < batches
    ensures |MuMsgs(l, batches, i)| == 2 * batches && MuMsgs(l, batches, i)[2 * b] == MuA(l, b, i) && MuMsgs(l, batches, i)[2 * b + 1] == MuB(l, b, i)
  {
    if b < batches - 1 { MuMsgsAt(l, batches - 1, i, b); } else { MuMsgsLength(l, batches - 1, i); }
  }

  lemma {:induction false} MuMsgsLength(l: nat, batches: nat, i: nat)
    ensures |MuMsgs(l, batches, i)| == 2 * batches
  {
    if batches > 0 { MuMsgsLength(l, batches - 1, i); }
  }

  lemma {:induction false} ShareMsgsAt(l: nat, batches: nat, i: nat)
    ensures |ShareMsgs(l, batches, i)| == batches && forall b :: 0 <= b < batches ==> ShareMsgs(l, batches, i)[b] == Share(l, b, i)
  {
    if batches > 0 { ShareMsgsAt(l, batches - 1, i); }
  }

  lemma OperandValues(pp: Params, c: Circuit, r: Randomness, x: map<nat, Elem>, l: nat, queue: Vec, b: nat, j: nat)
    requires Session(pp, c, r, x) && pp.Valid() && WellFormed(c) && l < |c.mults| && j < pp.n && b < BatchCount(|c.mults[l]|, pp.k)
    requires PartiesOnline.OperandSent(pp, c, LearnedAt(pp, c, r, x, l), l, queue, b, j)
    ensures 2 * b + 1 < |queue| && ValueOf(pp, c, r, x, MuA(l, b, j)) == queue[2 * b] && ValueOf(pp, c, r, x, MuB(l, b, j)) == queue[2 * b + 1]
  {
    hide Session, WellFormed, LearnedAt, BatchCount, Reshare, Mus, LayerAvailable, AllAvailable;
  }

  /** P1's messages to party j in layer l. */
  lemma SameOperands(pp: Params, c: Circuit, r: Randomness, x: map<nat, Elem>, l: nat, sent: seq<Vec>, j: nat)
    requires Session(pp, c, r, x) && pp.Valid() && WellFormed(c) && l < |c.mults| && j < pp.n
    requires PartiesOnline.OperandsSent(pp, c, LearnedAt(pp, c, r, x, l), l, sent)
    ensures Meaning(pp, c, r, x, MuMsgs(l, BatchCount(|c.mults[l]|, pp.k), j)) == sent[j]
  {
    hide Session, WellFormed, LearnedAt, BatchCount, MuMsgs, LayerAvailable, ValueOf, PartiesOnline.OperandSent;
    var n := BatchCount(|c.mults[l]|, pp.k);
    MuMsgsLength(l, n, j);
    forall b | 0 <= b < n
      ensures Meaning(pp, c, r, x, MuMsgs(l, n, j))[2 * b] == sent[j][2 * b] && Meaning(pp, c, r, x, MuMsgs(l, n, j))[2 * b + 1] == sent[j][2 * b + 1]
    {
      MuMsgsAt(l, n, j, b);
      OperandValues(pp, c, r, x, l, sent[j], b, j);
    }
    EvenAndOdd(Meaning(pp, c, r, x, MuMsgs(l, n, j)), sent[j], n);
  }

  lemma EvenAndOdd(a: Vec, b: Vec, n: nat)
    requires |a| == |b| == 2 * n && forall q :: 0 <= q < n ==> a[2 * q] == b[2 * q] && a[2 * q + 1] == b[2 * q + 1]
    ensures a == b
  {
    forall p | 0 <= p < |a| ensures a[p] == b[p] {
      assert p == 2 * (p / 2) || p == 2 * (p / 2) + 1;
    }
  }

  /** Party e's messages to P1 in layer l. */
  lemma SameShares(pp: Params, c: Circuit, r: Randomness, x: map<nat, Elem>, l: nat, queues: seq<Vec>, e: nat)
    requires Session(pp, c, r, x) && Setup(pp, c, r) && l < |c.mults| && e < pp.n
    requires PartiesOnline.CanLearn(pp, c, r, l, LearnedAt(pp, c, r, x, l), queues)
    ensures Meaning(pp, c, r, x, ShareMsgs(l, BatchCount(|c.mults[l]|, pp.k), e)) == queues[e]
  {
    hide RandomnessShape, InputsListed, MultsListed, OutputsListed, HasInputs, WellLayered, LearnedAt, BatchCount, ShareMsgs, OnlineShares, Mus, PrepFor;
    SessionParts(pp, c, r, x);
    var n := BatchCount(|c.mults[l]|, pp.k);
    ShareMsgsAt(l, n, e);
    forall b | 0 <= b < n ensures Meaning(pp, c, r, x, ShareMsgs(l, n, e))[b] == queues[e][b] {
      assert PartyCircuit.ShareFrom(pp, c, r, LearnedAt(pp, c, r, x, l), l, queues, b, e);
    }
  }

  /** P1's messages to an owner. */
  lemma SameOutputs(pp: Params, c: Circuit, r: Randomness, x: map<nat, Elem>, o: nat)
    requires Session(pp, c, r, x) && WellFormed(c)
    requires o < |c.outputs| ==> PartyCircuit.OutputsKnown(c, LearnedAt(pp, c, r, x, |c.mults|), o)
    ensures Meaning(pp, c, r, x, OutMsgs(c, o)) == PartiesOnline.OutputMsgs(c, LearnedAt(pp, c, r, x, |c.mults|), o)
  {
    hide Setup, InputsListed, MultsListed, Topological, HasInputs, WellLayered, LearnedAt, Spread, Known;
    SessionParts(pp, c, r, x);
  }
}
