/** The online phase as message-passing programs (online.cc, mult_gate.cc, input_gate.h,
    output_gate.h): every interleaving of the parties gives every owner what the run in lockstep gives it, the
    cleartext value wherever the mapping misses nothing that is read. */
module Interleaving {
  import opened Field
  import opened Packed
  import opened Combine
  import opened FIPrep
  import opened Triples
  import opened Batch
  import opened Circuits
  import opened Mapping
  import opened TurboPack
  import opened Online
  import opened Schedule
  import opened Wrappers

  /** What a message is for: an input's mu, a party's shares of the operand mu's of batch b of layer l,
      its share of the products' mu's, or the mu of an output. */
  datatype Msg =
    | InMu(id: nat)
    | MuA(l: nat, b: nat, j: nat)
    | MuB(l: nat, b: nat, j: nat)
    | Share(l: nat, b: nat, j: nat)
    | OutMu(id: nat)

  // ---- The programs ----

  function Sends(to: nat, msgs: seq<Msg>): (r: seq<Act<Msg>>)
    ensures |r| == |msgs|
  {
    seq(|msgs|, q requires 0 <= q < |msgs| => Snd(to, msgs[q]))
  }

  function Receives(from: nat, msgs: seq<Msg>): (r: seq<Act<Msg>>)
    ensures |r| == |msgs|
  {
    seq(|msgs|, q requires 0 <= q < |msgs| => Rcv(from, msgs[q]))
  }

  function InMsgs(c: Circuit, o: nat): seq<Msg> {
    if o < |c.inputs| then seq(|c.inputs[o]|, q requires 0 <= q < |c.inputs[o]| => InMu(c.inputs[o][q])) else []
  }

  function OutMsgs(c: Circuit, o: nat): seq<Msg> {
    if o < |c.outputs| then seq(|c.outputs[o]|, q requires 0 <= q < |c.outputs[o]| => OutMu(c.outputs[o][q])) else []
  }

  /** InputP1Receives, for the first m clients. */
  function InReceives(c: Circuit, m: nat): seq<Act<Msg>> {
    if m == 0 then [] else InReceives(c, m - 1) + Receives(m - 1, InMsgs(c, m - 1))
  }

  /** OutputP1SendsMu, for the first m clients. */
  function OutSends(c: Circuit, m: nat): seq<Act<Msg>> {
    if m == 0 then [] else OutSends(c, m - 1) + Sends(m - 1, OutMsgs(c, m - 1))
  }

  /** MultBatch::P1Sends for batch b, to the first m parties. */
  function MuSends(l: nat, b: nat, m: nat): seq<Act<Msg>> {
    if m == 0 then [] else MuSends(l, b, m - 1) + Sends(m - 1, [MuA(l, b, m - 1), MuB(l, b, m - 1)])
  }

  function LayerMuSends(l: nat, batches: nat, n: nat): seq<Act<Msg>> {
    if batches == 0 then [] else LayerMuSends(l, batches - 1, n) + MuSends(l, batches - 1, n)
  }

  /** What party i receives and sends in a layer. */
  function MuMsgs(l: nat, batches: nat, i: nat): seq<Msg> {
    if batches == 0 then [] else MuMsgs(l, batches - 1, i) + [MuA(l, batches - 1, i), MuB(l, batches - 1, i)]
  }

  function ShareMsgs(l: nat, batches: nat, i: nat): seq<Msg> {
    if batches == 0 then [] else ShareMsgs(l, batches - 1, i) + [Share(l, batches - 1, i)]
  }

  /** MultBatch::P1Receives for batch b, from the first m parties. */
  function ShareReceives(l: nat, b: nat, m: nat): seq<Act<Msg>> {
    if m == 0 then [] else ShareReceives(l, b, m - 1) + Receives(m - 1, [Share(l, b, m - 1)])
  }

  function LayerShareReceives(l: nat, batches: nat, n: nat): seq<Act<Msg>> {
    if batches == 0 then [] else LayerShareReceives(l, batches - 1, n) + ShareReceives(l, batches - 1, n)
  }

  function IfP1(i: nat, acts: seq<Act<Msg>>): seq<Act<Msg>> {
    if i == 0 then acts else []
  }

  /** RunMult of party i. */
  function LayerProg(n: nat, l: nat, batches: nat, i: nat): seq<Act<Msg>> {
    IfP1(i, LayerMuSends(l, batches, n)) + Receives(0, MuMsgs(l, batches, i))
    + Sends(0, ShareMsgs(l, batches, i)) + IfP1(i, LayerShareReceives(l, batches, n))
  }

  function LayerProgs(c: Circuit, k: nat, n: nat, i: nat, layers: nat): seq<Act<Msg>>
    requires k > 0 && layers <= |c.mults|
  {
    if layers == 0 then []
    else LayerProgs(c, k, n, i, layers - 1) + LayerProg(n, layers - 1, BatchCount(|c.mults[layers - 1]|, k), i)
  }

  function InputProg(c: Circuit, i: nat): seq<Act<Msg>> {
    Sends(0, InMsgs(c, i)) + IfP1(i, InReceives(c, |c.inputs|))
  }

  function OutputProg(c: Circuit, i: nat): seq<Act<Msg>> {
    IfP1(i, OutSends(c, |c.outputs|)) + Receives(0, OutMsgs(c, i))
  }

  /** RunProtocol of party i. */
  function Prog(c: Circuit, k: nat, n: nat, i: nat): seq<Act<Msg>>
    requires k > 0
  {
    InputProg(c, i) + LayerProgs(c, k, n, i, |c.mults|) + OutputProg(c, i)
  }

  // ---- Labels on channels ----

  lemma {:induction false} SendsOnChannel(to: nat, msgs: seq<Msg>, x: nat)
    ensures Sent(Sends(to, msgs), x) == if x == to then msgs else []
    ensures Got(Sends(to, msgs), x) == []
  {
    if msgs != [] {
      var m := |msgs| - 1;
      SendsOnChannel(to, msgs[..m], x);
      assert Sends(to, msgs)[..m] == Sends(to, msgs[..m]);
      assert msgs == msgs[..m] + [msgs[m]];
    }
  }

  lemma {:induction false} ReceivesOnChannel(from: nat, msgs: seq<Msg>, x: nat)
    ensures Got(Receives(from, msgs), x) == if x == from then msgs else []
    ensures Sent(Receives(from, msgs), x) == []
  {
    if msgs != [] {
      var m := |msgs| - 1;
      ReceivesOnChannel(from, msgs[..m], x);
      assert Receives(from, msgs)[..m] == Receives(from, msgs[..m]);
      assert msgs == msgs[..m] + [msgs[m]];
    }
  }

  lemma Concats(a: seq<Act<Msg>>, b: seq<Act<Msg>>, x: nat)
    ensures Sent(a + b, x) == Sent(a, x) + Sent(b, x) && Got(a + b, x) == Got(a, x) + Got(b, x)
  {
    SentConcat(a, b, x);
    GotConcat(a, b, x);
  }

  lemma {:induction false} InReceivesOnChannel(c: Circuit, m: nat, x: nat)
    ensures Got(InReceives(c, m), x) == if x < m then InMsgs(c, x) else []
    ensures Sent(InReceives(c, m), x) == []
  {
    hide Sent, Got, InMsgs;
    NothingOnChannel(x);
    if m > 0 {
      InReceivesOnChannel(c, m - 1, x);
      ReceivesOnChannel(m - 1, InMsgs(c, m - 1), x);
      Concats(InReceives(c, m - 1), Receives(m - 1, InMsgs(c, m - 1)), x);
    }
  }

  lemma NothingOnChannel(x: nat)
    ensures Sent<Msg>([], x) == [] && Got<Msg>([], x) == []
  {
  }

  lemma {:induction false} OutSendsOnChannel(c: Circuit, m: nat, x: nat)
    ensures Sent(OutSends(c, m), x) == if x < m then OutMsgs(c, x) else []
    ensures Got(OutSends(c, m), x) == []
  {
    hide Sent, Got, OutMsgs;
    NothingOnChannel(x);
    if m > 0 {
      OutSendsOnChannel(c, m - 1, x);
      SendsOnChannel(m - 1, OutMsgs(c, m - 1), x);
      Concats(OutSends(c, m - 1), Sends(m - 1, OutMsgs(c, m - 1)), x);
    }
  }

  lemma {:induction false} MuSendsOnChannel(l: nat, b: nat, m: nat, x: nat)
    ensures Sent(MuSends(l, b, m), x) == if x < m then [MuA(l, b, x), MuB(l, b, x)] else []
    ensures Got(MuSends(l, b, m), x) == []
  {
    hide Sent, Got;
    NothingOnChannel(x);
    if m > 0 {
      MuSendsOnChannel(l, b, m - 1, x);
      var msgs := [MuA(l, b, m - 1), MuB(l, b, m - 1)];
      SendsOnChannel(m - 1, msgs, x);
      Concats(MuSends(l, b, m - 1), Sends(m - 1, msgs), x);
    }
  }

  lemma {:induction false} LayerMuSendsOnChannel(l: nat, batches: nat, n: nat, x: nat)
    requires x < n
    ensures Sent(LayerMuSends(l, batches, n), x) == MuMsgs(l, batches, x)
    ensures Got(LayerMuSends(l, batches, n), x) == []
  {
    hide Sent, Got;
    NothingOnChannel(x);
    if batches > 0 {
      LayerMuSendsOnChannel(l, batches - 1, n, x);
      MuSendsOnChannel(l, batches - 1, n, x);
      Concats(LayerMuSends(l, batches - 1, n), MuSends(l, batches - 1, n), x);
    }
  }

  lemma {:induction false} ShareReceivesOnChannel(l: nat, b: nat, m: nat, x: nat)
    ensures Got(ShareReceives(l, b, m), x) == if x < m then [Share(l, b, x)] else []
    ensures Sent(ShareReceives(l, b, m), x) == []
  {
    hide Sent, Got;
    NothingOnChannel(x);
    if m > 0 {
      ShareReceivesOnChannel(l, b, m - 1, x);
      ReceivesOnChannel(m - 1, [Share(l, b, m - 1)], x);
      Concats(ShareReceives(l, b, m - 1), Receives(m - 1, [Share(l, b, m - 1)]), x);
    }
  }

  lemma {:induction false} LayerShareReceivesOnChannel(l: nat, batches: nat, n: nat, x: nat)
    requires x < n
    ensures Got(LayerShareReceives(l, batches, n), x) == ShareMsgs(l, batches, x)
    ensures Sent(LayerShareReceives(l, batches, n), x) == []
  {
    hide Sent, Got;
    NothingOnChannel(x);
    if batches > 0 {
      LayerShareReceivesOnChannel(l, batches - 1, n, x);
      ShareReceivesOnChannel(l, batches - 1, n, x);
      Concats(LayerShareReceives(l, batches - 1, n), ShareReceives(l, batches - 1, n), x);
    }
  }

  /** The messages of a layer on the channel from i to j. */
  function LayerMsgs(l: nat, batches: nat, i: nat, j: nat): seq<Msg> {
    (if i == 0 then MuMsgs(l, batches, j) else []) + (if j == 0 then ShareMsgs(l, batches, i) else [])
  }

  function LayersMsgs(c: Circuit, k: nat, i: nat, j: nat, layers: nat): seq<Msg>
    requires k > 0 && layers <= |c.mults|
  {
    if layers == 0 then []
    else LayersMsgs(c, k, i, j, layers - 1) + LayerMsgs(layers - 1, BatchCount(|c.mults[layers - 1]|, k), i, j)
  }

  /** All messages on the channel from i to j, in order. */
  function ChannelMsgs(c: Circuit, k: nat, i: nat, j: nat): seq<Msg>
    requires k > 0
  {
    (if j == 0 then InMsgs(c, i) else []) + LayersMsgs(c, k, i, j, |c.mults|) + (if i == 0 then OutMsgs(c, j) else [])
  }

  lemma LayerOnChannel(n: nat, l: nat, batches: nat, i: nat, j: nat)
    requires i < n && j < n
    ensures Sent(LayerProg(n, l, batches, i), j) == LayerMsgs(l, batches, i, j)
    ensures Got(LayerProg(n, l, batches, j), i) == LayerMsgs(l, batches, i, j)
  {
    hide Sent, Got, Sends, Receives, LayerMuSends, LayerShareReceives, MuMsgs, ShareMsgs;
    LayerPieces(n, l, batches, i, j);
    LayerPieces(n, l, batches, j, i);
  }

  lemma LayerPieces(n: nat, l: nat, batches: nat, i: nat, x: nat)
    requires i < n && x < n
    ensures Sent(LayerProg(n, l, batches, i), x) == (if i == 0 then MuMsgs(l, batches, x) else []) + (if x == 0 then ShareMsgs(l, batches, i) else [])
    ensures Got(LayerProg(n, l, batches, i), x) == (if x == 0 then MuMsgs(l, batches, i) else []) + (if i == 0 then ShareMsgs(l, batches, x) else [])
  {
    hide Sent, Got, Sends, Receives, LayerMuSends, LayerShareReceives, MuMsgs, ShareMsgs;
    var a, b := IfP1(i, LayerMuSends(l, batches, n)), Receives(0, MuMsgs(l, batches, i));
    var d, e := Sends(0, ShareMsgs(l, batches, i)), IfP1(i, LayerShareReceives(l, batches, n));
    NothingOnChannel(x);
    LayerMuSendsOnChannel(l, batches, n, x);
    ReceivesOnChannel(0, MuMsgs(l, batches, i), x);
    SendsOnChannel(0, ShareMsgs(l, batches, i), x);
    LayerShareReceivesOnChannel(l, batches, n, x);
    Concats(a, b, x);
    Concats(a + b, d, x);
    Concats(a + b + d, e, x);
  }

  lemma {:induction false} LayersOnChannel(c: Circuit, k: nat, n: nat, i: nat, j: nat, layers: nat)
    requires k > 0 && layers <= |c.mults| && i < n && j < n
    ensures Sent(LayerProgs(c, k, n, i, layers), j) == LayersMsgs(c, k, i, j, layers)
    ensures Got(LayerProgs(c, k, n, j, layers), i) == LayersMsgs(c, k, i, j, layers)
  {
    hide Sent, Got, LayerProg, LayerMsgs;
    NothingOnChannel(i);
    NothingOnChannel(j);
    if layers > 0 {
      var l := layers - 1;
      var batches := BatchCount(|c.mults[l]|, k);
      LayersOnChannel(c, k, n, i, j, l);
      LayerOnChannel(n, l, batches, i, j);
      Concats(LayerProgs(c, k, n, i, l), LayerProg(n, l, batches, i), j);
      Concats(LayerProgs(c, k, n, j, l), LayerProg(n, l, batches, j), i);
    }
  }

  /** Sender and receiver use every channel in the same order. */
  lemma ProgOnChannel(c: Circuit, k: nat, n: nat, i: nat, j: nat)
    requires k > 0 && i < n && j < n && |c.inputs| <= n && |c.outputs| <= n
    ensures Sent(Prog(c, k, n, i), j) == ChannelMsgs(c, k, i, j)
    ensures Got(Prog(c, k, n, j), i) == ChannelMsgs(c, k, i, j)
  {
    hide Sent, Got, LayerProgs, LayersMsgs, InputProg, OutputProg, InMsgs, OutMsgs;
    InputOnChannel(c, n, i, j);
    OutputOnChannel(c, n, i, j);
    LayersOnChannel(c, k, n, i, j, |c.mults|);
    Concats(InputProg(c, i), LayerProgs(c, k, n, i, |c.mults|), j);
    Concats(InputProg(c, i) + LayerProgs(c, k, n, i, |c.mults|), OutputProg(c, i), j);
    Concats(InputProg(c, j), LayerProgs(c, k, n, j, |c.mults|), i);
    Concats(InputProg(c, j) + LayerProgs(c, k, n, j, |c.mults|), OutputProg(c, j), i);
  }

  lemma InputOnChannel(c: Circuit, n: nat, i: nat, j: nat)
    requires i < n && j < n && |c.inputs| <= n
    ensures Sent(InputProg(c, i), j) == if j == 0 then InMsgs(c, i) else []
    ensures Got(InputProg(c, j), i) == if j == 0 then InMsgs(c, i) else []
  {
    hide Sent, Got, Sends, InReceives;
    NothingOnChannel(i);
    NothingOnChannel(j);
    SendsOnChannel(0, InMsgs(c, i), j);
    SendsOnChannel(0, InMsgs(c, j), i);
    InReceivesOnChannel(c, |c.inputs|, i);
    InReceivesOnChannel(c, |c.inputs|, j);
    Concats(Sends(0, InMsgs(c, i)), IfP1(i, InReceives(c, |c.inputs|)), j);
    Concats(Sends(0, InMsgs(c, j)), IfP1(j, InReceives(c, |c.inputs|)), i);
  }

  lemma OutputOnChannel(c: Circuit, n: nat, i: nat, j: nat)
    requires i < n && j < n && |c.outputs| <= n
    ensures Sent(OutputProg(c, i), j) == if i == 0 then OutMsgs(c, j) else []
    ensures Got(OutputProg(c, j), i) == if i == 0 then OutMsgs(c, j) else []
  {
    hide Sent, Got, Receives, OutSends;
    NothingOnChannel(i);
    NothingOnChannel(j);
    ReceivesOnChannel(0, OutMsgs(c, i), j);
    ReceivesOnChannel(0, OutMsgs(c, j), i);
    OutSendsOnChannel(c, |c.outputs|, i);
    OutSendsOnChannel(c, |c.outputs|, j);
    Concats(IfP1(i, OutSends(c, |c.outputs|)), Receives(0, OutMsgs(c, i)), j);
    Concats(IfP1(j, OutSends(c, |c.outputs|)), Receives(0, OutMsgs(c, j)), i);
  }

  // ---- Stages, and which party may do what ----

  function StageOf(depth: nat, m: Msg): nat {
    match m
    case InMu(_) => 0
    case MuA(l, _, _) => 2 * l + 1
    case MuB(l, _, _) => 2 * l + 1
    case Share(l, _, _) => 2 * l + 2
    case OutMu(_) => 2 * depth + 1
  }

  function Stages(c: Circuit): Msg -> nat {
    m => StageOf(|c.mults|, m)
  }

  /** The message names an existing gate, or a batch and party that exist. */
  predicate Exists(c: Circuit, k: nat, n: nat, m: Msg)
    requires k > 0
  {
    match m
    case InMu(id) => id < |c.gates| && c.gates[id].InputGate?
    case MuA(l, b, j) => l < |c.mults| && b < BatchCount(|c.mults[l]|, k) && j < n
    case MuB(l, b, j) => l < |c.mults| && b < BatchCount(|c.mults[l]|, k) && j < n
    case Share(l, b, j) => l < |c.mults| && b < BatchCount(|c.mults[l]|, k) && j < n
    case OutMu(id) => id < |c.gates|
  }

  /** Only the party that owns the data sends it. */
  predicate SenderOk(c: Circuit, k: nat, n: nat, i: nat, m: Msg)
    requires k > 0 && Exists(c, k, n, m)
  {
    match m
    case InMu(id) => c.gates[id].owner == i
    case MuA(_, _, _) => i == 0
    case MuB(_, _, _) => i == 0
    case Share(_, _, j) => j == i
    case OutMu(_) => i == 0
  }

  predicate ActOk(c: Circuit, k: nat, n: nat, i: nat, a: Act<Msg>)
    requires k > 0
  {
    match a
    case Snd(to, m) => to < n && Exists(c, k, n, m) && SenderOk(c, k, n, i, m)
    case Rcv(from, m) => from < n
  }

  /** A stretch of a program whose actions are permitted and lie in the ranks lo..hi, in order. */
  ghost predicate Piece(c: Circuit, k: nat, n: nat, i: nat, prog: seq<Act<Msg>>, lo: nat, hi: nat)
    requires k > 0
  {
    && (forall p :: 0 <= p < |prog| ==> ActOk(c, k, n, i, prog[p]) && lo <= Rank(Stages(c), prog[p]) <= hi)
    && Staged(prog, Stages(c))
  }

  lemma PieceConcat(c: Circuit, k: nat, n: nat, i: nat, a: seq<Act<Msg>>, b: seq<Act<Msg>>, lo: nat, mid: nat, mid': nat, hi: nat)
    requires k > 0 && lo <= mid <= mid' <= hi
    requires Piece(c, k, n, i, a, lo, mid) && Piece(c, k, n, i, b, mid', hi)
    ensures Piece(c, k, n, i, a + b, lo, hi)
  {
    hide ActOk, Rank;
    var s := a + b;
    forall p | 0 <= p < |s| ensures ActOk(c, k, n, i, s[p]) && lo <= Rank(Stages(c), s[p]) <= hi {
      if p < |a| { assert s[p] == a[p]; } else { assert s[p] == b[p - |a|]; }
    }
    forall p, q | 0 <= p <= q < |s| ensures Rank(Stages(c), s[p]) <= Rank(Stages(c), s[q]) {
      assert s[p] == (if p < |a| then a[p] else b[p - |a|]) && s[q] == if q < |a| then a[q] else b[q - |a|];
    }
  }

  lemma NoPiece(c: Circuit, k: nat, n: nat, i: nat, lo: nat, hi: nat)
    requires k > 0
    ensures Piece(c, k, n, i, [], lo, hi)
  {
  }

  lemma {:induction false} InReceivesPiece(c: Circuit, k: nat, n: nat, m: nat)
    requires k > 0 && m <= n
    ensures Piece(c, k, n, 0, InReceives(c, m), 1, 1)
  {
    if m > 0 {
      InReceivesPiece(c, k, n, m - 1);
      PieceConcat(c, k, n, 0, InReceives(c, m - 1), Receives(m - 1, InMsgs(c, m - 1)), 1, 1, 1, 1);
    }
  }

  lemma OwnerSendsPiece(c: Circuit, k: nat, n: nat, o: nat)
    requires k > 0 && o < n && WellFormed(c)
    ensures var r := 2 * (2 * |c.mults| + 1); Piece(c, k, n, 0, Sends(o, OutMsgs(c, o)), r, r)
  {
    hide Topological, InputsListed, MultsListed;
  }

  lemma {:induction false} OutSendsPiece(c: Circuit, k: nat, n: nat, m: nat)
    requires k > 0 && m <= n && WellFormed(c)
    ensures var r := 2 * (2 * |c.mults| + 1); Piece(c, k, n, 0, OutSends(c, m), r, r)
  {
    hide Piece, WellFormed;
    var r := 2 * (2 * |c.mults| + 1);
    NoPiece(c, k, n, 0, r, r);
    if m > 0 {
      OutSendsPiece(c, k, n, m - 1);
      OwnerSendsPiece(c, k, n, m - 1);
      PieceConcat(c, k, n, 0, OutSends(c, m - 1), Sends(m - 1, OutMsgs(c, m - 1)), r, r, r, r);
    }
  }

  lemma {:induction false} MuSendsPiece(c: Circuit, k: nat, n: nat, l: nat, b: nat, m: nat)
    requires k > 0 && m <= n && l < |c.mults| && b < BatchCount(|c.mults[l]|, k)
    ensures var r := 2 * (2 * l + 1); Piece(c, k, n, 0, MuSends(l, b, m), r, r)
  {
    hide BatchCount;
    if m > 0 {
      var r := 2 * (2 * l + 1);
      MuSendsPiece(c, k, n, l, b, m - 1);
      PieceConcat(c, k, n, 0, MuSends(l, b, m - 1), Sends(m - 1, [MuA(l, b, m - 1), MuB(l, b, m - 1)]), r, r, r, r);
    }
  }

  lemma {:induction false} LayerMuSendsPiece(c: Circuit, k: nat, n: nat, l: nat, batches: nat)
    requires k > 0 && l < |c.mults| && batches <= BatchCount(|c.mults[l]|, k)
    ensures var r := 2 * (2 * l + 1); Piece(c, k, n, 0, LayerMuSends(l, batches, n), r, r)
  {
    hide BatchCount, Piece;
    if batches == 0 {
      NoPiece(c, k, n, 0, 2 * (2 * l + 1), 2 * (2 * l + 1));
    } else {
      var r := 2 * (2 * l + 1);
      LayerMuSendsPiece(c, k, n, l, batches - 1);
      MuSendsPiece(c, k, n, l, batches - 1, n);
      PieceConcat(c, k, n, 0, LayerMuSends(l, batches - 1, n), MuSends(l, batches - 1, n), r, r, r, r);
    }
  }

  lemma {:induction false} ShareReceivesPiece(c: Circuit, k: nat, n: nat, l: nat, b: nat, m: nat)
    requires k > 0 && m <= n
    ensures var r := 2 * (2 * l + 2) + 1; Piece(c, k, n, 0, ShareReceives(l, b, m), r, r)
  {
    if m > 0 {
      var r := 2 * (2 * l + 2) + 1;
      ShareReceivesPiece(c, k, n, l, b, m - 1);
      PieceConcat(c, k, n, 0, ShareReceives(l, b, m - 1), Receives(m - 1, [Share(l, b, m - 1)]), r, r, r, r);
    }
  }

  lemma {:induction false} LayerShareReceivesPiece(c: Circuit, k: nat, n: nat, l: nat, batches: nat)
    requires k > 0
    ensures var r := 2 * (2 * l + 2) + 1; Piece(c, k, n, 0, LayerShareReceives(l, batches, n), r, r)
  {
    hide Piece;
    var r := 2 * (2 * l + 2) + 1;
    if batches == 0 {
      NoPiece(c, k, n, 0, r, r);
    } else {
      LayerShareReceivesPiece(c, k, n, l, batches - 1);
      ShareReceivesPiece(c, k, n, l, batches - 1, n);
      PieceConcat(c, k, n, 0, LayerShareReceives(l, batches - 1, n), ShareReceives(l, batches - 1, n), r, r, r, r);
    }
  }

  lemma {:induction false} MuMsgsAre(l: nat, batches: nat, i: nat)
    ensures |MuMsgs(l, batches, i)| == 2 * batches
    ensures forall q :: 0 <= q < 2 * batches ==>
              MuMsgs(l, batches, i)[q] == if q % 2 == 0 then MuA(l, q / 2, i) else MuB(l, q / 2, i)
  {
    if batches > 0 { MuMsgsAre(l, batches - 1, i); }
  }

  lemma {:induction false} ShareMsgsAre(l: nat, batches: nat, i: nat)
    ensures |ShareMsgs(l, batches, i)| == batches
    ensures forall b :: 0 <= b < batches ==> ShareMsgs(l, batches, i)[b] == Share(l, b, i)
  {
    if batches > 0 { ShareMsgsAre(l, batches - 1, i); }
  }

  lemma LayerPiece(c: Circuit, k: nat, n: nat, i: nat, l: nat)
    requires k > 0 && l < |c.mults| && i < n
    ensures var batches := BatchCount(|c.mults[l]|, k);
            Piece(c, k, n, i, LayerProg(n, l, batches, i), 2 * (2 * l + 1), 2 * (2 * l + 2) + 1)
  {
    hide BatchCount, Piece, LayerMuSends, LayerShareReceives;
    var batches := BatchCount(|c.mults[l]|, k);
    var r := 2 * (2 * l + 1);
    var a, b := IfP1(i, LayerMuSends(l, batches, n)), Receives(0, MuMsgs(l, batches, i));
    var d, e := Sends(0, ShareMsgs(l, batches, i)), IfP1(i, LayerShareReceives(l, batches, n));
    LayerMuSendsPiece(c, k, n, l, batches);
    LayerShareReceivesPiece(c, k, n, l, batches);
    NoPiece(c, k, n, i, r, r);
    NoPiece(c, k, n, i, r + 3, r + 3);
    MuReceivesPiece(c, k, n, i, l, batches);
    ShareSendsPiece(c, k, n, i, l, batches);
    PieceConcat(c, k, n, i, a, b, r, r, r + 1, r + 1);
    PieceConcat(c, k, n, i, a + b, d, r, r + 1, r + 2, r + 2);
    PieceConcat(c, k, n, i, a + b + d, e, r, r + 2, r + 3, r + 3);
  }

  lemma MuReceivesPiece(c: Circuit, k: nat, n: nat, i: nat, l: nat, batches: nat)
    requires k > 0 && i < n
    ensures var r := 2 * (2 * l + 1) + 1; Piece(c, k, n, i, Receives(0, MuMsgs(l, batches, i)), r, r)
  {
    MuMsgsAre(l, batches, i);
  }

  lemma ShareSendsPiece(c: Circuit, k: nat, n: nat, i: nat, l: nat, batches: nat)
    requires k > 0 && i < n && l < |c.mults| && batches <= BatchCount(|c.mults[l]|, k)
    ensures var r := 2 * (2 * l + 2); Piece(c, k, n, i, Sends(0, ShareMsgs(l, batches, i)), r, r)
  {
    hide BatchCount;
    ShareMsgsAre(l, batches, i);
  }

  lemma {:induction false} LayersPiece(c: Circuit, k: nat, n: nat, i: nat, layers: nat)
    requires k > 0 && layers <= |c.mults| && i < n
    ensures Piece(c, k, n, i, LayerProgs(c, k, n, i, layers), 2, 4 * layers + 1)
  {
    hide Piece, LayerProg, BatchCount;
    if layers == 0 {
      NoPiece(c, k, n, i, 2, 1);
    } else {
      var l := layers - 1;
      LayersPiece(c, k, n, i, l);
      LayerPiece(c, k, n, i, l);
      if l > 0 {
        PieceConcat(c, k, n, i, LayerProgs(c, k, n, i, l), LayerProg(n, l, BatchCount(|c.mults[l]|, k), i),
                    2, 4 * l + 1, 4 * l + 2, 4 * l + 5);
      } else {
        assert LayerProgs(c, k, n, i, 0) + LayerProg(n, l, BatchCount(|c.mults[l]|, k), i) == LayerProg(n, l, BatchCount(|c.mults[l]|, k), i);
      }
    }
  }

  /** Every party's program is staged, and every action is permitted. */
  lemma ProgPiece(c: Circuit, k: nat, n: nat, i: nat)
    requires k > 0 && i < n && WellFormed(c) && |c.inputs| <= n && |c.outputs| <= n
    ensures Piece(c, k, n, i, Prog(c, k, n, i), 0, 4 * |c.mults| + 3)
  {
    hide Piece, LayerProgs, InReceives, OutSends, Sends, Receives, BatchCount, WellFormed;
    var d := |c.mults|;
    InSendsPiece(c, k, n, i);
    InReceivesPiece(c, k, n, |c.inputs|);
    NoPiece(c, k, n, i, 1, 1);
    PieceConcat(c, k, n, i, Sends(0, InMsgs(c, i)), IfP1(i, InReceives(c, |c.inputs|)), 0, 0, 1, 1);
    LayersPiece(c, k, n, i, d);
    OutSendsPiece(c, k, n, |c.outputs|);
    NoPiece(c, k, n, i, 4 * d + 2, 4 * d + 2);
    OutReceivesPiece(c, k, n, i);
    PieceConcat(c, k, n, i, IfP1(i, OutSends(c, |c.outputs|)), Receives(0, OutMsgs(c, i)), 4 * d + 2, 4 * d + 2, 4 * d + 3, 4 * d + 3);
    if d > 0 {
      PieceConcat(c, k, n, i, InputProg(c, i), LayerProgs(c, k, n, i, d), 0, 1, 2, 4 * d + 1);
    } else {
      NoLayers(c, k, n, i);
      NoPiece(c, k, n, i, 2, 2);
      PieceConcat(c, k, n, i, InputProg(c, i), LayerProgs(c, k, n, i, d), 0, 1, 2, 2);
    }
    PieceConcat(c, k, n, i, InputProg(c, i) + LayerProgs(c, k, n, i, d), OutputProg(c, i), 0, if d > 0 then 4 * d + 1 else 2, 4 * d + 2, 4 * d + 3);
  }

  lemma NoLayers(c: Circuit, k: nat, n: nat, i: nat)
    requires k > 0
    ensures LayerProgs(c, k, n, i, 0) == []
  {
  }

  lemma InSendsPiece(c: Circuit, k: nat, n: nat, i: nat)
    requires k > 0 && i < n && WellFormed(c)
    ensures Piece(c, k, n, i, Sends(0, InMsgs(c, i)), 0, 0)
  {
    hide Topological, MultsListed, OutputsListed;
  }

  lemma OutReceivesPiece(c: Circuit, k: nat, n: nat, i: nat)
    requires k > 0 && i < n
    ensures var r := 4 * |c.mults| + 3; Piece(c, k, n, i, Receives(0, OutMsgs(c, i)), r, r)
  {
  }

  lemma PeersInRange(c: Circuit, k: nat, n: nat)
    requires k > 0 && WellFormed(c) && |c.inputs| <= n && |c.outputs| <= n
    ensures forall i, p :: 0 <= i < n && 0 <= p < |Prog(c, k, n, i)| ==>
              match Prog(c, k, n, i)[p] case Snd(to, _) => to < n case Rcv(from, _) => from < n
  {
    hide Prog, WellFormed, Rank, Staged;
    forall i | 0 <= i < n
      ensures forall p :: 0 <= p < |Prog(c, k, n, i)| ==> ActOk(c, k, n, i, Prog(c, k, n, i)[p])
    {
      ProgPiece(c, k, n, i);
    }
  }

  /** What was received at a lower rank has been received before. */
  lemma HeardBefore(prog: seq<Act<Msg>>, c: Circuit, p: nat, from: nat, m: Msg)
    requires Staged(prog, Stages(c)) && p < |prog| && prog[p].Snd?
    requires m in Got(prog, from) && StageOf(|c.mults|, m) < StageOf(|c.mults|, prog[p].msg)
    ensures m in Heard(prog[..p])
  {
    var q := GotAt(prog, from, m);
    assert Rank(Stages(c), prog[q]) < Rank(Stages(c), prog[p]);
    assert q < p;
    assert prog[..p][q] == prog[q];
  }

  lemma {:induction false} GotAt(prog: seq<Act<Msg>>, from: nat, m: Msg) returns (q: nat)
    requires m in Got(prog, from)
    ensures q < |prog| && prog[q] == Rcv(from, m)
  {
    var last := |prog| - 1;
    if prog[last] == Rcv(from, m) {
      q := last;
    } else {
      q := GotAt(prog[..last], from, m);
    }
  }

  // ---- What the messages mean ----

  /** A run of TurboPack that no exception ends: admissible parameters, and a well-layered circuit
      whose clients are among the parties. */
  ghost predicate Session(pp: Params, c: Circuit, r: Randomness, x: map<nat, Elem>) {
    Setup(pp, c, r) && HasInputs(c, x) && WellLayered(c) && |c.inputs| <= pp.n && |c.outputs| <= pp.n
  }

  /** The layers of a well-layered circuit all run. */
  lemma LayerRuns(pp: Params, c: Circuit, r: Randomness, x: map<nat, Elem>, layers: nat)
    requires Session(pp, c, r, x) && layers <= |c.mults|
    ensures RunLayers(pp, c, r, x, layers).Some?
    ensures layers < |c.mults| ==> LayerAvailable(c, pp.k, RunLayers(pp, c, r, x, layers).value, layers)
  {
    hide Setup, HasInputs, WellLayered, Learned, LayerAvailable, LayerReads, LearnInputs;
    SessionParts(pp, c, r, x);
    WellLayeredByLayers(c);
    LayersRunExactly(pp, c, r, x, layers);
    if layers < |c.mults| { LayersRunExactly(pp, c, r, x, layers + 1); }
  }

  /** What P1 has learned after the first layers, in lockstep. */
  function LearnedAt(pp: Params, c: Circuit, r: Randomness, x: map<nat, Elem>, layers: nat): (m: map<nat, Elem>)
    requires Session(pp, c, r, x) && layers <= |c.mults|
    ensures RunLayers(pp, c, r, x, layers) == Some(m)
    ensures layers < |c.mults| ==> LayerAvailable(c, pp.k, m, layers)
  {
    LayerRuns(pp, c, r, x, layers);
    RunLayers(pp, c, r, x, layers).value
  }

  /** The mu's P1 shares for batch b of layer l, for the left or the right operands. */
  function OperandMus(pp: Params, c: Circuit, r: Randomness, x: map<nat, Elem>, l: nat, b: nat, left: bool): (v: Vec)
    requires Session(pp, c, r, x) && l < |c.mults| && b < BatchCount(|c.mults[l]|, pp.k)
    ensures |v| == pp.k
  {
    var batch := TurboPack.MultBatch(c, pp.k, l, b);
    Mus(c, LearnedAt(pp, c, r, x, l), if left then Lefts(c, batch) else Rights(c, batch))
  }

  /** The value every message carries in the lockstep run. */
  function ValueOf(pp: Params, c: Circuit, r: Randomness, x: map<nat, Elem>, m: Msg): Elem
    requires Session(pp, c, r, x)
  {
    if !Exists(c, pp.k, pp.n, m) then 0
    else
      match m
      case InMu(id) => InputMu(pp, c, r, x, id)
      case MuA(l, b, j) => Reshare(pp, OperandMus(pp, c, r, x, l, b, true))[j]
      case MuB(l, b, j) => Reshare(pp, OperandMus(pp, c, r, x, l, b, false))[j]
      case Share(l, b, j) =>
        OnlineShares(pp, PrepFor(pp, c, r, l, b), OperandMus(pp, c, r, x, l, b, true), OperandMus(pp, c, r, x, l, b, false))[j]
      case OutMu(id) =>
        var m := LearnedAt(pp, c, r, x, |c.mults|);
        if Known(c, m.Keys, id) then Spread(c, m, id) else 0
  }

  // ---- What the parties compute from what they received ----

  function Lookup(local: Local<Msg>, m: Msg): Elem {
    if m in local then local[m] else 0
  }

  /** The leaves learned after `layers` layers. */
  function LearnedIds(c: Circuit, layers: nat): set<nat>
    requires |c.layerOf| == |c.gates|
  {
    set id | 0 <= id < |c.gates| && IsLeaf(c, id) && (c.gates[id].InputGate? || c.layerOf[id] < layers)
  }

  /** mLearned and mMu at P1: inputs as received, products reconstructed from the received shares. */
  function LearnedFrom(pp: Params, c: Circuit, local: Local<Msg>, layers: nat): (m: map<nat, Elem>)
    requires pp.Valid() && WellFormed(c)
    ensures m.Keys == LearnedIds(c, layers)
  {
    map id | id in LearnedIds(c, layers) :: if c.gates[id].InputGate? then Lookup(local, InMu(id)) else OpenedMu(pp, c, local, id)
  }

  function ReceivedShares(pp: Params, local: Local<Msg>, l: nat, b: nat): (s: Vec)
    ensures |s| == pp.n
  {
    seq(pp.n, j requires 0 <= j < pp.n => Lookup(local, Share(l, b, j)))
  }

  /** MultBatch::P1Receives: the mu of a multiplication gate. */
  function OpenedMu(pp: Params, c: Circuit, local: Local<Msg>, id: nat): Elem
    requires pp.Valid() && WellFormed(c) && id < |c.gates| && c.gates[id].MultGate?
  {
    var l := c.layerOf[id];
    var p := IndexOf(c.mults[l], id);
    GateInBatch(c.mults[l], pp.k, p);
    Reconstruct(ReceivedShares(pp, local, l, BatchIndex(p, pp.k)), pp.k)[SlotIndex(p, pp.k)]
  }

  /** GetMu of a slot from P1's knowledge (0 stands for the exception, which does not happen). */
  function MuFrom(pp: Params, c: Circuit, local: Local<Msg>, layers: nat, s: Slot): Elem
    requires pp.Valid() && WellFormed(c) && (s.Pad? || s.id < |c.gates|)
  {
    var mu := GetMu(c, LearnedFrom(pp, c, local, layers), s);
    if mu.Some? then mu.value else 0
  }

  function MusFrom(pp: Params, c: Circuit, local: Local<Msg>, l: nat, b: nat, left: bool): (v: Vec)
    requires pp.Valid() && WellFormed(c) && l < |c.mults|
    ensures |v| == pp.k
  {
    var batch := TurboPack.MultBatch(c, pp.k, l, b);
    var slots := if left then Lefts(c, batch) else Rights(c, batch);
    seq(pp.k, j requires 0 <= j < pp.k => MuFrom(pp, c, local, l, slots[j]))
  }

  /** What party i sends: from its own inputs and preprocessing and what it received. */
  function Computed(pp: Params, c: Circuit, r: Randomness, x: map<nat, Elem>, i: nat, m: Msg, local: Local<Msg>): Elem
    requires Session(pp, c, r, x)
  {
    if i >= pp.n || !Exists(c, pp.k, pp.n, m) then 0
    else
      match m
      case InMu(id) => InputMu(pp, c, r, x, id)
      case MuA(l, b, j) => Reshare(pp, MusFrom(pp, c, local, l, b, true))[j]
      case MuB(l, b, j) => Reshare(pp, MusFrom(pp, c, local, l, b, false))[j]
      case Share(l, b, _) => OnlineShare(PrepFor(pp, c, r, l, b)[i], Lookup(local, MuA(l, b, i)), Lookup(local, MuB(l, b, i)))
      case OutMu(id) => MuFrom(pp, c, local, |c.mults|, Wire(id))
  }

  ghost function Values(pp: Params, c: Circuit, r: Randomness, x: map<nat, Elem>): Msg -> Elem
    requires Session(pp, c, r, x)
  {
    m => ValueOf(pp, c, r, x, m)
  }

  function Payloads(pp: Params, c: Circuit, r: Randomness, x: map<nat, Elem>): (nat, Msg, Local<Msg>) -> Elem
    requires Session(pp, c, r, x)
  {
    (i: nat, m: Msg, local: Local<Msg>) => Computed(pp, c, r, x, i, m, local)
  }

  function OnlineSystem(pp: Params, c: Circuit, r: Randomness, x: map<nat, Elem>): (s: System<Msg>)
    requires Session(pp, c, r, x)
    ensures PeersExist(s)
  {
    PeersInRange(c, pp.k, pp.n);
    Schedule.System(seq(pp.n, i requires 0 <= i < pp.n => Prog(c, pp.k, pp.n, i)), Payloads(pp, c, r, x))
  }

  // ---- Coherence ----

  lemma LearnedStep(pp: Params, c: Circuit, r: Randomness, x: map<nat, Elem>, l: nat, id: nat)
    requires Session(pp, c, r, x) && l < |c.mults|
    ensures LearnedAt(pp, c, r, x, l + 1).Keys == LearnedAt(pp, c, r, x, l).Keys + LayerIds(c, l)
    ensures id in LayerIds(c, l) ==>
              LearnedAt(pp, c, r, x, l + 1)[id] == GateMu(pp, c, r, LearnedAt(pp, c, r, x, l), l, IndexOf(c.mults[l], id))
    ensures id in LearnedAt(pp, c, r, x, l) && id !in LayerIds(c, l) ==>
              LearnedAt(pp, c, r, x, l + 1)[id] == LearnedAt(pp, c, r, x, l)[id]
  {
    hide Setup, GateMu, LayerAvailable, WellLayered, HasInputs, RunLayer;
    SessionParts(pp, c, r, x);
    var m := LearnedAt(pp, c, r, x, l);
    assert RunLayer(pp, c, r, m, l) == Some(LearnedAt(pp, c, r, x, l + 1));
    RunLayerAdds(pp, c, r, m, l, id);
  }

  /** A layer that runs adds its gates and changes nothing else. */
  lemma RunLayerAdds(pp: Params, c: Circuit, r: Randomness, m: map<nat, Elem>, l: nat, id: nat)
    requires Setup(pp, c, r) && l < |c.mults| && LayerAvailable(c, pp.k, m, l)
    ensures var q := RunLayer(pp, c, r, m, l);
            q.Some? && q.value.Keys == m.Keys + LayerIds(c, l)
            && (id in LayerIds(c, l) ==> q.value[id] == GateMu(pp, c, r, m, l, IndexOf(c.mults[l], id)))
            && (id in m && id !in LayerIds(c, l) ==> q.value[id] == m[id])
  {
    hide Setup, GateMu, LayerAvailable;
  }

  lemma LearnedIdsStep(c: Circuit, l: nat)
    requires WellFormed(c) && l < |c.mults|
    ensures LearnedIds(c, l + 1) == LearnedIds(c, l) + LayerIds(c, l)
    ensures LearnedIds(c, l) !! LayerIds(c, l)
    ensures forall id :: id in LayerIds(c, l) ==> id < |c.gates| && c.gates[id].MultGate? && c.layerOf[id] == l
  {
    hide Topological, InputsListed, OutputsListed;
  }

  /** With all messages of the first layers received, P1 knows what it learns in lockstep. */
  lemma {:induction false} LearnedAgrees(pp: Params, c: Circuit, r: Randomness, x: map<nat, Elem>, heard: set<Msg>, layers: nat)
    requires Session(pp, c, r, x) && layers <= |c.mults|
    requires forall id :: 0 <= id < |c.gates| && c.gates[id].InputGate? ==> InMu(id) in heard
    requires forall l, b, j :: 0 <= l < layers && 0 <= b < BatchCount(|c.mults[l]|, pp.k) && 0 <= j < pp.n ==> Share(l, b, j) in heard
    ensures LearnedFrom(pp, c, Meant(heard, Values(pp, c, r, x)), layers) == LearnedAt(pp, c, r, x, layers)
  {
    hide Session, GateMu, LayerAvailable, BatchCount, OpenedMu, LearnedAt, WellFormed, IsLeaf, LayerIds, Values, LearnedIds;
    SessionParts(pp, c, r, x);
    WellFormedSizes(c);
    var local := Meant(heard, Values(pp, c, r, x));
    if layers == 0 {
      InputsAgree(pp, c, r, x, heard);
    } else {
      var l := layers - 1;
      LearnedAgrees(pp, c, r, x, heard, l);
      LearnedIdsStep(c, l);
      var before, after := LearnedFrom(pp, c, local, l), LearnedFrom(pp, c, local, layers);
      LearnedStep(pp, c, r, x, l, 0);
      forall id | id in LearnedIds(c, layers) ensures after[id] == LearnedAt(pp, c, r, x, layers)[id] {
        LearnedStep(pp, c, r, x, l, id);
        if id in LayerIds(c, l) {
          GateAgrees(pp, c, r, x, heard, id);
        } else {
          assert after[id] == before[id];
        }
      }
    }
  }

  lemma WellFormedSizes(c: Circuit)
    requires WellFormed(c)
    ensures |c.layerOf| == |c.gates|
  {
  }

  lemma InputsAgree(pp: Params, c: Circuit, r: Randomness, x: map<nat, Elem>, heard: set<Msg>)
    requires Session(pp, c, r, x)
    requires forall id :: 0 <= id < |c.gates| && c.gates[id].InputGate? ==> InMu(id) in heard
    ensures LearnedFrom(pp, c, Meant(heard, Values(pp, c, r, x)), 0) == LearnedAt(pp, c, r, x, 0)
  {
    hide Setup, InputMu, WellLayered, HasInputs, OpenedMu, LayerAvailable;
    SessionParts(pp, c, r, x);
    assert LearnedAt(pp, c, r, x, 0) == LearnInputs(pp, c, r, x);
    assert LearnedIds(c, 0) == InputIds(c);
  }

  lemma SessionParts(pp: Params, c: Circuit, r: Randomness, x: map<nat, Elem>)
    requires Session(pp, c, r, x)
    ensures Setup(pp, c, r) && pp.Valid() && WellFormed(c) && HasInputs(c, x) && WellLayered(c)
  {
  }

  lemma SharesAgree(pp: Params, c: Circuit, r: Randomness, x: map<nat, Elem>, heard: set<Msg>, l: nat, b: nat)
    requires Session(pp, c, r, x) && l < |c.mults| && b < BatchCount(|c.mults[l]|, pp.k)
    requires forall j :: 0 <= j < pp.n ==> Share(l, b, j) in heard
    ensures ReceivedShares(pp, Meant(heard, Values(pp, c, r, x)), l, b)
         == OnlineShares(pp, PrepFor(pp, c, r, l, b), OperandMus(pp, c, r, x, l, b, true), OperandMus(pp, c, r, x, l, b, false))
  {
    hide Setup, OnlineShares, PrepFor, BatchCount, WellLayered, OperandMus, Topological, InputsListed, MultsListed, OutputsListed, HasInputs;
    SessionParts(pp, c, r, x);
    var s := ReceivedShares(pp, Meant(heard, Values(pp, c, r, x)), l, b);
    var t := OnlineShares(pp, PrepFor(pp, c, r, l, b), OperandMus(pp, c, r, x, l, b, true), OperandMus(pp, c, r, x, l, b, false));
    forall j | 0 <= j < pp.n ensures s[j] == t[j] {
      assert Share(l, b, j) in heard;
    }
    assert s == t;
  }

  lemma GateAgrees(pp: Params, c: Circuit, r: Randomness, x: map<nat, Elem>, heard: set<Msg>, id: nat)
    requires Session(pp, c, r, x) && id < |c.gates| && c.gates[id].MultGate?
    requires forall b, j :: 0 <= b < BatchCount(|c.mults[c.layerOf[id]]|, pp.k) && 0 <= j < pp.n ==> Share(c.layerOf[id], b, j) in heard
    ensures var l := c.layerOf[id];
            OpenedMu(pp, c, Meant(heard, Values(pp, c, r, x)), id) == GateMu(pp, c, r, LearnedAt(pp, c, r, x, l), l, IndexOf(c.mults[l], id))
  {
    hide Session, Setup, LayerAvailable, OnlineShares, PrepFor, BatchCount, Topological, InputsListed, OutputsListed, LearnedAt, ReceivedShares,
      Mus, Lefts, Rights, Values, Reconstruct;
    SessionParts(pp, c, r, x);
    var l := c.layerOf[id];
    var p := IndexOf(c.mults[l], id);
    GateInBatch(c.mults[l], pp.k, p);
    SharesAgree(pp, c, r, x, heard, l, BatchIndex(p, pp.k));
  }

  // ---- Messages that have arrived in time ----

  lemma {:induction false} LayersContain(c: Circuit, k: nat, i: nat, j: nat, layers: nat, l: nat, m: Msg)
    requires k > 0 && l < layers <= |c.mults| && m in LayerMsgs(l, BatchCount(|c.mults[l]|, k), i, j)
    ensures m in LayersMsgs(c, k, i, j, layers)
  {
    if l < layers - 1 { LayersContain(c, k, i, j, layers - 1, l, m); }
  }

  lemma InputArrives(c: Circuit, k: nat, n: nat, id: nat)
    requires k > 0 && WellFormed(c) && |c.inputs| <= n && |c.outputs| <= n && 0 < n && id < |c.gates| && c.gates[id].InputGate?
    ensures c.gates[id].owner < n && InMu(id) in Got(Prog(c, k, n, 0), c.gates[id].owner)
  {
    hide Prog, Got, Topological, MultsListed, OutputsListed, LayersMsgs, OutMsgs;
    var o := c.gates[id].owner;
    ProgOnChannel(c, k, n, o, 0);
    var p := IndexOf(c.inputs[o], id);
    assert InMsgs(c, o)[p] == InMu(id);
  }

  lemma ShareArrives(c: Circuit, k: nat, n: nat, l: nat, b: nat, j: nat)
    requires k > 0 && |c.inputs| <= n && |c.outputs| <= n && l < |c.mults| && b < BatchCount(|c.mults[l]|, k) && j < n
    ensures Share(l, b, j) in Got(Prog(c, k, n, 0), j)
  {
    hide Prog, Got, LayersMsgs, OutMsgs, InMsgs, BatchCount;
    ProgOnChannel(c, k, n, j, 0);
    var batches := BatchCount(|c.mults[l]|, k);
    ShareMsgsAre(l, batches, j);
    assert ShareMsgs(l, batches, j)[b] == Share(l, b, j);
    LayersContain(c, k, j, 0, |c.mults|, l, Share(l, b, j));
  }

  lemma MuArrives(c: Circuit, k: nat, n: nat, l: nat, b: nat, j: nat)
    requires k > 0 && |c.inputs| <= n && |c.outputs| <= n && l < |c.mults| && b < BatchCount(|c.mults[l]|, k) && j < n
    ensures MuA(l, b, j) in Got(Prog(c, k, n, j), 0) && MuB(l, b, j) in Got(Prog(c, k, n, j), 0)
  {
    hide Prog, Got, LayersMsgs, OutMsgs, InMsgs, BatchCount;
    ProgOnChannel(c, k, n, 0, j);
    var batches := BatchCount(|c.mults[l]|, k);
    MuMsgsAre(l, batches, j);
    assert MuMsgs(l, batches, j)[2 * b] == MuA(l, b, j) && MuMsgs(l, batches, j)[2 * b + 1] == MuB(l, b, j);
    LayersContain(c, k, 0, j, |c.mults|, l, MuA(l, b, j));
    LayersContain(c, k, 0, j, |c.mults|, l, MuB(l, b, j));
  }

  /** When P1 sends something of a later stage, the inputs and the shares of the earlier layers are in. */
  lemma P1HasHeard(c: Circuit, k: nat, n: nat, p: nat, layers: nat)
    requires k > 0 && WellFormed(c) && |c.inputs| <= n && |c.outputs| <= n && 0 < n && layers <= |c.mults|
    requires p < |Prog(c, k, n, 0)| && Prog(c, k, n, 0)[p].Snd? && StageOf(|c.mults|, Prog(c, k, n, 0)[p].msg) >= 2 * layers + 1
    ensures var heard := Heard(Prog(c, k, n, 0)[..p]);
            (forall id :: 0 <= id < |c.gates| && c.gates[id].InputGate? ==> InMu(id) in heard) &&
            (forall l, b, j :: 0 <= l < layers && 0 <= b < BatchCount(|c.mults[l]|, k) && 0 <= j < n ==> Share(l, b, j) in heard)
  {
    hide Prog, Got, Heard, BatchCount, WellFormed;
    var prog := Prog(c, k, n, 0);
    ProgPiece(c, k, n, 0);
    forall id | 0 <= id < |c.gates| && c.gates[id].InputGate? ensures InMu(id) in Heard(prog[..p]) {
      InputArrives(c, k, n, id);
      HeardBefore(prog, c, p, c.gates[id].owner, InMu(id));
    }
    forall l, b, j | 0 <= l < layers && 0 <= b < BatchCount(|c.mults[l]|, k) && 0 <= j < n
      ensures Share(l, b, j) in Heard(prog[..p])
    {
      ShareArrives(c, k, n, l, b, j);
      HeardBefore(prog, c, p, j, Share(l, b, j));
    }
  }

  lemma MusAgree(pp: Params, c: Circuit, r: Randomness, x: map<nat, Elem>, heard: set<Msg>, l: nat, b: nat, left: bool)
    requires Session(pp, c, r, x) && l < |c.mults| && b < BatchCount(|c.mults[l]|, pp.k)
    requires forall id :: 0 <= id < |c.gates| && c.gates[id].InputGate? ==> InMu(id) in heard
    requires forall l', b', j :: 0 <= l' < l && 0 <= b' < BatchCount(|c.mults[l']|, pp.k) && 0 <= j < pp.n ==> Share(l', b', j) in heard
    ensures MusFrom(pp, c, Meant(heard, Values(pp, c, r, x)), l, b, left) == OperandMus(pp, c, r, x, l, b, left)
  {
    hide Setup, WellLayered, GetMu, LearnedFrom, Lefts, Rights, BatchAt, RunLayers;
    SessionParts(pp, c, r, x);
    LearnedAgrees(pp, c, r, x, heard, l);
    var m, local := LearnedAt(pp, c, r, x, l), Meant(heard, Values(pp, c, r, x));
    var batch := TurboPack.MultBatch(c, pp.k, l, b);
    var slots := if left then Lefts(c, batch) else Rights(c, batch);
    assert AllAvailable(c, m, slots);
    forall j | 0 <= j < pp.k ensures MuFrom(pp, c, local, l, slots[j]) == GetMu(c, m, slots[j]).value {
      assert GetMu(c, LearnedFrom(pp, c, local, l), slots[j]) == GetMu(c, m, slots[j]);
    }
    var mus := MusFrom(pp, c, local, l, b, left);
    assert forall j :: 0 <= j < pp.k ==> mus[j] == MuFrom(pp, c, local, l, slots[j]);
    assert mus == Mus(c, m, slots);
  }

  /** Every party sends what its messages mean, once it has received what its messages mean. */
  lemma SendsMeant(pp: Params, c: Circuit, r: Randomness, x: map<nat, Elem>, i: nat, p: nat)
    requires Session(pp, c, r, x) && i < pp.n
    requires p < |Prog(c, pp.k, pp.n, i)| && Prog(c, pp.k, pp.n, i)[p].Snd?
    ensures var prog := Prog(c, pp.k, pp.n, i);
            Computed(pp, c, r, x, i, prog[p].msg, Meant(Heard(prog[..p]), Values(pp, c, r, x))) == ValueOf(pp, c, r, x, prog[p].msg)
  {
    hide Session, Prog, Got, Heard, BatchCount, WellFormed, MusFrom, OperandMus, PrepFor, InputMu, LearnedAt, LearnedFrom, Known, Spread, Reshare;
    SessionParts(pp, c, r, x);
    SessionSizes(pp, c, r, x);
    var n, prog := pp.n, Prog(c, pp.k, pp.n, i);
    var heard := Heard(prog[..p]);
    ProgPiece(c, pp.k, n, i);
    assert ActOk(c, pp.k, n, i, prog[p]);
    match prog[p].msg
    case InMu(id) =>
    case MuA(l, b, j) =>
      P1HasHeard(c, pp.k, n, p, l);
      MusAgree(pp, c, r, x, heard, l, b, true);
    case MuB(l, b, j) =>
      P1HasHeard(c, pp.k, n, p, l);
      MusAgree(pp, c, r, x, heard, l, b, false);
    case Share(l, b, j) =>
      MuArrives(c, pp.k, n, l, b, i);
      HeardBefore(prog, c, p, 0, MuA(l, b, i));
      HeardBefore(prog, c, p, 0, MuB(l, b, i));
    case OutMu(id) =>
      P1HasHeard(c, pp.k, n, p, |c.mults|);
      LearnedAgrees(pp, c, r, x, heard, |c.mults|);
  }

  lemma SessionSizes(pp: Params, c: Circuit, r: Randomness, x: map<nat, Elem>)
    requires Session(pp, c, r, x)
    ensures |c.inputs| <= pp.n && |c.outputs| <= pp.n && pp.n > 0
  {
  }

  lemma OnlineCoherent(pp: Params, c: Circuit, r: Randomness, x: map<nat, Elem>)
    requires Session(pp, c, r, x)
    ensures Coherent(OnlineSystem(pp, c, r, x), Values(pp, c, r, x), Stages(c))
  {
    hide Session, Prog, Got, Sent, Heard, WellFormed, Computed, ValueOf;
    SessionParts(pp, c, r, x);
    SessionSizes(pp, c, r, x);
    var sys := OnlineSystem(pp, c, r, x);
    forall i | 0 <= i < pp.n
      ensures Staged(sys.progs[i], Stages(c))
      ensures forall p :: 0 <= p < |sys.progs[i]| ==> ActOk(c, pp.k, pp.n, i, sys.progs[i][p])
    {
      ProgPiece(c, pp.k, pp.n, i);
    }
    forall i, j | 0 <= i < pp.n && 0 <= j < pp.n ensures Sent(sys.progs[i], j) == Got(sys.progs[j], i) {
      ProgOnChannel(c, pp.k, pp.n, i, j);
    }
    forall i, p | 0 <= i < pp.n && 0 <= p < |sys.progs[i]| && sys.progs[i][p].Snd?
      ensures SendsValue(sys, Values(pp, c, r, x), i, p)
    {
      SendsMeant(pp, c, r, x, i, p);
    }
  }

  // ---- Every interleaving ----

  /** The owner's value for its p-th output gate, from what it received (OwnerReceivesMu). */
  function OwnerValue(pp: Params, c: Circuit, r: Randomness, local: Local<Msg>, o: nat, p: nat): Elem
    requires Setup(pp, c, r) && o < |c.outputs| && p < |c.outputs[o]|
  {
    Add(OutputMask(pp, c, r, o, p), Lookup(local, OutMu(c.outputs[o][p])))
  }

  lemma OutputArrives(c: Circuit, k: nat, n: nat, o: nat, p: nat)
    requires k > 0 && |c.inputs| <= n && |c.outputs| <= n && o < |c.outputs| && p < |c.outputs[o]|
    ensures OutMu(c.outputs[o][p]) in Heard(Prog(c, k, n, o))
  {
    hide Prog, Got, InMsgs, LayersMsgs;
    ProgOnChannel(c, k, n, 0, o);
    assert OutMsgs(c, o)[p] == OutMu(c.outputs[o][p]);
    var q := GotAt(Prog(c, k, n, o), 0, OutMu(c.outputs[o][p]));
  }

  lemma OwnerIsRight(pp: Params, c: Circuit, r: Randomness, x: map<nat, Elem>, o: nat, p: nat)
    requires Session(pp, c, r, x) && o < |c.outputs| && p < |c.outputs[o]|
    ensures Obtains(pp, c, r, x, o, p, OwnerValue(pp, c, r, Meant(Heard(Prog(c, pp.k, pp.n, o)), Values(pp, c, r, x)), o, p))
  {
    hide Prog, Heard, OutputMask, RunLayers, InputsListed, MultsListed, Topological, Spread, Known, RandomnessShape, Obtains, WellLayered;
    SessionParts(pp, c, r, x);
    OutputArrives(c, pp.k, pp.n, o, p);
    RunObtains(pp, c, r, x, o, p);
    assert LearnedAt(pp, c, r, x, |c.mults|) == RunLayers(pp, c, r, x, |c.mults|).value;
  }

  /** All channels are empty, P1 has learned the same mu's as in lockstep, and every owner has its
      outputs. */
  ghost predicate EndsRight(pp: Params, c: Circuit, r: Randomness, x: map<nat, Elem>, s: State<Msg>)
    requires Session(pp, c, r, x) && StateShape(OnlineSystem(pp, c, r, x), s)
  {
    SessionParts(pp, c, r, x);
    && (forall i, j :: 0 <= i < pp.n && 0 <= j < pp.n ==> s.chan[i][j] == [])
    && LearnedFrom(pp, c, s.local[0], |c.mults|) == LearnedAt(pp, c, r, x, |c.mults|)
    && (forall o, p :: 0 <= o < |c.outputs| && 0 <= p < |c.outputs[o]| ==> Obtains(pp, c, r, x, o, p, OwnerValue(pp, c, r, s.local[o], o, p)))
  }

  /** The online phase does not depend on the schedule. For all circuits, inputs, randomness and
      parameters and every interleaving of the parties' steps: the parties take at most as many steps
      as their programs have actions, some party can go on until all are finished, and then all
      channels are empty, P1 has learned the same mu's as in lockstep, and every owner holds the value
      of each of its outputs. */
  lemma EveryInterleaving(pp: Params, c: Circuit, r: Randomness, x: map<nat, Elem>, schedule: seq<nat>)
    requires Session(pp, c, r, x)
    ensures var sys := OnlineSystem(pp, c, r, x);
            var s := Run(sys, schedule);
            Finished(sys, s) || exists i: nat :: i < |sys.progs| && Step(sys, s, i).Some?
    ensures var sys := OnlineSystem(pp, c, r, x);
            && Taken(sys, schedule) <= Actions(sys, pp.n)
            && (Finished(sys, Run(sys, schedule)) <==> Taken(sys, schedule) == Actions(sys, pp.n))
    ensures var sys := OnlineSystem(pp, c, r, x);
            Finished(sys, Run(sys, schedule)) ==> EndsRight(pp, c, r, x, Run(sys, schedule))
  {
    hide Session, Prog, Heard, Topological, InputsListed, MultsListed, Obtains, OwnerValue, Step, Run, Coherent, LearnedFrom, LearnedAt, Taken, Actions, Schedule.Inv;
    SessionParts(pp, c, r, x);
    SessionSizes(pp, c, r, x);
    var sys := OnlineSystem(pp, c, r, x);
    OnlineCoherent(pp, c, r, x);
    AnySchedule(sys, Values(pp, c, r, x), Stages(c), schedule);
    StepsBounded(sys, schedule);
    var s := Run(sys, schedule);
    if Finished(sys, s) {
      P1Finished(pp, c, r, x);
      forall o, p | 0 <= o < |c.outputs| && 0 <= p < |c.outputs[o]| ensures Obtains(pp, c, r, x, o, p, OwnerValue(pp, c, r, s.local[o], o, p)) {
        OwnerIsRight(pp, c, r, x, o, p);
      }
    }
  }

  /** Every fair schedule of the online phase finishes, and rightly: as many passes over all parties as
      there are actions are enough, each in any order. */
  lemma EveryFairSchedule(pp: Params, c: Circuit, r: Randomness, x: map<nat, Elem>, passes: seq<seq<nat>>)
    requires Session(pp, c, r, x) && |passes| >= Actions(OnlineSystem(pp, c, r, x), pp.n)
    requires forall q :: 0 <= q < |passes| ==> NamesAll(passes[q], pp.n)
    ensures var sys := OnlineSystem(pp, c, r, x);
            Finished(sys, Run(sys, Passes(passes))) && EndsRight(pp, c, r, x, Run(sys, Passes(passes)))
  {
    hide Session, Prog, Heard, Obtains, OwnerValue, Step, Run, Coherent, LearnedFrom, LearnedAt, Taken, Actions, EndsRight, Schedule.Inv;
    SessionParts(pp, c, r, x);
    OnlineCoherent(pp, c, r, x);
    FairFinishes(OnlineSystem(pp, c, r, x), Values(pp, c, r, x), Stages(c), passes);
    EveryInterleaving(pp, c, r, x, Passes(passes));
  }

  lemma P1Finished(pp: Params, c: Circuit, r: Randomness, x: map<nat, Elem>)
    requires Session(pp, c, r, x)
    ensures LearnedFrom(pp, c, Meant(Heard(Prog(c, pp.k, pp.n, 0)), Values(pp, c, r, x)), |c.mults|) == LearnedAt(pp, c, r, x, |c.mults|)
  {
    hide Session, Prog, WellFormed, LearnedFrom, LearnedAt, BatchCount, Got;
    SessionParts(pp, c, r, x);
    SessionSizes(pp, c, r, x);
    var prog := Prog(c, pp.k, pp.n, 0);
    forall id | 0 <= id < |c.gates| && c.gates[id].InputGate? ensures InMu(id) in Heard(prog) {
      InputArrives(c, pp.k, pp.n, id);
      var q := GotAt(prog, c.gates[id].owner, InMu(id));
    }
    forall l, b, j | 0 <= l < |c.mults| && 0 <= b < BatchCount(|c.mults[l]|, pp.k) && 0 <= j < pp.n
      ensures Share(l, b, j) in Heard(prog)
    {
      ShareArrives(c, pp.k, pp.n, l, b, j);
      var q := GotAt(prog, j, Share(l, b, j));
    }
    LearnedAgrees(pp, c, r, x, Heard(prog), |c.mults|);
  }
}
