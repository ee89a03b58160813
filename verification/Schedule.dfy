/** Parties that run fixed sequences of sends and blocking receives over first-in-first-out channels.
    Every message has a label that says what it means; channels carry bare values. If every channel
    is used in the same order at both ends, and programs are ordered by stages, then no schedule
    blocks and every receive gets the value its label stands for, whatever the schedule. */
module Schedule {
  import opened Field
  import opened Wrappers

  datatype Act<L> = Snd(to: nat, msg: L) | Rcv(from: nat, msg: L)

  /** What a party knows: the values received so far, by label. */
  type Local<!L> = map<L, Elem>

  datatype System<!L> = System(progs: seq<seq<Act<L>>>, payload: (nat, L, Local<L>) -> Elem)

  datatype State<!L> = State(pc: seq<nat>, local: seq<Local<L>>, chan: seq<seq<seq<Elem>>>)

  predicate StateShape<L>(sys: System<L>, s: State<L>) {
    var n := |sys.progs|;
    && |s.pc| == |s.local| == |s.chan| == n
    && (forall i :: 0 <= i < n ==> s.pc[i] <= |sys.progs[i]|)
    && (forall i :: 0 <= i < n ==> |s.chan[i]| == n)
  }

  predicate PeersExist<L>(sys: System<L>) {
    forall i, p :: 0 <= i < |sys.progs| && 0 <= p < |sys.progs[i]| ==>
      match sys.progs[i][p]
      case Snd(to, _) => to < |sys.progs|
      case Rcv(from, _) => from < |sys.progs|
  }

  function Initial<L>(sys: System<L>): (s: State<L>)
    ensures StateShape(sys, s)
  {
    var n := |sys.progs|;
    State(seq(n, i => 0), seq(n, i => map[]), seq(n, i => seq(n, j => [])))
  }

  /** One step of party i: None if it is finished or its next receive has to wait. */
  function Step<L>(sys: System<L>, s: State<L>, i: nat): (r: Option<State<L>>)
    requires PeersExist(sys) && StateShape(sys, s) && i < |sys.progs|
    ensures r.Some? ==> StateShape(sys, r.value)
  {
    if s.pc[i] == |sys.progs[i]| then None
    else
      var pc := s.pc[i := s.pc[i] + 1];
      match sys.progs[i][s.pc[i]]
      case Snd(to, l) =>
        var v := sys.payload(i, l, s.local[i]);
        Some(State(pc, s.local, s.chan[i := s.chan[i][to := s.chan[i][to] + [v]]]))
      case Rcv(from, l) =>
        var q := s.chan[from][i];
        if q == [] then None
        else Some(State(pc, s.local[i := s.local[i][l := q[0]]], s.chan[from := s.chan[from][i := q[1..]]]))
  }

  /** Let the parties take turns as the schedule says; a party that cannot step is passed over. */
  function Run<L>(sys: System<L>, schedule: seq<nat>): (s: State<L>)
    requires PeersExist(sys)
    ensures StateShape(sys, s)
  {
    if schedule == [] then Initial(sys)
    else
      var s := Run(sys, schedule[..|schedule| - 1]);
      var i := schedule[|schedule| - 1];
      if i < |sys.progs| && Step(sys, s, i).Some? then Step(sys, s, i).value else s
  }

  predicate Finished<L>(sys: System<L>, s: State<L>)
    requires StateShape(sys, s)
  {
    forall i :: 0 <= i < |sys.progs| ==> s.pc[i] == |sys.progs[i]|
  }

  // ---- The order of labels on a channel ----

  /** The labels of the messages sent to party `to`. */
  function Sent<L>(prog: seq<Act<L>>, to: nat): (r: seq<L>)
    ensures |r| <= |prog|
  {
    if prog == [] then []
    else
      var a := prog[|prog| - 1];
      Sent(prog[..|prog| - 1], to) + if a.Snd? && a.to == to then [a.msg] else []
  }

  /** The labels of the messages received from party `from`. */
  function Got<L>(prog: seq<Act<L>>, from: nat): (r: seq<L>)
    ensures |r| <= |prog|
  {
    if prog == [] then []
    else
      var a := prog[|prog| - 1];
      Got(prog[..|prog| - 1], from) + if a.Rcv? && a.from == from then [a.msg] else []
  }

  /** All received labels. */
  function Heard<L>(prog: seq<Act<L>>): (r: set<L>) {
    set p | 0 <= p < |prog| && prog[p].Rcv? :: prog[p].msg
  }

  lemma {:induction false} SentConcat<L>(a: seq<Act<L>>, b: seq<Act<L>>, to: nat)
    ensures Sent(a + b, to) == Sent(a, to) + Sent(b, to)
  {
    if b == [] {
      assert a + b == a;
    } else {
      SentConcat(a, b[..|b| - 1], to);
      assert (a + b)[..|a + b| - 1] == a + b[..|b| - 1];
      assert (a + b)[|a + b| - 1] == b[|b| - 1];
    }
  }

  lemma {:induction false} GotConcat<L>(a: seq<Act<L>>, b: seq<Act<L>>, from: nat)
    ensures Got(a + b, from) == Got(a, from) + Got(b, from)
  {
    if b == [] {
      assert a + b == a;
    } else {
      GotConcat(a, b[..|b| - 1], from);
      assert (a + b)[..|a + b| - 1] == a + b[..|b| - 1];
      assert (a + b)[|a + b| - 1] == b[|b| - 1];
    }
  }

  lemma OneMore<L>(prog: seq<Act<L>>, p: nat, peer: nat)
    requires p < |prog|
    ensures Sent(prog[..p + 1], peer) == if prog[p].Snd? && prog[p].to == peer then Sent(prog[..p], peer) + [prog[p].msg] else Sent(prog[..p], peer)
    ensures Got(prog[..p + 1], peer) == if prog[p].Rcv? && prog[p].from == peer then Got(prog[..p], peer) + [prog[p].msg] else Got(prog[..p], peer)
    ensures Heard(prog[..p + 1]) == Heard(prog[..p]) + (if prog[p].Rcv? then {prog[p].msg} else {})
  {
    assert prog[..p + 1][..p] == prog[..p];
    assert prog[..p + 1][p] == prog[p];
    assert Sent(prog[..p], peer) + [] == Sent(prog[..p], peer) && Got(prog[..p], peer) + [] == Got(prog[..p], peer);
    var h, k := Heard(prog[..p]), Heard(prog[..p + 1]);
    forall l | l in k ensures l in h + (if prog[p].Rcv? then {prog[p].msg} else {}) {
      var q :| 0 <= q < p + 1 && prog[..p + 1][q].Rcv? && prog[..p + 1][q].msg == l;
      if q < p { assert prog[..p][q] == prog[..p + 1][q]; }
    }
    forall l | l in h ensures l in k {
      var q :| 0 <= q < p && prog[..p][q].Rcv? && prog[..p][q].msg == l;
      assert prog[..p + 1][q] == prog[..p][q];
    }
  }

  lemma PrefixesOnly<L>(prog: seq<Act<L>>, p: nat, peer: nat)
    requires p <= |prog|
    ensures Sent(prog[..p], peer) <= Sent(prog, peer) && Got(prog[..p], peer) <= Got(prog, peer)
  {
    SentConcat(prog[..p], prog[p..], peer);
    GotConcat(prog[..p], prog[p..], peer);
    assert prog[..p] + prog[p..] == prog;
  }

  /** Where the next message that is still to be sent will be sent. */
  lemma {:induction false} NextSend<L>(prog: seq<Act<L>>, p: nat, to: nat) returns (q: nat)
    requires p <= |prog| && |Sent(prog[..p], to)| < |Sent(prog, to)|
    ensures p <= q < |prog| && prog[q] == Snd(to, Sent(prog, to)[|Sent(prog[..p], to)|])
    decreases |prog| - p
  {
    hide Sent, Got, Heard;
    assert prog[..|prog|] == prog;
    assert p < |prog|;
    OneMore(prog, p, to);
    PrefixesOnly(prog, p + 1, to);
    if prog[p].Snd? && prog[p].to == to {
      q := p;
    } else {
      q := NextSend(prog, p + 1, to);
    }
  }

  // ---- What makes a system independent of its schedule ----

  function Rank<L>(stage: L -> nat, a: Act<L>): nat {
    if a.Snd? then 2 * stage(a.msg) else 2 * stage(a.msg) + 1
  }

  /** Every party works stage by stage, sending before receiving. */
  predicate Staged<L>(prog: seq<Act<L>>, stage: L -> nat) {
    forall p, q :: 0 <= p <= q < |prog| ==> Rank(stage, prog[p]) <= Rank(stage, prog[q])
  }

  function Meant<L>(labels: set<L>, value: L -> Elem): Local<L> {
    map l | l in labels :: value(l)
  }

  /** Both ends of every channel agree on the order of messages, and a party that has received
      what its labels say sends what its labels say. */
  ghost predicate Coherent<L(!new)>(sys: System<L>, value: L -> Elem, stage: L -> nat) {
    && PeersExist(sys)
    && (forall i :: 0 <= i < |sys.progs| ==> Staged(sys.progs[i], stage))
    && (forall i, j :: 0 <= i < |sys.progs| && 0 <= j < |sys.progs| ==> Sent(sys.progs[i], j) == Got(sys.progs[j], i))
    && (forall i, p :: 0 <= i < |sys.progs| && 0 <= p < |sys.progs[i]| && sys.progs[i][p].Snd? ==>
          SendsValue(sys, value, i, p))
  }

  predicate SendsValue<L>(sys: System<L>, value: L -> Elem, i: nat, p: nat)
    requires i < |sys.progs| && p < |sys.progs[i]|
  {
    var l := sys.progs[i][p].msg;
    sys.payload(i, l, Meant(Heard(sys.progs[i][..p]), value)) == value(l)
  }

  // ---- The invariant of all reachable states ----

  function Values<L>(labels: seq<L>, value: L -> Elem): (r: seq<Elem>)
    ensures |r| == |labels|
  {
    seq(|labels|, q requires 0 <= q < |labels| => value(labels[q]))
  }

  /** Channel i to j holds the values of the messages sent and not yet received. */
  ghost predicate ChannelOk<L>(sys: System<L>, s: State<L>, value: L -> Elem, i: nat, j: nat)
    requires StateShape(sys, s) && i < |sys.progs| && j < |sys.progs|
  {
    Holds(s.chan[i][j], Sent(sys.progs[i][..s.pc[i]], j), Got(sys.progs[j][..s.pc[j]], i), value)
  }

  ghost predicate Holds<L>(chan: seq<Elem>, sent: seq<L>, got: seq<L>, value: L -> Elem) {
    got <= sent && chan == Values(sent[|got|..], value)
  }

  ghost predicate Inv<L>(sys: System<L>, s: State<L>, value: L -> Elem) {
    && StateShape(sys, s)
    && (forall i :: 0 <= i < |sys.progs| ==> s.local[i] == Meant(Heard(sys.progs[i][..s.pc[i]]), value))
    && (forall i, j :: 0 <= i < |sys.progs| && 0 <= j < |sys.progs| ==> ChannelOk(sys, s, value, i, j))
  }

  lemma InitialInv<L(!new)>(sys: System<L>, value: L -> Elem)
    ensures Inv(sys, Initial(sys), value)
  {
    var s := Initial(sys);
    forall i | 0 <= i < |sys.progs| ensures s.local[i] == Meant(Heard(sys.progs[i][..s.pc[i]]), value) {
      assert Heard(sys.progs[i][..0]) == {};
    }
  }

  /** What a step of party i does to the labels of channel u to v. */
  lemma SendChannel<L(!new)>(sys: System<L>, s: State<L>, value: L -> Elem, i: nat, u: nat, v: nat)
    requires PeersExist(sys) && StateShape(sys, s) && i < |sys.progs| && u < |sys.progs| && v < |sys.progs|
    requires s.pc[i] < |sys.progs[i]| && sys.progs[i][s.pc[i]].Snd? && SendsValue(sys, value, i, s.pc[i])
    requires s.local[i] == Meant(Heard(sys.progs[i][..s.pc[i]]), value) && ChannelOk(sys, s, value, u, v)
    ensures ChannelOk(sys, Step(sys, s, i).value, value, u, v)
  {
    hide Sent, Got, Heard, Holds;
    var p, a, t := s.pc[i], sys.progs[i][s.pc[i]], Step(sys, s, i).value;
    OneMore(sys.progs[i], p, u);
    OneMore(sys.progs[i], p, v);
    assert Got(sys.progs[v][..t.pc[v]], u) == Got(sys.progs[v][..s.pc[v]], u);
    if u == i && v == a.to {
      HoldsAfterSend(s.chan[u][v], Sent(sys.progs[u][..p], v), Got(sys.progs[v][..s.pc[v]], u), a.msg, value);
    } else {
      assert t.chan[u][v] == s.chan[u][v];
      assert Sent(sys.progs[u][..t.pc[u]], v) == Sent(sys.progs[u][..s.pc[u]], v);
    }
  }

  lemma HoldsAfterSend<L>(chan: seq<Elem>, sent: seq<L>, got: seq<L>, l: L, value: L -> Elem)
    requires Holds(chan, sent, got, value)
    ensures Holds(chan + [value(l)], sent + [l], got, value)
  {
    assert (sent + [l])[|got|..] == sent[|got|..] + [l];
  }

  lemma HoldsAfterReceive<L>(chan: seq<Elem>, sent: seq<L>, got: seq<L>, value: L -> Elem)
    requires Holds(chan, sent, got, value) && |got| < |sent|
    ensures chan != [] && Holds(chan[1..], sent, got + [sent[|got|]], value)
  {
    assert sent[|got| + 1..] == sent[|got|..][1..];
  }

  lemma ReceiveChannel<L(!new)>(sys: System<L>, s: State<L>, value: L -> Elem, i: nat, u: nat, v: nat)
    requires PeersExist(sys) && StateShape(sys, s) && i < |sys.progs| && u < |sys.progs| && v < |sys.progs|
    requires s.pc[i] < |sys.progs[i]| && sys.progs[i][s.pc[i]].Rcv? && Step(sys, s, i).Some?
    requires ChannelOk(sys, s, value, u, v)
    requires u == sys.progs[i][s.pc[i]].from && v == i ==> FrontMeant(sys, s, value, i)
    ensures ChannelOk(sys, Step(sys, s, i).value, value, u, v)
  {
    hide Sent, Got, Heard, Holds;
    var p, a, t := s.pc[i], sys.progs[i][s.pc[i]], Step(sys, s, i).value;
    OneMore(sys.progs[i], p, u);
    OneMore(sys.progs[i], p, v);
    assert Sent(sys.progs[u][..t.pc[u]], v) == Sent(sys.progs[u][..s.pc[u]], v);
    if u == a.from && v == i {
      HoldsAfterReceive(s.chan[u][v], Sent(sys.progs[u][..s.pc[u]], v), Got(sys.progs[v][..p], u), value);
    } else {
      assert t.chan[u][v] == s.chan[u][v];
      assert Got(sys.progs[v][..t.pc[v]], u) == Got(sys.progs[v][..s.pc[v]], u);
    }
  }

  /** The front of the channel is the message the next receive is meant for. */
  ghost predicate FrontMeant<L>(sys: System<L>, s: State<L>, value: L -> Elem, i: nat)
    requires PeersExist(sys) && StateShape(sys, s) && i < |sys.progs|
    requires s.pc[i] < |sys.progs[i]| && sys.progs[i][s.pc[i]].Rcv?
  {
    var a := sys.progs[i][s.pc[i]];
    var sent, got := Sent(sys.progs[a.from][..s.pc[a.from]], i), Got(sys.progs[i][..s.pc[i]], a.from);
    s.chan[a.from][i] != [] ==>
      |got| < |sent| && sent[|got|] == a.msg && s.chan[a.from][i][0] == value(a.msg)
  }

  lemma NextIsMeant<L(!new)>(sys: System<L>, s: State<L>, value: L -> Elem, stage: L -> nat, i: nat)
    requires Coherent(sys, value, stage) && Inv(sys, s, value) && i < |sys.progs|
    requires s.pc[i] < |sys.progs[i]| && sys.progs[i][s.pc[i]].Rcv?
    ensures FrontMeant(sys, s, value, i)
  {
    hide Sent, Got, Heard;
    var p, a := s.pc[i], sys.progs[i][s.pc[i]];
    var j := a.from;
    assert ChannelOk(sys, s, value, j, i);
    OneMore(sys.progs[i], p, j);
    PrefixesOnly(sys.progs[i], p + 1, j);
    PrefixesOnly(sys.progs[j], s.pc[j], i);
    assert Sent(sys.progs[j], i) == Got(sys.progs[i], j);
  }

  lemma SendKeepsInv<L(!new)>(sys: System<L>, s: State<L>, value: L -> Elem, stage: L -> nat, i: nat)
    requires Coherent(sys, value, stage) && Inv(sys, s, value) && i < |sys.progs|
    requires s.pc[i] < |sys.progs[i]| && sys.progs[i][s.pc[i]].Snd?
    ensures Inv(sys, Step(sys, s, i).value, value)
  {
    hide Sent, Got, Heard, ChannelOk;
    var t := Step(sys, s, i).value;
    assert SendsValue(sys, value, i, s.pc[i]);
    OneMore(sys.progs[i], s.pc[i], i);
    forall u, v | 0 <= u < |sys.progs| && 0 <= v < |sys.progs| ensures ChannelOk(sys, t, value, u, v) {
      SendChannel(sys, s, value, i, u, v);
    }
  }

  lemma ReceiveKeepsInv<L(!new)>(sys: System<L>, s: State<L>, value: L -> Elem, stage: L -> nat, i: nat)
    requires Coherent(sys, value, stage) && Inv(sys, s, value) && i < |sys.progs|
    requires s.pc[i] < |sys.progs[i]| && sys.progs[i][s.pc[i]].Rcv? && Step(sys, s, i).Some?
    ensures Inv(sys, Step(sys, s, i).value, value)
  {
    hide Sent, Got, Heard, ChannelOk;
    var t := Step(sys, s, i).value;
    NextIsMeant(sys, s, value, stage, i);
    OneMore(sys.progs[i], s.pc[i], i);
    forall u, v | 0 <= u < |sys.progs| && 0 <= v < |sys.progs| ensures ChannelOk(sys, t, value, u, v) {
      ReceiveChannel(sys, s, value, i, u, v);
    }
  }

  lemma StepKeepsInv<L(!new)>(sys: System<L>, s: State<L>, value: L -> Elem, stage: L -> nat, i: nat)
    requires Coherent(sys, value, stage) && Inv(sys, s, value) && i < |sys.progs| && Step(sys, s, i).Some?
    ensures Inv(sys, Step(sys, s, i).value, value)
  {
    hide Inv;
    StepShape(sys, s, value);
    if sys.progs[i][s.pc[i]].Snd? {
      SendKeepsInv(sys, s, value, stage, i);
    } else {
      ReceiveKeepsInv(sys, s, value, stage, i);
    }
  }

  lemma StepShape<L>(sys: System<L>, s: State<L>, value: L -> Elem)
    requires Inv(sys, s, value)
    ensures StateShape(sys, s)
  {
  }

  // ---- No schedule blocks ----

  /** A party whose next action is of the lowest rank among the unfinished ones. */
  lemma {:induction false} Earliest<L>(sys: System<L>, s: State<L>, stage: L -> nat, m: nat) returns (i: int)
    requires StateShape(sys, s) && m <= |sys.progs|
    ensures -1 <= i < m
    ensures i == -1 ==> forall j :: 0 <= j < m ==> s.pc[j] == |sys.progs[j]|
    ensures i >= 0 ==> s.pc[i] < |sys.progs[i]| && forall j :: 0 <= j < m && s.pc[j] < |sys.progs[j]| ==>
                         Rank(stage, sys.progs[i][s.pc[i]]) <= Rank(stage, sys.progs[j][s.pc[j]])
  {
    if m == 0 {
      i := -1;
    } else {
      i := Earliest(sys, s, stage, m - 1);
      if s.pc[m - 1] < |sys.progs[m - 1]| {
        if i == -1 || Rank(stage, sys.progs[m - 1][s.pc[m - 1]]) < Rank(stage, sys.progs[i][s.pc[i]]) {
          i := m - 1;
        }
      }
    }
  }

  /** In every reachable state, either all parties are finished or some party can step. */
  lemma NoDeadlock<L(!new)>(sys: System<L>, s: State<L>, value: L -> Elem, stage: L -> nat)
    requires Coherent(sys, value, stage) && Inv(sys, s, value)
    ensures Finished(sys, s) || exists i: nat :: i < |sys.progs| && Step(sys, s, i).Some?
  {
    hide Sent, Got, Heard;
    var i := Earliest(sys, s, stage, |sys.progs|);
    if i >= 0 {
      var a := sys.progs[i][s.pc[i]];
      if a.Rcv? && s.chan[a.from][i] == [] {
        var j := a.from;
        assert ChannelOk(sys, s, value, j, i);
        OneMore(sys.progs[i], s.pc[i], j);
        PrefixesOnly(sys.progs[i], s.pc[i] + 1, j);
        assert Sent(sys.progs[j], i) == Got(sys.progs[i], j);
        var q := NextSend(sys.progs[j], s.pc[j], i);
        assert false;
      }
      assert Step(sys, s, i).Some?;
    }
  }

  // ---- How many steps a run takes ----

  /** The number of steps that the parties of a schedule take. */
  function Taken<L>(sys: System<L>, schedule: seq<nat>): nat
    requires PeersExist(sys)
  {
    if schedule == [] then 0
    else
      var before, i := schedule[..|schedule| - 1], schedule[|schedule| - 1];
      Taken(sys, before) + if i < |sys.progs| && Step(sys, Run(sys, before), i).Some? then 1 else 0
  }

  /** The number of actions in the first m programs. */
  function Actions<L>(sys: System<L>, m: nat): nat
    requires m <= |sys.progs|
  {
    if m == 0 then 0 else Actions(sys, m - 1) + |sys.progs[m - 1]|
  }

  function Remaining<L>(sys: System<L>, s: State<L>, m: nat): nat
    requires StateShape(sys, s) && m <= |sys.progs|
  {
    if m == 0 then 0 else Remaining(sys, s, m - 1) + (|sys.progs[m - 1]| - s.pc[m - 1])
  }

  lemma {:induction false} StepsDecrease<L>(sys: System<L>, s: State<L>, i: nat, m: nat)
    requires PeersExist(sys) && StateShape(sys, s) && i < |sys.progs| && Step(sys, s, i).Some? && m <= |sys.progs|
    ensures Remaining(sys, Step(sys, s, i).value, m) == Remaining(sys, s, m) - if i < m then 1 else 0
  {
    if m > 0 { StepsDecrease(sys, s, i, m - 1); }
  }

  lemma {:induction false} AllRemain<L>(sys: System<L>, m: nat)
    requires m <= |sys.progs|
    ensures Remaining(sys, Initial(sys), m) == Actions(sys, m)
  {
    if m > 0 { AllRemain(sys, m - 1); }
  }

  lemma {:induction false} NoneRemain<L>(sys: System<L>, s: State<L>, m: nat)
    requires StateShape(sys, s) && m <= |sys.progs|
    ensures Remaining(sys, s, m) == 0 <==> forall i :: 0 <= i < m ==> s.pc[i] == |sys.progs[i]|
  {
    if m > 0 { NoneRemain(sys, s, m - 1); }
  }

  /** Steps taken and actions that remain make up all programs, so every schedule takes at most
      that many steps, and it is finished exactly when it has taken all of them. */
  lemma {:induction false} StepsBounded<L>(sys: System<L>, schedule: seq<nat>)
    requires PeersExist(sys)
    ensures Taken(sys, schedule) + Remaining(sys, Run(sys, schedule), |sys.progs|) == Actions(sys, |sys.progs|)
    ensures Finished(sys, Run(sys, schedule)) <==> Taken(sys, schedule) == Actions(sys, |sys.progs|)
  {
    hide Step;
    if schedule == [] {
      AllRemain(sys, |sys.progs|);
    } else {
      var before, i := schedule[..|schedule| - 1], schedule[|schedule| - 1];
      StepsBounded(sys, before);
      if i < |sys.progs| && Step(sys, Run(sys, before), i).Some? { StepsDecrease(sys, Run(sys, before), i, |sys.progs|); }
    }
    NoneRemain(sys, Run(sys, schedule), |sys.progs|);
  }

  // ---- Every schedule ----

  /** For every schedule: the reached state is determined by how far each party got; nobody is stuck
      for good; and once all are finished, every party knows exactly what its labels mean and all
      channels are empty. */
  lemma {:induction false} AnySchedule<L(!new)>(sys: System<L>, value: L -> Elem, stage: L -> nat, schedule: seq<nat>)
    requires Coherent(sys, value, stage)
    ensures Inv(sys, Run(sys, schedule), value)
    ensures Finished(sys, Run(sys, schedule)) || exists i: nat :: i < |sys.progs| && Step(sys, Run(sys, schedule), i).Some?
    ensures Finished(sys, Run(sys, schedule)) ==> Clean(sys, Run(sys, schedule), value)
    ensures Taken(sys, schedule) <= Actions(sys, |sys.progs|)
  {
    hide Step, Inv, Coherent, Sent, Got, Heard;
    CoherentPeers(sys, value, stage);
    StepsBounded(sys, schedule);
    var s := Run(sys, schedule);
    if schedule == [] {
      InitialInv(sys, value);
    } else {
      AnySchedule(sys, value, stage, schedule[..|schedule| - 1]);
      var before := Run(sys, schedule[..|schedule| - 1]);
      var i := schedule[|schedule| - 1];
      if i < |sys.progs| && Step(sys, before, i).Some? { StepKeepsInv(sys, before, value, stage, i); }
    }
    NoDeadlock(sys, s, value, stage);
    if Finished(sys, s) { FinishedClean(sys, s, value, stage); }
  }

  lemma CoherentPeers<L(!new)>(sys: System<L>, value: L -> Elem, stage: L -> nat)
    requires Coherent(sys, value, stage)
    ensures PeersExist(sys)
  {
  }

  ghost predicate Clean<L>(sys: System<L>, s: State<L>, value: L -> Elem)
    requires StateShape(sys, s)
  {
    && (forall i :: 0 <= i < |sys.progs| ==> s.local[i] == Meant(Heard(sys.progs[i]), value))
    && (forall i, j :: 0 <= i < |sys.progs| && 0 <= j < |sys.progs| ==> s.chan[i][j] == [])
  }

  lemma FinishedClean<L(!new)>(sys: System<L>, s: State<L>, value: L -> Elem, stage: L -> nat)
    requires Coherent(sys, value, stage) && Inv(sys, s, value) && Finished(sys, s)
    ensures Clean(sys, s, value)
  {
    hide Sent, Got, Heard;
    assert forall i :: 0 <= i < |sys.progs| ==> sys.progs[i][..s.pc[i]] == sys.progs[i];
    forall i, j | 0 <= i < |sys.progs| && 0 <= j < |sys.progs| ensures s.chan[i][j] == [] {
      assert ChannelOk(sys, s, value, i, j);
    }
  }

  // ---- Fair schedules finish ----

  predicate NamesAll(pass: seq<nat>, n: nat) {
    forall i :: 0 <= i < n ==> i in pass
  }

  function Passes(passes: seq<seq<nat>>): seq<nat> {
    if passes == [] then [] else Passes(passes[..|passes| - 1]) + passes[|passes| - 1]
  }

  lemma OneTurn<L>(sys: System<L>, schedule: seq<nat>, i: nat)
    requires PeersExist(sys)
    ensures var s := Run(sys, schedule);
            if i < |sys.progs| && Step(sys, s, i).Some?
            then Taken(sys, schedule + [i]) == Taken(sys, schedule) + 1
            else Taken(sys, schedule + [i]) == Taken(sys, schedule) && Run(sys, schedule + [i]) == s
  {
    hide Step;
    var all := schedule + [i];
    assert all[..|all| - 1] == schedule;
  }

  /** As long as no step is taken the state stays the same, so a party that can step still can when
      its turn comes. */
  lemma {:induction false} PassAdvances<L>(sys: System<L>, schedule: seq<nat>, pass: seq<nat>)
    requires PeersExist(sys)
    ensures Taken(sys, schedule + pass) >= Taken(sys, schedule)
    ensures Taken(sys, schedule + pass) == Taken(sys, schedule) ==>
              && Run(sys, schedule + pass) == Run(sys, schedule)
              && forall i :: i in pass && i < |sys.progs| ==> Step(sys, Run(sys, schedule), i).None?
  {
    hide Step, Run, Taken;
    if pass == [] {
      assert schedule + pass == schedule;
    } else {
      var front, i := pass[..|pass| - 1], pass[|pass| - 1];
      PassAdvances(sys, schedule, front);
      OneTurn(sys, schedule + front, i);
      assert (schedule + front) + [i] == schedule + pass;
    }
  }

  /** Every fair schedule finishes: as many passes as there are actions are enough, if every pass
      names all parties, in whatever order and however often. */
  lemma {:induction false} FairFinishes<L(!new)>(sys: System<L>, value: L -> Elem, stage: L -> nat, passes: seq<seq<nat>>)
    requires Coherent(sys, value, stage) && forall q :: 0 <= q < |passes| ==> NamesAll(passes[q], |sys.progs|)
    ensures PeersExist(sys)
    ensures Finished(sys, Run(sys, Passes(passes))) || Taken(sys, Passes(passes)) >= |passes|
    ensures |passes| >= Actions(sys, |sys.progs|) ==> Finished(sys, Run(sys, Passes(passes)))
  {
    hide Step, Inv, Coherent, Finished, Run, Taken;
    CoherentPeers(sys, value, stage);
    StepsBounded(sys, Passes(passes));
    if passes != [] {
      var front, pass := passes[..|passes| - 1], passes[|passes| - 1];
      FairFinishes(sys, value, stage, front);
      AnySchedule(sys, value, stage, Passes(front));
      PassAdvances(sys, Passes(front), pass);
      StepsBounded(sys, Passes(front));
      assert NamesAll(pass, |sys.progs|);
    }
  }
}
