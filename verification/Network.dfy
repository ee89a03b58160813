/** One party's end of the network: a first-in-first-out queue of field elements in each direction to
    and from every party, including itself. */
module Network {
  import opened Field
  import opened Packed

  class Net {
    const n: nat
    var inbox: seq<Vec>
    var outbox: seq<Vec>

    constructor (n: nat)
      ensures this.n == n && Valid()
      ensures forall j :: 0 <= j < n ==> inbox[j] == [] && outbox[j] == []
    {
      this.n := n;
      inbox := seq(n, i => []);
      outbox := seq(n, i => []);
    }

    ghost predicate Valid()
      reads this
    {
      |inbox| == |outbox| == n
    }

    method Send(to: nat, v: Elem)
      requires Valid() && to < n
      modifies this`outbox
      ensures Valid() && outbox == old(outbox)[to := old(outbox)[to] + [v]]
    {
      outbox := outbox[to := outbox[to] + [v]];
    }

    /** A receive from an empty queue blocks, so it is not called on one. */
    method Recv(from: nat) returns (v: Elem)
      requires Valid() && from < n && inbox[from] != []
      modifies this`inbox
      ensures Valid() && v == old(inbox)[from][0]
      ensures inbox == old(inbox)[from := old(inbox)[from][1..]]
    {
      v := inbox[from][0];
      inbox := inbox[from := inbox[from][1..]];
    }

    /** Send shares[j] to party j, for the parties from `first` on. */
    method SendEach(shares: Vec, first: nat)
      requires Valid() && |shares| == n && first <= n
      modifies this`outbox
      ensures Valid()
      ensures forall j :: 0 <= j < n ==> outbox[j] == if first <= j then old(outbox)[j] + [shares[j]] else old(outbox)[j]
    {
      for i := first to n
        invariant Valid()
        invariant forall j :: 0 <= j < n ==> outbox[j] == if first <= j < i then old(outbox)[j] + [shares[j]] else old(outbox)[j]
      {
        Send(i, shares[i]);
      }
    }

    /** Receive one value from each of the first m parties, in order. */
    method RecvEach(m: nat) returns (v: Vec)
      requires Valid() && m <= n && forall j :: 0 <= j < m ==> inbox[j] != []
      modifies this`inbox
      ensures Valid() && |v| == m && forall j :: 0 <= j < m ==> v[j] == old(inbox)[j][0]
      ensures forall j :: 0 <= j < n ==> inbox[j] == if j < m then old(inbox)[j][1..] else old(inbox)[j]
    {
      v := [];
      for i := 0 to m
        invariant Valid() && |v| == i && forall j :: 0 <= j < i ==> v[j] == old(inbox)[j][0]
        invariant forall j :: 0 <= j < n ==> inbox[j] == if j < i then old(inbox)[j][1..] else old(inbox)[j]
      {
        var x := Recv(i);
        v := v + [x];
      }
    }

    /** Receive one value from each of the parties first, ..., last - 1, in order. */
    method RecvFrom(first: nat, last: nat) returns (v: Vec)
      requires Valid() && first <= last <= n && forall j :: first <= j < last ==> inbox[j] != []
      modifies this`inbox
      ensures Valid() && |v| == last - first && forall j :: first <= j < last ==> v[j - first] == old(inbox)[j][0]
      ensures forall j :: 0 <= j < n ==> inbox[j] == if first <= j < last then old(inbox)[j][1..] else old(inbox)[j]
    {
      v := [];
      for i := first to last
        invariant Valid() && |v| == i - first && forall j :: first <= j < i ==> v[j - first] == old(inbox)[j][0]
        invariant forall j :: 0 <= j < n ==> inbox[j] == if first <= j < i then old(inbox)[j][1..] else old(inbox)[j]
      {
        var x := Recv(i);
        v := v + [x];
      }
    }

    /** Send v[j] to party j, for as many parties as v has entries. */
    method SendFirst(v: Vec)
      requires Valid() && |v| <= n
      modifies this`outbox
      ensures Valid()
      ensures forall j :: 0 <= j < n ==> outbox[j] == if j < |v| then old(outbox)[j] + [v[j]] else old(outbox)[j]
    {
      for i := 0 to |v|
        invariant Valid()
        invariant forall j :: 0 <= j < n ==> outbox[j] == if j < i then old(outbox)[j] + [v[j]] else old(outbox)[j]
      {
        Send(i, v[i]);
      }
    }

    /** Receive two values from every party, in order. */
    method RecvPairs() returns (a: Vec, b: Vec)
      requires Valid() && forall j :: 0 <= j < n ==> |inbox[j]| >= 2
      modifies this`inbox
      ensures Valid() && |a| == |b| == n
      ensures forall j :: 0 <= j < n ==> a[j] == old(inbox)[j][0] && b[j] == old(inbox)[j][1] && inbox[j] == old(inbox)[j][2..]
    {
      a, b := [], [];
      for i := 0 to n
        invariant Valid() && |a| == |b| == i
        invariant forall j :: 0 <= j < i ==> a[j] == old(inbox)[j][0] && b[j] == old(inbox)[j][1]
        invariant forall j :: 0 <= j < n ==> inbox[j] == if j < i then old(inbox)[j][2..] else old(inbox)[j]
      {
        var x := Recv(i);
        var y := Recv(i);
        a, b := a + [x], b + [y];
      }
    }

    /** Send a[j] and then b[j] to every party j. */
    method SendPairs(a: Vec, b: Vec)
      requires Valid() && |a| == |b| == n
      modifies this`outbox
      ensures Valid() && forall j :: 0 <= j < n ==> outbox[j] == old(outbox)[j] + [a[j], b[j]]
    {
      for i := 0 to n
        invariant Valid()
        invariant forall j :: 0 <= j < n ==> outbox[j] == if j < i then old(outbox)[j] + [a[j], b[j]] else old(outbox)[j]
      {
        Send(i, a[i]);
        Send(i, b[i]);
      }
    }
  }

  // ---- All parties' ends together ----

  /** One end per party, different objects, for the same number of parties. */
  ghost predicate Connected(nets: seq<Net>)
    reads nets
  {
    && (forall i :: 0 <= i < |nets| ==> nets[i].n == |nets| && nets[i].Valid())
    && forall i, j :: 0 <= i < j < |nets| ==> nets[i] != nets[j]
  }

  function NoMsgs(n: nat): (q: seq<Vec>)
    ensures |q| == n && forall j :: 0 <= j < n ==> q[j] == []
  {
    seq(n, j => [])
  }

  /** Nothing is waiting, sent or received. */
  ghost predicate Idle(net: Net)
    reads net
  {
    net.inbox == NoMsgs(net.n) && net.outbox == NoMsgs(net.n)
  }

  /** Party j's inbox after everything that is on its way has arrived; what a party sends itself
      arrives like everything else. */
  ghost function Arrived(nets: seq<Net>, j: nat): (q: seq<Vec>)
    requires Connected(nets) && j < |nets|
    reads nets
    ensures |q| == |nets|
  {
    seq(|nets|, i requires Connected(nets) && 0 <= i < |nets| reads nets => nets[j].inbox[i] + nets[i].outbox[j])
  }

  /** Move all messages from the senders' queues to those of the receivers. */
  method Deliver(nets: seq<Net>)
    requires Connected(nets)
    modifies nets
    ensures Connected(nets)
    ensures forall j :: 0 <= j < |nets| ==> nets[j].inbox == old(Arrived(nets, j)) && nets[j].outbox == NoMsgs(|nets|)
  {
    var n, sent := |nets|, [];
    for i := 0 to n
      invariant |sent| == i && forall q :: 0 <= q < i ==> sent[q] == nets[q].outbox
    {
      sent := sent + [nets[i].outbox];
    }
    for j := 0 to n
      invariant Connected(nets)
      invariant forall q :: 0 <= q < j ==> nets[q].inbox == old(Arrived(nets, q)) && nets[q].outbox == NoMsgs(n)
      invariant forall q :: j <= q < n ==> nets[q].inbox == old(nets[q].inbox)
    {
      var now := nets[j].inbox;
      nets[j].inbox := seq(n, i requires 0 <= i < n => now[i] + sent[i][j]);
      nets[j].outbox := NoMsgs(n);
      assert nets[j].inbox == old(Arrived(nets, j));
    }
  }

  // ---- Rounds to and from the first party ----

  /** Nothing has been received, and only the first party has sent anything. */
  ghost predicate OnlyFirstSends(nets: seq<Net>)
    requires Connected(nets)
    reads nets
  {
    (forall i :: 0 <= i < |nets| ==> nets[i].inbox == NoMsgs(|nets|)) && forall i :: 0 < i < |nets| ==> nets[i].outbox == NoMsgs(|nets|)
  }

  lemma FirstArrives(nets: seq<Net>)
    requires Connected(nets) && |nets| > 0 && OnlyFirstSends(nets)
    ensures forall j :: 0 <= j < |nets| ==> Arrived(nets, j) == NoMsgs(|nets|)[0 := nets[0].outbox[j]]
  {
    forall j | 0 <= j < |nets| ensures Arrived(nets, j) == NoMsgs(|nets|)[0 := nets[0].outbox[j]] {
      forall e | 0 <= e < |nets| ensures Arrived(nets, j)[e] == if e == 0 then nets[0].outbox[j] else [] { }
    }
  }

  /** Nothing has been received, and everything that was sent is for the first party. */
  ghost predicate OnlyToFirst(nets: seq<Net>)
    requires Connected(nets)
    reads nets
  {
    forall i :: 0 <= i < |nets| ==> nets[i].inbox == NoMsgs(|nets|) && nets[i].outbox == NoMsgs(|nets|)[0 := nets[i].outbox[0]]
  }

  lemma AtFirst(nets: seq<Net>)
    requires Connected(nets) && |nets| > 0 && OnlyToFirst(nets)
    ensures forall e :: 0 <= e < |nets| ==> Arrived(nets, 0)[e] == nets[e].outbox[0]
    ensures forall j :: 0 < j < |nets| ==> Arrived(nets, j) == NoMsgs(|nets|)
  {
    forall j | 0 < j < |nets| ensures Arrived(nets, j) == NoMsgs(|nets|) {
      forall e | 0 <= e < |nets| ensures Arrived(nets, j)[e] == [] {
        assert nets[e].outbox[j] == [] && nets[j].inbox == NoMsgs(|nets|);
      }
    }
  }

  lemma Quiet(nets: seq<Net>)
    requires Connected(nets)
    ensures forall i :: 0 <= i < |nets| && nets[i].inbox == NoMsgs(|nets|) && nets[i].outbox == NoMsgs(|nets|) ==> Idle(nets[i])
  {
  }

  method MakeNets(n: nat) returns (nets: seq<Net>)
    ensures fresh(nets) && |nets| == n && Connected(nets) && forall i :: 0 <= i < n ==> Idle(nets[i])
  {
    nets := [];
    for i := 0 to n
      invariant |nets| == i && fresh(nets) && (forall e, d :: 0 <= e < d < i ==> nets[e] != nets[d])
      invariant forall e :: 0 <= e < i ==> nets[e].n == n && nets[e].Valid() && Idle(nets[e])
    {
      var net := new Net(n);
      nets := nets + [net];
    }
  }
}
