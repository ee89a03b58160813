/** The in-memory channel (mem_channel.cc, shared_deque.h): messages are queued whole, a receive
    may ask for any number of bytes and keeps what is left of a message in an overflow buffer. */
module Channel {
  import opened Wrappers

  type Byte = b: int | 0 <= b < 256

  type Bytes = seq<Byte>

  function Concat(msgs: seq<Bytes>): Bytes {
    if msgs == [] then [] else msgs[0] + Concat(msgs[1..])
  }

  lemma {:induction false} ConcatAppend(msgs: seq<Bytes>, m: Bytes)
    ensures Concat(msgs + [m]) == Concat(msgs) + m
  {
    if msgs == [] {
      assert Concat([m]) == m;
    } else {
      ConcatAppend(msgs[1..], m);
      assert (msgs + [m])[1..] == msgs[1..] + [m];
    }
  }

  class Buffer {
    var deck: seq<Bytes>

    constructor ()
      ensures deck == []
    {
      deck := [];
    }

    method PushBack(item: Bytes)
      modifies this
      ensures deck == old(deck) + [item]
    {
      deck := deck + [item];
    }

    /** On an empty buffer Pop waits, so it is not called on one. */
    method Pop() returns (item: Bytes)
      requires deck != []
      modifies this
      ensures item == old(deck)[0] && deck == old(deck)[1..]
    {
      item := deck[0];
      deck := deck[1..];
    }
  }

  class InMemoryChannel {
    const inBuf: Buffer
    const outBuf: Buffer
    var overflow: Bytes

    constructor (inBuf: Buffer, outBuf: Buffer)
      ensures this.inBuf == inBuf && this.outBuf == outBuf && overflow == []
    {
      this.inBuf, this.outBuf, overflow := inBuf, outBuf, [];
    }

    /** The bytes that have been sent to this end and not been received. */
    ghost function Stream(): Bytes
      reads this, inBuf
    {
      overflow + Concat(inBuf.deck)
    }

    method Send(src: Bytes)
      modifies outBuf
      ensures outBuf.deck == old(outBuf.deck) + [src]
    {
      outBuf.PushBack(src);
    }

    /** Leftovers of earlier receives come first. */
    method TakeOverflow(dst: array<Byte>, n: nat) returns (rem: nat)
      requires n <= dst.Length
      modifies this, dst
      ensures rem <= n && n - rem <= |old(overflow)| && (rem > 0 ==> overflow == [])
      ensures dst[..n - rem] == old(overflow)[..n - rem] && overflow == old(overflow)[n - rem..]
      ensures dst[n..] == old(dst[n..])
    {
      rem := n;
      var leftovers := |overflow|;
      if leftovers > 0 {
        var toCopy := if leftovers > rem then rem else leftovers;
        Copy(dst, 0, overflow, toCopy);
        rem := rem - toCopy;
        overflow := overflow[toCopy..];
      }
    }

    /** One message of the buffer; what does not fit is kept. */
    method TakeMessage(dst: array<Byte>, n: nat, rem: nat, ghost stream: Bytes) returns (left: nat)
      requires 0 < rem <= n <= dst.Length && overflow == [] && Midway(dst[..], stream, n, rem, Stream())
      modifies this, inBuf, dst
      ensures left > 0 ==> overflow == []
      ensures left <= n && Midway(dst[..], stream, n, left, Stream()) && dst[n..] == old(dst[n..])
      ensures old(inBuf.deck) != [] && inBuf.deck == old(inBuf.deck)[1..]
    {
      hide Concat, Midway;
      ghost var before := dst[..];
      MoreQueued(before, stream, n, rem, inBuf.deck);
      var data := inBuf.Pop();
      var toCopy := if |data| > rem then rem else |data|;
      Copy(dst, n - rem, data, toCopy);
      left := rem - toCopy;
      Filled(before, dst[..], stream, n, rem, data, Concat(inBuf.deck), toCopy);
      if toCopy < |data| {
        overflow := overflow + data[toCopy..];
        assert overflow == data[toCopy..];
      }
    }

    /** Receive n bytes into dst. It waits when fewer have been sent; otherwise it writes exactly the
        next n bytes of the stream and leaves the rest of the stream and of dst as they were. */
    method Recv(dst: array<Byte>, n: nat)
      requires n <= dst.Length && n <= |Stream()|
      modifies this, inBuf, dst
      ensures dst[..n] == old(Stream())[..n] && Stream() == old(Stream())[n..]
      ensures dst[n..] == old(dst[n..])
    {
      hide Concat;
      ghost var stream := Stream();
      ghost var kept := overflow;
      var rem: nat := TakeOverflow(dst, n);
      AfterOverflow(dst[..], stream, kept, Concat(inBuf.deck), n, rem);
      while rem > 0
        invariant rem <= n && (rem > 0 ==> overflow == [])
        invariant Midway(dst[..], stream, n, rem, Stream()) && dst[n..] == old(dst[n..])
        decreases |inBuf.deck|
      {
        rem := TakeMessage(dst, n, rem, stream);
      }
    }
  }

  /** All but rem of the n bytes have been written, and `rest` is still to come. */
  ghost predicate Midway(dst: Bytes, stream: Bytes, n: nat, rem: nat, rest: Bytes) {
    rem <= n <= |dst| && n <= |stream| && dst[..n - rem] == stream[..n - rem] && rest == stream[n - rem..]
  }

  lemma MoreQueued(dst: Bytes, stream: Bytes, n: nat, rem: nat, deck: seq<Bytes>)
    requires 0 < rem && Midway(dst, stream, n, rem, [] + Concat(deck))
    ensures deck != [] && n - rem < |dst| && n <= |dst| && Midway(dst, stream, n, rem, deck[0] + Concat(deck[1..]))
  {
    assert [] + Concat(deck) == Concat(deck);
  }

  lemma Filled(before: Bytes, after: Bytes, stream: Bytes, n: nat, rem: nat, data: Bytes, queued: Bytes, count: nat)
    requires count <= rem && count <= |data| && Midway(before, stream, n, rem, data + queued)
    requires after == before[..n - rem] + data[..count] + before[n - rem + count..]
    ensures Midway(after, stream, n, rem - count, data[count..] + queued)
    ensures |after| == |before| && after[n..] == before[n..]
    ensures count == |data| ==> data[count..] == []
  {
    CutStream(stream, n - rem, data, queued, count);
    assert after[..n - rem + count] == before[..n - rem] + data[..count];
  }

  lemma AfterOverflow(dst: Bytes, stream: Bytes, kept: Bytes, queued: Bytes, n: nat, rem: nat)
    requires rem <= n <= |dst| && stream == kept + queued && n <= |stream| && n - rem <= |kept|
    requires dst[..n - rem] == kept[..n - rem]
    ensures Midway(dst, stream, n, rem, kept[n - rem..] + queued)
  {
  }

  /** memcpy. */
  method Copy(dst: array<Byte>, at: nat, data: Bytes, count: nat)
    requires at + count <= dst.Length && count <= |data|
    modifies dst
    ensures dst[..] == old(dst[..at]) + data[..count] + old(dst[at + count..])
  {
    for i := 0 to count
      invariant forall j :: 0 <= j < dst.Length ==> dst[j] == if at <= j < at + i then data[j - at] else old(dst[j])
    {
      dst[at + i] := data[i];
    }
  }

  lemma CutStream(stream: Bytes, at: nat, data: Bytes, rest: Bytes, count: nat)
    requires at <= |stream| && stream[at..] == data + rest && count <= |data|
    ensures at + count <= |stream| && stream[..at + count] == stream[..at] + data[..count]
    ensures stream[at + count..] == data[count..] + rest
  {
    assert stream == stream[..at] + (data + rest);
  }

  // ---- Two ends, any sequence of sends and receives ----

  datatype Op = Send(end: bool, data: Bytes) | Recv(end: bool, amount: nat)

  /** An ideal pair of byte streams: the bytes under way to each end. */
  datatype Streams = Streams(toFirst: Bytes, toSecond: Bytes) {
    function Towards(end: bool): Bytes { if end then toSecond else toFirst }

    function With(end: bool, s: Bytes): Streams {
      if end then Streams(toFirst, s) else Streams(s, toSecond)
    }
  }

  /** One operation on the ideal streams; the end `true` is the second. None where it would wait. */
  function Ideal(s: Streams, op: Op): Option<Streams> {
    match op
    case Send(end, data) => Some(s.With(!end, s.Towards(!end) + data))
    case Recv(end, amount) =>
      if amount <= |s.Towards(end)| then Some(s.With(end, s.Towards(end)[amount..])) else None
  }

  function IdealRun(s: Streams, ops: seq<Op>): Option<Streams>
    decreases |ops|
  {
    if ops == [] then Some(s)
    else
      match Ideal(s, ops[0])
      case None => None
      case Some(next) => IdealRun(next, ops[1..])
  }

  /** All bytes received at one end, in order. */
  function Received(s: Streams, ops: seq<Op>, end: bool): Bytes
    requires IdealRun(s, ops).Some?
    decreases |ops|
  {
    if ops == [] then []
    else
      var next := Ideal(s, ops[0]).value;
      if ops[0].Recv? && ops[0].end == end then s.Towards(end)[..ops[0].amount] + Received(next, ops[1..], end)
      else Received(next, ops[1..], end)
  }

  /** All bytes sent to one end, in order. */
  function SentTo(ops: seq<Op>, end: bool): Bytes
    decreases |ops|
  {
    if ops == [] then []
    else if ops[0].Send? && ops[0].end == !end then ops[0].data + SentTo(ops[1..], end)
    else SentTo(ops[1..], end)
  }

  /** What one end receives, followed by what is still under way, is what was under way at the start
      followed by what the other end sent. */
  lemma {:induction false} NothingLost(s: Streams, ops: seq<Op>, end: bool)
    requires IdealRun(s, ops).Some?
    ensures Received(s, ops, end) + IdealRun(s, ops).value.Towards(end) == s.Towards(end) + SentTo(ops, end)
    decreases |ops|
  {
    if ops != [] {
      var next := Ideal(s, ops[0]).value;
      NothingLost(next, ops[1..], end);
      var rest, left, more := Received(next, ops[1..], end), IdealRun(next, ops[1..]).value.Towards(end), SentTo(ops[1..], end);
      match ops[0]
      case Send(e, data) =>
        if e == !end { Regrouped(s.Towards(end), data, more); }
      case Recv(e, amount) =>
        if e == end { TakenFirst(s.Towards(end), amount, rest, left, more); }
    }
  }

  lemma Regrouped(a: Bytes, b: Bytes, c: Bytes)
    ensures (a + b) + c == a + (b + c)
  {
  }

  lemma TakenFirst(all: Bytes, amount: nat, rest: Bytes, left: Bytes, more: Bytes)
    requires amount <= |all| && rest + left == all[amount..] + more
    ensures (all[..amount] + rest) + left == all + more
  {
    Regrouped(all[..amount], rest, left);
    Regrouped(all[..amount], all[amount..], more);
    assert all[..amount] + all[amount..] == all;
  }

  /** CreatePaired. */
  method CreatePaired() returns (first: InMemoryChannel, second: InMemoryChannel)
    ensures fresh(first) && fresh(second) && fresh(first.inBuf) && fresh(second.inBuf) && Paired(first, second)
    ensures first.Stream() == [] && second.Stream() == []
  {
    var buf0 := new Buffer();
    var buf1 := new Buffer();
    first := new InMemoryChannel(buf0, buf1);
    second := new InMemoryChannel(buf1, buf0);
  }

  ghost predicate Paired(first: InMemoryChannel, second: InMemoryChannel) {
    first != second && first.inBuf == second.outBuf && first.outBuf == second.inBuf && first.inBuf != first.outBuf
  }

  method SendAt(own: InMemoryChannel, other: InMemoryChannel, data: Bytes)
    requires Paired(own, other)
    modifies own.outBuf
    ensures other.Stream() == old(other.Stream()) + data && own.Stream() == old(own.Stream())
  {
    ConcatAppend(own.outBuf.deck, data);
    own.Send(data);
  }

  method RecvAt(own: InMemoryChannel, other: InMemoryChannel, amount: nat) returns (got: Bytes)
    requires Paired(own, other) && amount <= |own.Stream()|
    modifies own, own.inBuf
    ensures got == old(own.Stream())[..amount] && own.Stream() == old(own.Stream())[amount..]
    ensures other.Stream() == old(other.Stream())
  {
    var dst := new Byte[amount](i => 0);
    own.Recv(dst, amount);
    got := dst[..amount];
  }

  /** Any sequence of operations on the two ends of a pair behaves as on the ideal streams: the
      bytes received at each end are those of the ideal run. */
  method Play(first: InMemoryChannel, second: InMemoryChannel, ops: seq<Op>) returns (atFirst: Bytes, atSecond: Bytes)
    requires Paired(first, second) && IdealRun(Streams(first.Stream(), second.Stream()), ops).Some?
    modifies first, second, first.inBuf, second.inBuf
    ensures atFirst == Received(old(Streams(first.Stream(), second.Stream())), ops, false)
    ensures atSecond == Received(old(Streams(first.Stream(), second.Stream())), ops, true)
    ensures Some(Streams(first.Stream(), second.Stream())) == IdealRun(old(Streams(first.Stream(), second.Stream())), ops)
  {
    ghost var start := Streams(first.Stream(), second.Stream());
    atFirst, atSecond := [], [];
    assert ops[0..] == ops;
    for i := 0 to |ops|
      invariant IdealRun(Streams(first.Stream(), second.Stream()), ops[i..]).Some?
      invariant IdealRun(Streams(first.Stream(), second.Stream()), ops[i..]) == IdealRun(start, ops)
      invariant atFirst + Received(Streams(first.Stream(), second.Stream()), ops[i..], false) == Received(start, ops, false)
      invariant atSecond + Received(Streams(first.Stream(), second.Stream()), ops[i..], true) == Received(start, ops, true)
    {
      assert ops[i..][0] == ops[i] && ops[i..][1..] == ops[i + 1..];
      match ops[i]
      case Send(end, data) =>
        if end { SendAt(second, first, data); } else { SendAt(first, second, data); }
      case Recv(end, amount) =>
        if end {
          var got := RecvAt(second, first, amount);
          atSecond := atSecond + got;
        } else {
          var got := RecvAt(first, second, amount);
          atFirst := atFirst + got;
        }
    }
    assert ops[|ops|..] == [];
  }
}
