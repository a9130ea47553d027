/** The limits of recovery: which frames block a connection for good, and when it depends on the splitting of
    the stream what is lost after a fatal error. */
module Recovery {
  import opened Bytes
  import opened Sequences
  import opened Packets
  import opened Codec
  import opened Decoding
  import opened Framing
  import opened FrameRoom

  // Buffers that block

  /** The buffer starts with the header of a known type. */
  predicate HasHeader(b: seq<byte>)
  {
    3 <= |b| && IdFromByte(b[0]).Some?
  }

  /** The payload length in the header. */
  function LengthOf(b: seq<byte>): nat
    requires HasHeader(b)
  {
    ParseU16(b, 1).value
  }

  /** What has arrived of the payload. */
  function Arrived(b: seq<byte>): seq<byte>
    requires HasHeader(b)
  {
    if 3 + LengthOf(b) <= |b| then b[3..3 + LengthOf(b)] else b[3..]
  }

  /** The payload at the front of the buffer is too short for its fields, whatever it will be. */
  predicate IsStuck(b: seq<byte>)
  {
    HasHeader(b) && NoRoom(IdFromByte(b[0]).value, Arrived(b), LengthOf(b))
  }

  /** The receiver delivers nothing and drops nothing. */
  predicate Waits(b: seq<byte>)
  {
    Greedy(b) == Cut([], b, false)
  }

  lemma HeaderStays(b: seq<byte>, more: seq<byte>)
    requires HasHeader(b)
    ensures var w := b + more;
      HasHeader(w) && w[0] == b[0] && LengthOf(w) == LengthOf(b) && Arrived(b) <= Arrived(w)
  {
    SameHeader(b, more);
    var w := b + more;
    if 3 + LengthOf(b) > |b| {
      assert Arrived(b) == w[3..|b|];
    }
  }

  /** A frame that is all there waits if and only if its fields do not fit its payload. */
  lemma CompleteFrameWaits(b: seq<byte>)
    requires HasHeader(b) && 3 + LengthOf(b) <= |b|
    ensures Waits(b) <==> IsStuck(b)
  {
    CompleteExact(IdFromByte(b[0]).value, Arrived(b));
    GreedyOfFrame(b);
  }

  lemma GreedyOfFrame(b: seq<byte>)
    requires HasHeader(b) && 3 + LengthOf(b) <= |b|
    ensures Waits(b) <==> TooShort(ParsePayload(IdFromByte(b[0]).value, Arrived(b)))
  {
    PayloadErrors(IdFromByte(b[0]).value, Arrived(b));
    if Decode(b).Ok? {
      GreedyDecoded(b, Decode(b).value, Decode(b).next);
    } else {
      GreedyStopped(b);
    }
  }

  lemma StuckWaits(b: seq<byte>)
    requires IsStuck(b)
    ensures Waits(b)
  {
    if 3 + LengthOf(b) <= |b| {
      CompleteFrameWaits(b);
    } else {
      GreedyStopped(b);
    }
  }

  lemma StuckStays(b: seq<byte>, more: seq<byte>)
    requires IsStuck(b)
    ensures IsStuck(b + more)
  {
    HeaderStays(b, more);
    NoRoomStays(IdFromByte(b[0]).value, Arrived(b), Arrived(b + more), LengthOf(b));
  }

  /** The bytes of payload `d` that a header and its beginning lack. */
  lemma Completed(b: seq<byte>, d: seq<byte>)
    requires 3 <= |b| <= 3 + |d| && b[3..] == d[..|b| - 3]
    ensures var w := b + d[|b| - 3..]; |w| == 3 + |d| && w[3..3 + |d|] == d
  {
    var more := d[|b| - 3..];
    DropFirst(b, more, 3);
    SplitAt(d, |b| - 3);
    assert (b + more)[3..3 + |d|] == (b + more)[3..];
  }

  /** There is a continuation that completes the frame and does not leave it waiting. */
  lemma NotStuckMoves(b: seq<byte>) returns (more: seq<byte>)
    requires HasHeader(b) && !IsStuck(b)
    ensures !Waits(b + more)
  {
    var n := LengthOf(b);
    if 3 + n <= |b| {
      more := [];
      assert b + more == b;
    } else {
      var d := Completion(IdFromByte(b[0]).value, Arrived(b), n);
      more := d[|b| - 3..];
      HeaderStays(b, more);
      Completed(b, d);
    }
    CompleteFrameWaits(b + more);
  }

  /** A buffer with the header of a known type blocks its connection, whatever arrives later, if and only if the
      payload has no room for its fields, as told by the header, the length prefixes there are, and texts that
      are complete. */
  lemma BlocksExactly(b: seq<byte>)
    requires HasHeader(b)
    ensures (forall more: seq<byte> :: Waits(b + more)) <==> IsStuck(b)
  {
    if IsStuck(b) {
      forall more: seq<byte>
        ensures Waits(b + more)
      {
        StuckStays(b, more);
        StuckWaits(b + more);
      }
    } else {
      var more := NotStuckMoves(b);
    }
  }

  /** Then the connection delivers nothing any more and keeps everything, however it arrives. */
  lemma {:induction false} StuckForever(b: seq<byte>, chunks: seq<seq<byte>>)
    requires IsStuck(b)
    ensures Feed(b, chunks) == ([], b + Concat(chunks))
    decreases |chunks|
  {
    if chunks == [] {
      assert b + [] == b;
    } else {
      var next := b + chunks[0];
      StuckStays(b, chunks[0]);
      StuckWaits(next);
      FeedFirst(b, chunks);
      StuckForever(next, chunks[1..]);
      Assoc(b, chunks[0], Concat(chunks[1..]));
    }
  }

  /** The header of a ping with a payload of 0 or 2 bytes blocks, although in the second case the frame is not
      complete yet; with a payload of 8 bytes it does not. */
  lemma ShortPingsBlock()
    ensures IsStuck([0x06, 0, 0]) && IsStuck([0x06, 0, 2, 0]) && !IsStuck([0x06, 0, 8])
  {
    TwoBytes([0x06, 0, 0], 1);
    TwoBytes([0x06, 0, 2, 0], 1);
    TwoBytes([0x06, 0, 8], 1);
  }

  // What is lost after a fatal error

  predicate FailsFatally(b: seq<byte>)
  {
    Decode(b).Err? && IsFatal(Decode(b).error)
  }

  /** What is left of a stream once the packets at its front have been cut off. */
  function AfterPackets(t: seq<byte>): seq<byte>
    decreases |t|
  {
    DecodeConsumes(t);
    match Decode(t)
    case Ok(_, n) => AfterPackets(t[n..])
    case Err(_) => t
  }

  /** Cutting `b` delivers nothing and keeps nothing. */
  predicate YieldsNothing(b: seq<byte>)
  {
    Greedy(b).packets == [] && Greedy(b).rest == []
  }

  /** Wherever a read can end such that the error at the front of `u` is noticed, the bytes after it yield
      nothing. */
  ghost predicate NothingBehind(u: seq<byte>)
  {
    forall m :: 0 < m <= |u| && FailsFatally(u[..m]) ==> YieldsNothing(u[m..])
  }

  lemma FatalStays(u: seq<byte>, m: nat, n: nat)
    requires m <= n <= |u| && FailsFatally(u[..m])
    ensures FailsFatally(u[..n])
  {
    DecodeExtends(u[..m], u[m..n]);
    assert u[..n] == u[..m] + u[m..n];
  }

  /** One read of bytes that yield nothing together with the later ones. */
  lemma OneRead(w: seq<byte>, x: seq<byte>, later: seq<byte>)
    requires YieldsNothing(w) && w == x + later
    ensures Greedy(x) == Cut([], x, false) || (Greedy(x) == Cut([], [], true) && FailsFatally(x))
  {
    GreedyContinues(x, later);
    if Decode(x).Err? {
      GreedyStopped(x);
    }
  }

  lemma RestAfter(u: seq<byte>, m: nat, x: seq<byte>, later: seq<byte>)
    requires m <= |u| && u[m..] == x + later
    ensures m + |x| <= |u| && u[m + |x|..] == later
  {
    assert u[m + |x|..] == u[m..][|x|..];
  }

  /** After a fatal error with nothing behind it, all chunkings of the remaining bytes yield nothing. */
  lemma {:induction false} NothingFed(u: seq<byte>, m: nat, kept: seq<byte>, chunks: seq<seq<byte>>)
    requires NothingBehind(u) && 0 < m <= |u| && FailsFatally(u[..m])
    requires kept + Concat(chunks) == u[m..] && Waits(kept)
    ensures Feed(kept, chunks) == ([], [])
    decreases |chunks|
  {
    if chunks == [] {
      assert kept == u[m..];
      return;
    }
    var x, later := kept + chunks[0], Concat(chunks[1..]);
    Assoc(kept, chunks[0], later);
    OneRead(u[m..], x, later);
    FeedFirst(kept, chunks);
    if Waits(x) {
      NothingFed(u, m, x, chunks[1..]);
      return;
    }
    RestAfter(u, m, x, later);
    FatalStays(u, m, m + |x|);
    StartsOver(chunks[1..]);
    NothingFed(u, m + |x|, [], chunks[1..]);
  }

  /** An empty buffer. */
  lemma StartsOver(chunks: seq<seq<byte>>)
    ensures [] + Concat(chunks) == Concat(chunks) && Waits([])
  {
    GreedyStopped([]);
  }

  lemma {:induction false} AfterMore(a: seq<byte>, b: seq<byte>)
    ensures AfterPackets(a + b) == if Greedy(a).fatal then AfterPackets(a) + b else AfterPackets(Greedy(a).rest + b)
    ensures Greedy(a).fatal ==> FailsFatally(AfterPackets(a))
    decreases |a|
  {
    if Decode(a).Ok? {
      var p, n := Decode(a).value, Decode(a).next;
      DecodedTwice(a, b, p, n);
      DecodeExtends(a, b);
      DropFirst(a, b, n);
      AfterMore(a[n..], b);
    } else {
      GreedyStopped(a);
      if IsFatal(Decode(a).error) {
        DecodeExtends(a, b);
      }
    }
  }

  lemma FeedStep(kept: seq<byte>, chunks: seq<seq<byte>>, x: seq<byte>)
    requires chunks != [] && x == kept + chunks[0]
    ensures var g := Greedy(x);
      var later := Feed(g.rest, chunks[1..]);
      Feed(kept, chunks) == (g.packets + later.0, later.1)
  {
  }

  lemma FatalWithin(x: seq<byte>, later: seq<byte>)
    requires Greedy(x + later).fatal && NothingBehind(AfterPackets(x + later)) && !Greedy(x).fatal
    ensures Waits(Greedy(x).rest)
    ensures var t := Greedy(x).rest + later;
      && Greedy(t).fatal && NothingBehind(AfterPackets(t))
      && Greedy(x + later).packets == Greedy(x).packets + Greedy(t).packets
  {
    GreedyContinues(x, later);
    AfterMore(x, later);
    GreedyRest(x);
  }

  /** If there is nothing behind the first fatal error, every chunking delivers the packets before it. */
  lemma {:induction false} AllAgree(t: seq<byte>, kept: seq<byte>, chunks: seq<seq<byte>>)
    requires t == kept + Concat(chunks) && Waits(kept) && Greedy(t).fatal && NothingBehind(AfterPackets(t))
    ensures Feed(kept, chunks) == (Greedy(t).packets, [])
    decreases |chunks|
  {
    assert kept + [] == kept;
    assert chunks != [];
    var x, later := kept + chunks[0], Concat(chunks[1..]);
    Assoc(kept, chunks[0], later);
    FeedStep(kept, chunks, x);
    if Greedy(x).fatal {
      GreedyContinues(x, later);
      AfterMore(x, later);
      ErrorRead(x, later, chunks[1..]);
      return;
    }
    FatalWithin(x, later);
    var kept' := Greedy(x).rest;
    AllAgree(kept' + later, kept', chunks[1..]);
    assert t == x + later;
  }

  /** The read that notices the error. */
  lemma ErrorRead(x: seq<byte>, later: seq<byte>, chunks: seq<seq<byte>>)
    requires Greedy(x).fatal && later == Concat(chunks) && NothingBehind(AfterPackets(x) + later)
    ensures Greedy(x).rest == [] && Feed([], chunks) == ([], []) && Greedy(x).packets + [] == Greedy(x).packets
  {
    var u, m := AfterPackets(x) + later, |AfterPackets(x)|;
    AfterMore(x, []);
    FatalKeepsNothing(x);
    assert u[..m] == AfterPackets(x) && u[m..] == later;
    StartsOver(chunks);
    NothingFed(u, m, [], chunks);
  }

  lemma DecodeShortens(b: seq<byte>, k: nat)
    requires Decode(b).Ok? && Decode(b).next <= k <= |b|
    ensures Decode(b[..k]) == Decode(b)
  {
    DecodeConsumes(b);
    SplitAt(b, k);
    SameHeader(b[..k], b[k..]);
  }

  /** A packet in front of what is cut. */
  lemma PacketBefore(e: seq<byte>, a: seq<byte>, p: Packet)
    requires Decode(e) == Ok(p, |e|)
    ensures Greedy(e + a) == Greedy(a).After([p])
  {
    DecodeExtends(e, a);
    GreedyDecoded(e + a, p, |e|);
    assert (e + a)[|e|..] == a;
  }

  /** A stream ends behind its packets in `x + y`, and `x` fails: cut off `y`, and the rest is cut like the
      stream. */
  lemma {:induction false} CutBehind(t: seq<byte>, x: seq<byte>, y: seq<byte>) returns (a: seq<byte>)
    requires AfterPackets(t) == x + y && FailsFatally(x)
    ensures t == a + y && Greedy(a) == Cut(Greedy(t).packets, [], true)
    decreases |t|
  {
    if Decode(t).Err? {
      a := x;
      DecodeExtends(x, y);
      GreedyStopped(t);
      GreedyStopped(x);
      return;
    }
    var p, n := Decode(t).value, Decode(t).next;
    DecodeConsumes(t);
    var b := CutBehind(t[n..], x, y);
    a := t[..n] + b;
    DecodeShortens(t, n);
    PacketBefore(t[..n], b, p);
    GreedyDecoded(t, p, n);
    Assoc(t[..n], b, y);
    SplitAt(t, n);
  }

  /** A read that ends within the error's frame and another for the rest. */
  lemma FedInTwo(a: seq<byte>, b: seq<byte>)
    requires Greedy(a).fatal && Greedy(a).rest == []
    ensures Concat([a, b]) == a + b
    ensures Feed([], [a, b]) == (Greedy(a).packets + Greedy(b).packets, Greedy(b).rest)
  {
    var last: seq<seq<byte>> := [b];
    assert [a, b][1..] == last;
    OneChunk(b);
    assert [] + a == a;
    FeedStep([], [a, b], a);
  }

  lemma OneChunk(b: seq<byte>)
    ensures Concat([b]) == b && Feed([], [b]) == (Greedy(b).packets, Greedy(b).rest)
  {
    var last: seq<seq<byte>> := [b];
    assert last[1..] == [] && b + [] == b && [] + b == b;
    assert Greedy(b).packets + [] == Greedy(b).packets;
  }

  /** What a receiver delivers and keeps does not depend on how the stream is split if and only if there is no
      fatal error, or nothing to be had behind the first one wherever a read may end. */
  lemma ChunkingDecides(t: seq<byte>)
    ensures (forall chunks :: Concat(chunks) == t ==> Feed([], chunks) == (Greedy(t).packets, Greedy(t).rest))
       <==> (Greedy(t).fatal ==> NothingBehind(AfterPackets(t)))
  {
    if Greedy(t).fatal ==> NothingBehind(AfterPackets(t)) {
      forall chunks | Concat(chunks) == t
        ensures Feed([], chunks) == (Greedy(t).packets, Greedy(t).rest)
      {
        Agrees(t, chunks);
      }
    } else {
      var u := AfterPackets(t);
      var m :| 0 < m <= |u| && FailsFatally(u[..m]) && !YieldsNothing(u[m..]);
      SplitAt(u, m);
      var a := CutBehind(t, u[..m], u[m..]);
      FedInTwo(a, u[m..]);
      Differs(t, a, u[m..]);
    }
  }

  lemma {:induction false} FatalKeepsNothing(b: seq<byte>)
    requires Greedy(b).fatal
    ensures Greedy(b).rest == []
    decreases |b|
  {
    if Decode(b).Ok? {
      DecodeConsumes(b);
      FatalKeepsNothing(b[Decode(b).next..]);
    }
  }

  lemma Agrees(t: seq<byte>, chunks: seq<seq<byte>>)
    requires Concat(chunks) == t && (Greedy(t).fatal ==> NothingBehind(AfterPackets(t)))
    ensures Feed([], chunks) == (Greedy(t).packets, Greedy(t).rest)
  {
    assert [] + Concat(chunks) == t;
    assert Decode([]) == Err(PacketTooShort(1, 0));
    if Greedy(t).fatal {
      FatalKeepsNothing(t);
      AllAgree(t, [], chunks);
    } else {
      ChunkingIndependence([], chunks);
    }
  }

  lemma Differs(t: seq<byte>, a: seq<byte>, b: seq<byte>)
    requires Greedy(t).fatal && Greedy(a) == Cut(Greedy(t).packets, [], true) && !YieldsNothing(b)
    ensures Feed([], [a, b]) != (Greedy(t).packets, Greedy(t).rest)
  {
    FedInTwo(a, b);
    FatalKeepsNothing(t);
    assert |Greedy(t).packets + Greedy(b).packets| == |Greedy(t).packets| + |Greedy(b).packets|;
  }

  /** An unknown packet id and a packet behind it: read together the packet is lost, read apart it is not. */
  lemma LossDependsOnChunking(p: Packet)
    requires Encodable(p)
    ensures !NothingBehind([0xFF] + Encode(p))
    ensures Feed([], [[0xFF] + Encode(p)]).0 == []
    ensures Feed([], [[0xFF], Encode(p)]).0 == [p]
  {
    var e := Encode(p);
    var t := [0xFF] + e;
    UnknownId(t);
    UnknownId([0xFF]);
    assert t[..1] == [0xFF] && t[1..] == e;
    OnePacket(p, e);
    OneChunk(t);
    FedInTwo([0xFF], e);
  }

  lemma UnknownId(t: seq<byte>)
    requires t != [] && t[0] == 0xFF
    ensures FailsFatally(t) && Greedy(t) == Cut([], [], true)
  {
    GreedyStopped(t);
  }

  lemma OnePacket(p: Packet, e: seq<byte>)
    requires Encodable(p) && e == Encode(p)
    ensures Greedy(e) == Cut([p], [], false)
  {
    FirstIsCut(p, e, []);
    assert e + [] == e;
    GreedyStopped([]);
    assert [p] + [] == [p];
  }
}
