/** Cutting packets out of a byte stream that arrives in arbitrary pieces. */
module Framing {
  import opened Bytes
  import opened Sequences
  import opened Packets
  import opened Codec
  import opened Decoding
  import opened CodecProofs

  /** The errors on which a receiver clears its buffer; on the others it waits for more bytes. */
  predicate IsFatal(e: ProtocolError)
  {
    e.UnknownPacketId? || e.InvalidUtf8?
  }

  /** Packets cut from the front of a buffer, the bytes kept, and whether a fatal error stopped the cutting. */
  datatype Cut = Cut(packets: seq<Packet>, rest: seq<byte>, fatal: bool) {
    function After(earlier: seq<Packet>): Cut
    {
      Cut(earlier + packets, rest, fatal)
    }
  }

  lemma DecodeConsumes(b: seq<byte>)
    ensures Decode(b).Ok? ==> 11 <= Decode(b).next <= |b|
  {
    if Decode(b).Ok? {
      Normalisation(b);
    }
  }

  /** Cuts packets off `b` for as long as decoding succeeds. */
  function Greedy(b: seq<byte>): Cut
    decreases |b|
  {
    DecodeConsumes(b);
    match Decode(b)
    case Ok(p, n) => Greedy(b[n..]).After([p])
    case Err(e) => if IsFatal(e) then Cut([], [], true) else Cut([], b, false)
  }

  lemma GreedyDecoded(b: seq<byte>, p: Packet, n: nat)
    requires Decode(b) == Ok(p, n)
    ensures 11 <= n <= |b| && Greedy(b) == Greedy(b[n..]).After([p])
  {
    DecodeConsumes(b);
  }

  lemma GreedyStopped(b: seq<byte>)
    requires Decode(b).Err?
    ensures Greedy(b) == if IsFatal(Decode(b).error) then Cut([], [], true) else Cut([], b, false)
  {
  }

  lemma DoneOne(all: Cut, done: seq<Packet>, rest: Cut, p: Packet)
    requires all.packets == done + rest.After([p]).packets
    ensures all.packets == done + [p] + rest.packets
  {
    assert done + ([p] + rest.packets) == done + [p] + rest.packets;
  }

  // Reads

  function Concat(chunks: seq<seq<byte>>): seq<byte>
  {
    if chunks == [] then [] else chunks[0] + Concat(chunks[1..])
  }

  /** What a buffer holding `kept` delivers over a sequence of reads, and what it holds in the end. */
  function Feed(kept: seq<byte>, chunks: seq<seq<byte>>): (seq<Packet>, seq<byte>)
    decreases |chunks|
  {
    if chunks == [] then ([], kept)
    else
      var g := Greedy(kept + chunks[0]);
      var later := Feed(g.rest, chunks[1..]);
      (g.packets + later.0, later.1)
  }

  lemma FeedFirst(kept: seq<byte>, chunks: seq<seq<byte>>)
    requires chunks != [] && Greedy(kept + chunks[0]).packets == []
    ensures Feed(kept, chunks) == Feed(Greedy(kept + chunks[0]).rest, chunks[1..])
  {
    var later := Feed(Greedy(kept + chunks[0]).rest, chunks[1..]);
    assert [] + later.0 == later.0;
  }

  // Independence of the chunking

  /** Bytes that arrive later do not change a decoding that has already succeeded or failed for good. */
  lemma DecodeExtends(b: seq<byte>, more: seq<byte>)
    requires Decode(b).Ok? || IsFatal(Decode(b).error)
    ensures Decode(b + more) == Decode(b)
  {
    assert (b + more)[0] == b[0];
    if IdFromByte(b[0]).Some? {
      SameHeader(b, more);
    }
  }

  lemma SameHeader(b: seq<byte>, more: seq<byte>)
    requires 3 <= |b|
    ensures ParseU16(b + more, 1) == ParseU16(b, 1)
    ensures var n := ParseU16(b, 1).value; 3 + n <= |b| ==> (b + more)[3..3 + n] == b[3..3 + n]
  {
    var whole := b + more;
    SameBytes(whole, b[1..3], 1, 2);
    SameBytes(b, b[1..3], 1, 2);
  }

  /** Cutting a longer buffer continues where cutting the shorter one stopped. */
  lemma {:induction false} GreedyContinues(a: seq<byte>, b: seq<byte>)
    ensures var first := Greedy(a);
      Greedy(a + b) == if first.fatal then first else Greedy(first.rest + b).After(first.packets)
    decreases |a|
  {
    if Decode(a).Ok? {
      var p, n := Decode(a).value, Decode(a).next;
      DecodedTwice(a, b, p, n);
      GreedyContinues(a[n..], b);
      AfterTwice(Greedy(Greedy(a[n..]).rest + b), [p], Greedy(a[n..]).packets);
    } else {
      GreedyStopped(a);
      if IsFatal(Decode(a).error) {
        DecodeExtends(a, b);
        GreedyStopped(a + b);
      }
    }
  }

  lemma DecodedTwice(a: seq<byte>, b: seq<byte>, p: Packet, n: nat)
    requires Decode(a) == Ok(p, n)
    ensures 11 <= n <= |a|
    ensures Greedy(a) == Greedy(a[n..]).After([p])
    ensures Greedy(a + b) == Greedy(a[n..] + b).After([p])
  {
    DecodeExtends(a, b);
    GreedyDecoded(a, p, n);
    DropFirst(a, b, n);
    GreedyDecoded(a + b, p, n);
  }

  lemma AfterTwice(c: Cut, a: seq<Packet>, b: seq<Packet>)
    ensures c.After(b).After(a) == c.After(a + b)
  {
    assert a + (b + c.packets) == a + b + c.packets;
  }

  /** The packets before the first fatal error are delivered first under every chunking. When the stream
      has no fatal error, the packets delivered and the bytes kept depend only on the stream. */
  lemma {:induction false} ChunkingIndependence(kept: seq<byte>, chunks: seq<seq<byte>>)
    requires Greedy(kept) == Cut([], kept, false)
    ensures var g, fed := Greedy(kept + Concat(chunks)), Feed(kept, chunks);
      && g.packets <= fed.0
      && (!g.fatal ==> fed == (g.packets, g.rest))
    decreases |chunks|
  {
    if chunks == [] {
      assert kept + [] == kept;
    } else {
      var first := Greedy(kept + chunks[0]);
      var later := Concat(chunks[1..]);
      assert kept + Concat(chunks) == kept + chunks[0] + later;
      GreedyContinues(kept + chunks[0], later);
      if !first.fatal {
        GreedyRest(kept + chunks[0]);
        ChunkingIndependence(first.rest, chunks[1..]);
      }
    }
  }

  /** What cutting leaves behind holds no further packet. */
  lemma {:induction false} GreedyRest(b: seq<byte>)
    requires !Greedy(b).fatal
    ensures Greedy(Greedy(b).rest) == Cut([], Greedy(b).rest, false)
    decreases |b|
  {
    if Decode(b).Ok? {
      DecodeConsumes(b);
      GreedyRest(b[Decode(b).next..]);
    }
  }

  // Streams of encoded packets

  predicate AllEncodable(ps: seq<Packet>)
  {
    forall i :: 0 <= i < |ps| ==> Encodable(ps[i])
  }

  function EncodeAll(ps: seq<Packet>): seq<byte>
    requires AllEncodable(ps)
  {
    if ps == [] then [] else Encode(ps[0]) + EncodeAll(ps[1..])
  }

  /** One whole packet at the front of the stream. */
  lemma FirstIsCut(p: Packet, e: seq<byte>, rest: seq<byte>)
    requires Encodable(p) && e == Encode(p)
    ensures Greedy(e + rest) == Greedy(rest).After([p])
  {
    RoundTrip(p, rest);
    DropFirst(e, rest, |e|);
    assert e[|e|..] + rest == rest;
    GreedyDecoded(e + rest, p, |e|);
  }

  lemma {:induction false} GreedyBack(ps: seq<Packet>, tail: seq<byte>, next: Packet)
    requires AllEncodable(ps) && Encodable(next) && tail < Encode(next)
    ensures Greedy(EncodeAll(ps) + tail) == Cut(ps, tail, false)
    decreases |ps|
  {
    if ps == [] {
      assert [] + tail == tail;
      StrictPrefixWaits(tail, next);
    } else {
      var e, later := Encode(ps[0]), EncodeAll(ps[1..]);
      Assoc(e, later, tail);
      FirstIsCut(ps[0], e, later + tail);
      GreedyBack(ps[1..], tail, next);
      assert [ps[0]] + ps[1..] == ps;
    }
  }

  /** However a stream of whole packets and one partial packet is split, the receiver delivers exactly
      the packets, in order, and keeps exactly the partial one. */
  lemma StreamRoundTrip(ps: seq<Packet>, tail: seq<byte>, next: Packet, chunks: seq<seq<byte>>)
    requires AllEncodable(ps) && Encodable(next) && tail < Encode(next)
    requires Concat(chunks) == EncodeAll(ps) + tail
    ensures Feed([], chunks) == (ps, tail)
  {
    GreedyBack(ps, tail, next);
    assert Decode([]) == Err(PacketTooShort(1, 0));
    assert [] + Concat(chunks) == Concat(chunks);
    ChunkingIndependence([], chunks);
  }

  /** Two different packet sequences never have the same bytes. */
  lemma StreamInjective(ps: seq<Packet>, qs: seq<Packet>)
    requires AllEncodable(ps) && AllEncodable(qs) && EncodeAll(ps) == EncodeAll(qs)
    ensures ps == qs
  {
    GreedyBack(ps, [], PingRequest(0));
    GreedyBack(qs, [], PingRequest(0));
    assert EncodeAll(ps) + [] == EncodeAll(qs) + [];
  }
}
