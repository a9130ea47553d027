/** The system's packet queues are faithful to the byte streams that carry them. */
module WireTheorems {
  import opened Bytes
  import opened Packets
  import opened Codec
  import opened Framing
  import opened Management
  import opened System
  import opened Registration
  import opened Invariants
  import opened Crashes

  ghost predicate ConnFits(k: Conn)
  {
    AllEncodable(k.up) && AllEncodable(k.down)
  }

  ghost predicate ChannelFits(channel: seq<BroadcastMessage>)
  {
    forall i :: 0 <= i < |channel| ==> Encodable(channel[i].packet)
  }

  ghost predicate WiresFit(s: State)
  {
    && ChannelFits(s.channel)
    && forall c {:trigger Here(s, c)} :: Here(s, c) ==> ConnFits(s.conns[c])
  }

  lemma OwnFits(s: State, s': State, step: Step)
    requires NextBy(s, s', step) && OwnerOf(step).Some? && ChannelFits(s.channel)
    requires OwnerOf(step).value in s.conns && ConnFits(s.conns[OwnerOf(step).value])
    ensures ChannelFits(s'.channel)
    ensures OwnerOf(step).value in s'.conns && ConnFits(s'.conns[OwnerOf(step).value])
  {
  }

  lemma WiresStep(s: State, s': State, step: Step)
    requires WiresFit(s) && NextBy(s, s', step)
    ensures WiresFit(s')
  {
    if OwnerOf(step).Some? {
      StepIsLocal(s, s', step);
      assert Here(s, OwnerOf(step).value);
      OwnFits(s, s', step);
    }
    forall c | Here(s', c)
      ensures ConnFits(s'.conns[c])
    {
      assert c in s.conns ==> Here(s, c);
    }
  }

  /** In every reachable state the packets under way can be encoded without a panic, and however the
      network splits their bytes, the receivers' buffers give back exactly these packets, in order. */
  lemma BytesCarryPackets(s: State, c: u64, up: seq<seq<byte>>, down: seq<seq<byte>>)
    requires Reachable(s) && c in s.conns
    ensures AllEncodable(s.conns[c].up) && AllEncodable(s.conns[c].down)
    ensures Concat(up) == EncodeAll(s.conns[c].up) ==> Feed([], up) == (s.conns[c].up, [])
    ensures Concat(down) == EncodeAll(s.conns[c].down) ==> Feed([], down) == (s.conns[c].down, [])
  {
    forall x, y, step | WiresFit(x) && NextBy(x, y, step)
      ensures WiresFit(y)
    {
      WiresStep(x, y, step);
    }
    HoldsWhenReachable(s, WiresFit);
    assert Here(s, c);
    SmallFits(PingRequest(0));
    if Concat(up) == EncodeAll(s.conns[c].up) {
      assert EncodeAll(s.conns[c].up) + [] == EncodeAll(s.conns[c].up);
      StreamRoundTrip(s.conns[c].up, [], PingRequest(0), up);
    }
    if Concat(down) == EncodeAll(s.conns[c].down) {
      assert EncodeAll(s.conns[c].down) + [] == EncodeAll(s.conns[c].down);
      StreamRoundTrip(s.conns[c].down, [], PingRequest(0), down);
    }
  }
}
