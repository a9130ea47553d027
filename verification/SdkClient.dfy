/** The client library: the connection task with its waiters, request ids, response decoders, and the way
    from received packets to the application's participants list. */
module SdkClient {
  import opened Bytes
  import opened Packets
  import opened Codec
  import opened Decoding
  import opened CodecIO
  import opened Framing
  import opened Replica
  import opened System
  import opened RequestTheorems
  import opened Replies
  import opened RelayState
  import opened RelayServer
  import opened Management

  // Waiters

  /** The waiters of the connection task, each named by its request, and the completed ones with their
      replies. */
  datatype Waiters = Waiters(pending: map<u64, Packet>, completed: seq<(Packet, Packet)>)

  function Deliver(w: Waiters, p: Packet): Waiters
  {
    var rid := RequestId(p);
    if rid.Some? && rid.value in w.pending then
      Waiters(w.pending - {rid.value}, w.completed + [(w.pending[rid.value], p)])
    else w
  }

  function DeliverAll(w: Waiters, ps: seq<Packet>): Waiters
    decreases |ps|
  {
    if ps == [] then w else DeliverAll(Deliver(w, ps[0]), ps[1..])
  }

  lemma {:induction false} DeliverAppend(w: Waiters, a: seq<Packet>, b: seq<Packet>)
    ensures DeliverAll(w, a + b) == DeliverAll(DeliverAll(w, a), b)
    decreases |a|
  {
    if a == [] {
      assert a + b == b;
    } else {
      assert (a + b)[1..] == a[1..] + b;
      DeliverAppend(Deliver(w, a[0]), a[1..], b);
    }
  }

  lemma DeliverOne(w: Waiters, a: seq<Packet>, p: Packet)
    ensures DeliverAll(w, a + [p]) == Deliver(DeliverAll(w, a), p)
  {
    DeliverAppend(w, a, [p]);
    assert [p][1..] == [];
  }

  predicate AnswersAmong(ps: seq<Packet>, rid: u64)
  {
    exists i :: 0 <= i < |ps| && RequestId(ps[i]) == Some(rid)
  }

  /** The replies among `ps` complete exactly the waiters whose ids they carry, each waiter once, and
      leave all others waiting. */
  lemma {:induction false} WaitersCompleteOnce(w: Waiters, ps: seq<Packet>)
    ensures var w' := DeliverAll(w, ps);
      && w.completed <= w'.completed
      && (forall rid :: rid in w'.pending <==> rid in w.pending && !AnswersAmong(ps, rid))
      && (forall rid :: rid in w'.pending ==> w'.pending[rid] == w.pending[rid])
      && (forall i :: |w.completed| <= i < |w'.completed| ==>
            var rid := RequestId(w'.completed[i].1);
            rid.Some? && rid.value in w.pending && w'.completed[i].0 == w.pending[rid.value]
            && w'.completed[i].1 in ps)
      && (forall i, j :: |w.completed| <= i < j < |w'.completed| ==>
            RequestId(w'.completed[i].1) != RequestId(w'.completed[j].1))
    decreases |ps|
  {
    if ps != [] {
      WaitersCompleteOnce(Deliver(w, ps[0]), ps[1..]);
      forall rid: u64
        ensures AnswersAmong(ps, rid) <==> RequestId(ps[0]) == Some(rid) || AnswersAmong(ps[1..], rid)
      {
        AnswersFirst(ps, rid);
      }
    }
  }

  lemma AnswersFirst(ps: seq<Packet>, rid: u64)
    requires ps != []
    ensures AnswersAmong(ps, rid) <==> RequestId(ps[0]) == Some(rid) || AnswersAmong(ps[1..], rid)
  {
    if AnswersAmong(ps[1..], rid) {
      var i :| 0 <= i < |ps[1..]| && RequestId(ps[1..][i]) == Some(rid);
      assert ps[i + 1] == ps[1..][i];
    }
    if AnswersAmong(ps, rid) && RequestId(ps[0]) != Some(rid) {
      var i :| 0 <= i < |ps| && RequestId(ps[i]) == Some(rid);
      assert ps[1..][i - 1] == ps[i];
    }
  }

  /** The connection task does to the waiters what a receive step of the system does. */
  lemma ReceivingDelivers(k: Client, p: Packet)
    ensures Waiters(AfterReceiving(k, p).waiting, AfterReceiving(k, p).completed)
         == Deliver(Waiters(k.waiting, k.completed), p)
  {
  }

  /** The task that owns the client's TCP connection. `written` is what it has put on the socket, `packets`
      what it has passed on to the event handler. */
  class TcpHandler {
    var accumulator: seq<byte>
    var pending: map<u64, Packet>
    var completed: seq<(Packet, Packet)>
    var packets: seq<Packet>
    var written: seq<byte>

    constructor ()
      ensures accumulator == [] && Waiting() == Waiters(map[], []) && packets == [] && written == []
    {
      accumulator, pending, completed, packets, written := [], map[], [], [], [];
    }

    function Waiting(): Waiters
      reads this
    {
      Waiters(pending, completed)
    }

    /** Registers the waiter, if there is one, and writes the bytes; `writes` is the socket's answer. */
    method HandleOutgoing(bytes: seq<byte>, callback: Option<Packet>, writes: bool) returns (ok: bool)
      requires callback.Some? ==> RequestId(callback.value).Some?
      modifies this
      ensures ok == writes
      ensures written == if writes then old(written) + bytes else old(written)
      ensures pending == if callback.Some? then old(pending)[RequestId(callback.value).value := callback.value]
        else old(pending)
      ensures completed == old(completed) && packets == old(packets) && accumulator == old(accumulator)
    {
      if callback.Some? {
        pending := pending[RequestId(callback.value).value := callback.value];
      }
      if writes {
        written := written + bytes;
      }
      ok := writes;
    }

    /** Handles the result of one read; `None` is a read error. */
    method HandleIncoming(read: Option<seq<byte>>) returns (goOn: bool)
      modifies this
      ensures goOn <==> read.Some? && read.value != []
      ensures !goOn ==> unchanged(this)
      ensures goOn ==>
        var cut := Greedy(old(accumulator) + read.value);
        && accumulator == cut.rest
        && packets == old(packets) + cut.packets
        && Waiting() == DeliverAll(old(Waiting()), cut.packets)
        && written == old(written)
    {
      if read.None? || read.value == [] {
        return false;
      }
      accumulator := accumulator + read.value;
      ghost var all := Greedy(accumulator);
      ghost var done: seq<Packet> := [];
      while true
        invariant all.packets == done + Greedy(accumulator).packets
        invariant all.rest == Greedy(accumulator).rest
        invariant packets == old(packets) + done
        invariant Waiting() == DeliverAll(old(Waiting()), done)
        invariant written == old(written)
        decreases |accumulator|
      {
        DecodeConsumes(accumulator);
        var r := DecodePacket(accumulator);
        if r.Failure? {
          GreedyStopped(accumulator);
          assert done + [] == done;
          if IsFatal(r.error) {
            accumulator := [];
          }
          return true;
        }
        var (packet, size) := r.value;
        GreedyDecoded(accumulator, packet, size);
        DoneOne(all, done, Greedy(accumulator[size..]), packet);
        DeliverOne(old(Waiting()), done, packet);
        Complete(packet);
        packets, done := packets + [packet], done + [packet];
        accumulator := accumulator[size..];
      }
    }

    /** Completes the waiter of the request that `p` answers, if there is one. */
    method Complete(p: Packet)
      modifies `pending, `completed
      ensures Waiting() == Deliver(old(Waiting()), p)
      ensures match RequestId(p)
        case Some(rid) =>
          if rid in old(pending) then
            pending == old(pending) - {rid} && completed == old(completed) + [(old(pending)[rid], p)]
          else pending == old(pending) && completed == old(completed)
        case None => pending == old(pending) && completed == old(completed)
    {
      var rid := RequestId(p);
      if rid.Some? && rid.value in pending {
        completed := completed + [(pending[rid.value], p)];
        pending := pending - {rid.value};
      }
    }
  }

  /** The waiters after a sequence of reads. */
  function WaitersAfter(w: Waiters, kept: seq<byte>, chunks: seq<seq<byte>>): Waiters
  {
    DeliverAll(w, Feed(kept, chunks).0)
  }

  /** Which waiters are completed, and with what, depends only on the bytes received, not on how they were
      split into reads. */
  lemma CompletionIgnoresChunking(w: Waiters, some: seq<seq<byte>>, others: seq<seq<byte>>)
    requires Concat(some) == Concat(others) && !Greedy(Concat(some)).fatal
    ensures WaitersAfter(w, [], some) == WaitersAfter(w, [], others)
  {
    assert Decode([]) == Err(PacketTooShort(1, 0));
    assert [] + Concat(some) == Concat(some);
    ChunkingIndependence([], some);
    ChunkingIndependence([], others);
  }

  // Requests

  /** The request id counter. */
  class RequestIds {
    var counter: u64

    constructor ()
      ensures counter == 1
    {
      counter := 1;
    }

    /** The next id; the counter wraps around. */
    method Next() returns (id: u64)
      modifies this
      ensures id == old(counter) && counter == (old(counter) + 1) % 0x1_0000_0000_0000_0000
    {
      id := counter;
      counter := (counter + 1) % ID_LIMIT;
    }

    /** Takes `n` ids in a row; up to 2^64 of them are all different. */
    method Take(n: nat) returns (ids: seq<u64>)
      modifies this
      ensures |ids| == n && counter == (old(counter) + n) % 0x1_0000_0000_0000_0000
      ensures forall i :: 0 <= i < n ==> ids[i] == (old(counter) + i) % 0x1_0000_0000_0000_0000
      ensures n <= 0x1_0000_0000_0000_0000 ==> forall i, j :: 0 <= i < j < n ==> ids[i] != ids[j]
    {
      ids := [];
      while |ids| < n
        invariant |ids| <= n && counter == (old(counter) + |ids|) % ID_LIMIT
        invariant forall i :: 0 <= i < |ids| ==> ids[i] == (old(counter) + i) % ID_LIMIT
      {
        var id := Next();
        ids := ids + [id];
      }
    }
  }

  // What the requests do with their replies

  function LoginDecoder(p: Packet): Option<(u64, u64)>
  {
    if p.LoginResponse? then Some((p.id, p.voiceToken)) else None
  }

  function VoiceAuthDecoder(p: Packet): Option<bool>
  {
    if p.VoiceAuthResponse? then Some(p.success) else None
  }

  function PingDecoder(p: Packet): Option<()>
  {
    if p.PingResponse? then Some(()) else None
  }

  /** Against this server a login and a ping never fail for an unexpected reply; the login returns the client's own id
      and the token of its own connection. */
  lemma ExpectedErrorsAreUnreachable(s: State, c: u64)
    requires Reachable(s) && c in s.conns && s.conns[c].down != []
    ensures var k, p := s.conns[c].client, s.conns[c].down[0];
      RequestId(p).Some? ==>
        && RequestId(p).value in k.waiting
        && var request := k.waiting[RequestId(p).value];
           && (request.LoginRequest? ==> LoginDecoder(p) == Some((c, s.conns[c].handler.token)))
           && (request.PingRequest? ==> PingDecoder(p) == Some(()))
  {
    RepliesFindTheirWaiters(s, c);
    UnderWayIsReply(s.conns[c], 0);
    RepliesAreTrue(s, c, s.conns[c].down[0]);
  }

  /** Nor does voice authentication with the token of a live session. */
  lemma VoiceAuthenticationSucceeds(
      r: Relay, src: Address, rid: u64, token: u64, sent: seq<Datagram>, r': Relay, id: u64)
    requires HoldsToken(r, id, token)
    requires Responds(r, src, Encode(VoiceAuthRequest(rid, token)), sent, false, r')
    ensures |sent| == 1 && sent[0].to == src && Decode(sent[0].bytes).Ok?
    ensures RequestId(Decode(sent[0].bytes).value) == Some(rid)
    ensures VoiceAuthDecoder(Decode(sent[0].bytes).value) == Some(true)
  {
    AuthenticationAnswered(r, src, rid, token, sent, r', id);
  }

  // From packets to the participants list

  /** The event handler tells the application about the meaningful packets, in order. */
  method ListenToPackets(packets: seq<Packet>) returns (events: seq<ClientEvent>, ghost at: seq<nat>)
    ensures ToldInOrder(packets, events, at) && events == EventsOf(packets)
  {
    var i := 0;
    events, at := [], [];
    while i < |packets|
      invariant 0 <= i <= |packets|
      invariant ToldInOrder(packets[..i], events, at) && events == EventsOf(packets[..i])
    {
      OneMoreTold(packets, i, events, at);
      var event := ToEvent(packets[i]);
      if event.Some? {
        events, at := events + [event.value], at + [i];
      }
      i := i + 1;
    }
    assert packets[..i] == packets;
  }

  /** The application's page follows the events; its list becomes what the packets behind them make of it. */
  method ShowEvents(page: RoomPage, events: seq<ClientEvent>, ghost packets: seq<Packet>)
    requires events == EventsOf(packets)
    modifies page
    ensures page.participants == OnPackets(old(page.participants), packets)
  {
    var i := 0;
    ghost var rest := packets;
    while i < |events|
      invariant 0 <= i <= |events| && EventsOf(rest) == events[i..]
      invariant OnPackets(page.participants, rest) == OnPackets(old(page.participants), packets)
    {
      ghost var j := NextEvent(page.participants, rest);
      page.OnServerEvent(events[i]);
      rest, i := rest[j + 1..], i + 1;
    }
    NoEvents(page.participants, rest);
  }

  /** The next event is about the first packet that is not meaningless; those before it change nothing. */
  lemma {:induction false} NextEvent(m: Participants, ps: seq<Packet>) returns (j: nat)
    requires EventsOf(ps) != []
    ensures j < |ps| && ToEvent(ps[j]) == Some(EventsOf(ps)[0]) && EventsOf(ps[j + 1..]) == EventsOf(ps)[1..]
    ensures OnPackets(m, ps) == OnPackets(OnPacket(m, ps[j]), ps[j + 1..])
    decreases |ps|
  {
    FirstPacket(m, ps);
    if ToEvent(ps[0]).Some? {
      return 0;
    }
    var rest := ps[1..];
    var i := NextEvent(m, rest);
    j := i + 1;
    assert rest[i + 1..] == ps[j + 1..] && rest[i] == ps[j];
  }

  lemma QuietPacket(m: Participants, p: Packet)
    requires ToEvent(p).None?
    ensures OnPacket(m, p) == m
  {
  }

  lemma Prepended<T>(first: Option<T>, rest: seq<T>, all: seq<T>)
    requires all == (match first case Some(x) => [x] case None => []) + rest
    ensures first.Some? ==> all != [] && all[0] == first.value && all[1..] == rest
    ensures first.None? ==> all == rest
  {
  }

  lemma FirstPacket(m: Participants, ps: seq<Packet>)
    requires ps != []
    ensures match ToEvent(ps[0])
      case Some(e) => EventsOf(ps) != [] && EventsOf(ps)[0] == e && EventsOf(ps)[1..] == EventsOf(ps[1..])
      case None => EventsOf(ps) == EventsOf(ps[1..]) && OnPackets(m, ps) == OnPackets(m, ps[1..])
    ensures OnPackets(m, ps) == OnPackets(OnPacket(m, ps[0]), ps[1..])
  {
    Prepended(ToEvent(ps[0]), EventsOf(ps[1..]), EventsOf(ps));
    if ToEvent(ps[0]).None? {
      QuietPacket(m, ps[0]);
    }
  }

  lemma {:induction false} NoEvents(m: Participants, ps: seq<Packet>)
    requires EventsOf(ps) == []
    ensures OnPackets(m, ps) == m
    decreases |ps|
  {
    if ps != [] {
      FirstPacket(m, ps);
      NoEvents(m, ps[1..]);
    }
  }

  lemma OneMoreTold(packets: seq<Packet>, i: nat, events: seq<ClientEvent>, at: seq<nat>)
    requires i < |packets| && ToldInOrder(packets[..i], events, at) && events == EventsOf(packets[..i])
    ensures match ToEvent(packets[i])
      case Some(e) =>
        && ToldInOrder(packets[..i + 1], events + [e], at + [i]) && EventsOf(packets[..i + 1]) == events + [e]
      case None => ToldInOrder(packets[..i + 1], events, at) && EventsOf(packets[..i + 1]) == events
  {
    var p := packets[i];
    assert packets[..i + 1] == packets[..i] + [p];
    EventsAppend(packets[..i], [p]);
    assert [p][1..] == [];
    if ToEvent(p).Some? {
      EventsTell(p, ToEvent(p).value);
      AnotherTold(packets[..i], p, events, ToEvent(p).value, at);
      return;
    }
    EventsTell(p, JoinedVoice(0));
    assert events + [] == events;
  }

  lemma AnotherTold(packets: seq<Packet>, p: Packet, events: seq<ClientEvent>, e: ClientEvent, at: seq<nat>)
    requires ToldInOrder(packets, events, at) && Tells(p, e)
    ensures ToldInOrder(packets + [p], events + [e], at + [|packets|])
  {
    var longer := at + [|packets|];
    assert longer[|at|] == |packets|;
    forall j | 0 <= j < |packets| && j in at
      ensures j in longer
    {
      var k :| 0 <= k < |at| && at[k] == j;
      assert longer[k] == j;
    }
  }

  /** One read of the connection, all the way to the application and its participants list. */
  method ReceiveBytes(tcp: TcpHandler, page: RoomPage, bytes: seq<byte>)
      returns (events: seq<ClientEvent>, ghost at: seq<nat>)
    requires bytes != []
    modifies tcp, page
    ensures ToldInOrder(Greedy(old(tcp.accumulator) + bytes).packets, events, at)
    ensures page.participants
         == OnPackets(old(page.participants), Greedy(old(tcp.accumulator) + bytes).packets)
    ensures tcp.accumulator == Greedy(old(tcp.accumulator) + bytes).rest
  {
    var before := tcp.packets;
    var _ := tcp.HandleIncoming(Some(bytes));
    events, at := ListenToPackets(tcp.packets[|before|..]);
    ShowEvents(page, events, tcp.packets[|before|..]);
    assert tcp.packets[|before|..] == Greedy(old(tcp.accumulator) + bytes).packets;
  }
}
