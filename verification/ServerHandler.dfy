/** The management server and its connection handlers as objects that share the users map, the broadcast
    channel and the relay's event queue, proved against the work lists of `Management`. */
module ServerHandler {
  import opened Bytes
  import opened Utf8Text
  import opened Packets
  import opened Codec
  import opened Decoding
  import opened CodecIO
  import opened Framing
  import opened Management
  import opened System

  /** How handling a packet may end. The first three leave the connection open. */
  datatype Outcome = Done | WriteFailed | UserNotFound | Panicked

  /** What a handler can see and change: the users, the bytes written on its own connection, the relay's
      event queue and the broadcast channel. */
  datatype View = View(users: Users, written: seq<byte>, events: seq<Event>, channel: seq<BroadcastMessage>)

  // What carrying out a work list means

  /** The entries of the logged-in users at the addresses in `order`. */
  function Infos(users: Users, order: seq<Address>): seq<ParticipantInfo>
    requires forall i :: 0 <= i < |order| ==> order[i] in users
  {
    if order == [] then []
    else
      var last := order[|order| - 1];
      Infos(users, order[..|order| - 1]) + if users[last].username.Some? then [InfoOf(users[last])] else []
  }

  lemma OneMoreInfo(users: Users, order: seq<Address>, a: Address)
    requires a in users && forall i :: 0 <= i < |order| ==> order[i] in users
    ensures Infos(users, order + [a])
         == Infos(users, order) + if users[a].username.Some? then [InfoOf(users[a])] else []
  {
    assert (order + [a])[..|order|] == order;
  }

  /** `order` names every address in `all` once. */
  predicate Visits(order: seq<Address>, all: set<Address>)
  {
    && (forall i, j :: 0 <= i < j < |order| ==> order[i] != order[j])
    && (forall i :: 0 <= i < |order| ==> order[i] in all)
    && (forall a :: a in all ==> a in order)
  }

  lemma OneMoreVisit(order: seq<Address>, all: set<Address>, a: Address)
    requires Visits(order, all) && a !in all
    ensures Visits(order + [a], all + {a})
  {
  }

  /** One more user listed and one fewer left. */
  lemma OneMoreListed(users: Users, order: seq<Address>, left: set<Address>, a: Address)
    requires a in left && left <= users.Keys && Visits(order, users.Keys - left)
    ensures Visits(order + [a], users.Keys - (left - {a}))
    ensures Infos(users, order + [a])
         == Infos(users, order) + if users[a].username.Some? then [InfoOf(users[a])] else []
  {
    OneMoreInfo(users, order, a);
    OneMoreVisit(order, users.Keys - left, a);
    assert users.Keys - (left - {a}) == users.Keys - left + {a};
  }

  /** `ps` lists the logged-in users, each once, in some order of visiting the map. */
  ghost predicate Lists(ps: seq<ParticipantInfo>, users: Users)
  {
    exists order :: Visits(order, users.Keys) && ps == Infos(users, order)
  }

  /** `ps` lists the logged-in users as they are now, each once: the `i`-th entry is that of the user at `at[i]`. */
  ghost predicate ListsEach(ps: seq<ParticipantInfo>, at: seq<Address>, users: Users)
  {
    && |at| == |ps| && (forall i, j :: 0 <= i < j < |at| ==> at[i] != at[j])
    && (forall a :: a in users && users[a].username.Some? ==> a in at)
    && forall i :: 0 <= i < |at| ==>
         && at[i] in users && users[at[i]].username.Some?
         && var u := users[at[i]]; ps[i] == ParticipantInfo(u.id, u.username.value, u.inVoice, u.isMuted)
  }

  /** The addresses of the logged-in users, in the order of visiting. */
  function Members(users: Users, order: seq<Address>): seq<Address>
    requires forall i :: 0 <= i < |order| ==> order[i] in users
  {
    if order == [] then []
    else
      var last := order[|order| - 1];
      Members(users, order[..|order| - 1]) + if users[last].username.Some? then [last] else []
  }

  lemma {:induction false} MembersOnly(users: Users, order: seq<Address>, a: Address)
    requires forall i :: 0 <= i < |order| ==> order[i] in users
    ensures a in Members(users, order) <==> a in order && users[a].username.Some?
    decreases |order|
  {
    if order != [] {
      MembersOnly(users, order[..|order| - 1], a);
      assert order == order[..|order| - 1] + [order[|order| - 1]];
    }
  }

  lemma {:induction false} EachListed(users: Users, order: seq<Address>)
    requires forall i, j :: 0 <= i < j < |order| ==> order[i] != order[j]
    requires forall i :: 0 <= i < |order| ==> order[i] in users
    ensures var ps, at := Infos(users, order), Members(users, order);
      && |at| == |ps| && (forall i, j :: 0 <= i < j < |at| ==> at[i] != at[j])
      && forall i :: 0 <= i < |at| ==>
           && at[i] in users && users[at[i]].username.Some?
           && var u := users[at[i]]; ps[i] == ParticipantInfo(u.id, u.username.value, u.inVoice, u.isMuted)
    decreases |order|
  {
    if order != [] {
      var shorter, last := order[..|order| - 1], order[|order| - 1];
      EachListed(users, shorter);
      MembersOnly(users, shorter, last);
    }
  }

  lemma AllListed(users: Users, order: seq<Address>)
    requires Visits(order, users.Keys)
    ensures ListsEach(Infos(users, order), Members(users, order), users)
  {
    EachListed(users, order);
    forall a | a in users && users[a].username.Some?
      ensures a in Members(users, order)
    {
      MembersOnly(users, order, a);
    }
  }

  /** The packets that no client should send. */
  predicate Unexpected(p: Packet)
  {
    && !p.LoginRequest? && !p.JoinVoiceChannelRequest? && !p.LeaveVoiceChannelRequest?
    && !p.ChatMessageRequest? && !p.PingRequest? && !p.UserMuteState?
  }

  /** The reply `p` has been written, unless it cannot be encoded or the socket takes no data. */
  predicate Replied(before: seq<byte>, p: Packet, writes: bool, o: Outcome, after: seq<byte>)
  {
    if !Encodable(p) then o == Panicked && after == before
    else if !writes then o == WriteFailed && after == before
    else o == Done && after == before + Encode(p)
  }

  /** Carrying out the work list `todo` without interruption leads from `v` to `v'` with outcome `o`;
      `writes` tells whether the socket accepts data. */
  ghost predicate Carries(v: View, todo: seq<Action>, writes: bool, v': View, o: Outcome)
    decreases |todo|, 0
  {
    if todo == [] then v' == v && o == Done
    else
      match todo[0]
      case Reply(p) => Writes(v, p, todo[1..], writes, v', o)
      case Emit(e) => Carries(v.(events := v.events + [e]), todo[1..], writes, v', o)
      case Broadcast(m) =>
        if Encodable(m.packet) then Carries(v.(channel := v.channel + [m]), todo[1..], writes, v', o)
        else v' == v && o == Panicked
      case TakeSnapshot(rid, id, token) =>
        exists ps :: Lists(ps, v.users) && Writes(v, LoginResponse(rid, id, token, ps), todo[1..], writes, v', o)
      case Collecting(_, _, _, _, _, _) => false
  }

  /** Writing reply `p` and then carrying out `rest`. */
  ghost predicate Writes(v: View, p: Packet, rest: seq<Action>, writes: bool, v': View, o: Outcome)
    decreases |rest|, 1
  {
    if !Encodable(p) then v' == v && o == Panicked
    else if !writes then v' == v && o == WriteFailed
    else Carries(v.(written := v.written + Encode(p)), rest, writes, v', o)
  }

  /** The handler's own user is needed for `p` but absent. */
  predicate Missing(users: Users, a: Address, p: Packet)
  {
    && a !in users
    && ((p.LoginRequest? && ValidUsername(p.username)) || p.JoinVoiceChannelRequest?
        || p.LeaveVoiceChannelRequest? || p.ChatMessageRequest? || p.UserMuteState?)
  }

  /** What handling packet `p` does. */
  ghost predicate HandlesOne(a: Address, v: View, p: Packet, now: u64, writes: bool, v': View, o: Outcome)
  {
    var b := Begin(v.users, a, p, now);
    if Missing(v.users, a, p) then v' == v && o == UserNotFound
    else Carries(v.(users := b.users), b.todo, writes, v', o)
  }

  /** The clock and the socket as the handler meets them at its `i`-th packet. */
  datatype Surroundings = Surroundings(clock: nat -> u64, writes: nat -> bool)

  /** Handling the packets `ps` one after the other, a panic ends the task. */
  ghost predicate HandlesAll(
      a: Address, v: View, ps: seq<Packet>, env: Surroundings, v': View, panicked: bool)
    decreases |ps|
  {
    if ps == [] then v' == v && !panicked
    else
      var p, rest := ps[|ps| - 1], ps[..|ps| - 1];
      || (panicked && HandlesAll(a, v, rest, env, v', true))
      || exists u, o ::
           && HandlesAll(a, v, rest, env, u, false)
           && HandlesOne(a, u, p, env.clock(|rest|), env.writes(|rest|), v', o)
           && (panicked <==> o == Panicked)
  }

  // The objects

  class ManagementServer {
    var users: Users
    var nextUserId: u64
    var channel: seq<BroadcastMessage>
    var events: seq<Event>

    constructor ()
      ensures users == map[] && nextUserId == 1 && channel == [] && events == []
    {
      users, nextUserId, channel, events := map[], 1, [], [];
    }

    /** Registers the user of a new connection under the next id; the id counter wraps around. */
    method RegisterNewUser(address: Address, token: u64) returns (user: User)
      modifies `users, `nextUserId
      ensures user == User(old(nextUserId), None, false, false, token)
      ensures users == old(users)[address := user]
      ensures nextUserId == (old(nextUserId) + 1) % 0x1_0000_0000_0000_0000
    {
      var id := nextUserId;
      nextUserId := (nextUserId + 1) % ID_LIMIT;
      user := User(id, None, false, false, token);
      users := users[address := user];
    }

    /** Accepts a connection up to the point where its handler starts. */
    method Accept(address: Address, token: u64) returns (handler: UserHandler, user: User)
      modifies this
      ensures fresh(handler) && handler.server == this && handler.address == address
      ensures handler.packetBuffer == [] && handler.written == []
      ensures user == User(old(nextUserId), None, false, false, token)
      ensures users == old(users)[address := user]
      ensures nextUserId == (old(nextUserId) + 1) % 0x1_0000_0000_0000_0000
      ensures events == old(events) + [UserConnected(user.id, token)] && channel == old(channel)
    {
      user := RegisterNewUser(address, token);
      events := events + [UserConnected(user.id, user.token)];
      handler := new UserHandler(this, address);
    }
  }

  class UserHandler {
    const server: ManagementServer
    const address: Address
    var packetBuffer: seq<byte>
    var written: seq<byte>

    constructor (server: ManagementServer, address: Address)
      ensures this.server == server && this.address == address && packetBuffer == [] && written == []
    {
      this.server, this.address, packetBuffer, written := server, address, [], [];
    }

    function Sees(): View
      reads this, server
    {
      View(server.users, written, server.events, server.channel)
    }

    /** Encodes a packet and writes it on the connection. */
    method WritePacket(p: Packet, writes: bool) returns (o: Outcome)
      modifies `written
      ensures o == if !Encodable(p) then Panicked else if !writes then WriteFailed else Done
      ensures written == if o.Done? then old(written) + Encode(p) else old(written)
    {
      var bytes := EncodePacket(p);
      if bytes.None? {
        return Panicked;
      }
      if !writes {
        return WriteFailed;
      }
      written := written + bytes.value;
      return Done;
    }

    /** Encodes a message and sends it to the broadcast channel. */
    method Publish(m: BroadcastMessage) returns (o: Outcome)
      modifies server`channel
      ensures o == if Encodable(m.packet) then Done else Panicked
      ensures server.channel == if o.Done? then old(server.channel) + [m] else old(server.channel)
    {
      var bytes := EncodePacket(m.packet);
      if bytes.None? {
        return Panicked;
      }
      server.channel := server.channel + [m];
      return Done;
    }

    /** Lists the logged-in users, each once. */
    method CollectParticipants() returns (ps: seq<ParticipantInfo>, ghost at: seq<Address>)
      ensures Lists(ps, server.users) && ListsEach(ps, at, server.users)
    {
      ps := [];
      ghost var order: seq<Address> := [];
      var left := server.users.Keys;
      while left != {}
        invariant left <= server.users.Keys
        invariant Visits(order, server.users.Keys - left)
        invariant ps == Infos(server.users, order)
        decreases |left|
      {
        var a :| a in left;
        if server.users[a].username.Some? {
          ps := ps + [InfoOf(server.users[a])];
        }
        OneMoreListed(server.users, order, left, a);
        order := order + [a];
        left := left - {a};
      }
      assert server.users.Keys - left == server.users.Keys;
      AllListed(server.users, order);
      at := Members(server.users, order);
    }

    /** A name of another length than 1 to 32 is answered with an empty response. */
    method HandleLoginRequest(rid: u64, name: Text, writes: bool, ghost now: u64)
        returns (o: Outcome, ghost ps: seq<ParticipantInfo>, ghost at: seq<Address>)
      modifies `written, server`users, server`channel
      ensures HandlesOne(address, old(Sees()), LoginRequest(rid, name), now, writes, Sees(), o)
      ensures !(1 <= |name| <= 32) ==>
        && server.users == old(server.users) && server.channel == old(server.channel)
        && Replied(old(written), LoginResponse(rid, 0, 0, []), writes, o, written)
      ensures 1 <= |name| <= 32 && address !in old(server.users) ==> o == UserNotFound && Sees() == old(Sees())
      ensures 1 <= |name| <= 32 && address in old(server.users) ==>
        var user := old(server.users)[address];
        && server.users == old(server.users)[address := user.(username := Some(name))]
        && ListsEach(ps, at, server.users)
        && Replied(old(written), LoginResponse(rid, user.id, user.token, ps), writes, o, written)
        && server.channel == old(server.channel) + if !o.Done? then []
             else [BroadcastMessage(Some(address), UserJoinedServer(ParticipantInfo(user.id, name, false, false)))]
    {
      ps, at := [], [];
      ghost var before := Sees();
      if |name| == 0 || |name| > MAX_USERNAME_LEN {
        o := WritePacket(LoginResponse(rid, 0, 0, []), writes);
        return;
      }
      if address !in server.users {
        o := UserNotFound;
        return;
      }
      var user := server.users[address].(username := Some(name));
      server.users := server.users[address := user];
      var listed;
      listed, at := CollectParticipants();
      ps := listed;
      o := WritePacket(LoginResponse(rid, user.id, user.token, listed), writes);
      if o.Done? {
        NewcomerFits(ParticipantInfo(user.id, name, false, false));
        o := Publish(Excluding(address, UserJoinedServer(ParticipantInfo(user.id, name, false, false))));
      }
      LoginCarries(before.(users := server.users), rid, user, ps,
        Excluding(address, UserJoinedServer(ParticipantInfo(user.id, name, false, false))), writes, Sees(), o);
    }

    method HandleJoinVoiceChannelRequest(rid: u64, writes: bool, ghost now: u64) returns (o: Outcome)
      modifies `written, server`users, server`events, server`channel
      ensures HandlesOne(address, old(Sees()), JoinVoiceChannelRequest(rid), now, writes, Sees(), o)
      ensures address !in old(server.users) ==> o == UserNotFound && Sees() == old(Sees())
      ensures address in old(server.users) ==>
        var user := old(server.users)[address];
        && server.users == old(server.users)[address := user.(inVoice := true, isMuted := false)]
        && Replied(old(written), JoinVoiceChannelResponse(rid, true), writes, o, written)
        && server.events == old(server.events) + (if o.Done? then [VoiceJoined(user.id)] else [])
        && server.channel == old(server.channel) + if !o.Done? then []
             else [BroadcastMessage(Some(address), UserJoinedVoice(user.id))]
    {
      ghost var before := Sees();
      if address !in server.users {
        return UserNotFound;
      }
      var user := server.users[address].(inVoice := true, isMuted := false);
      server.users := server.users[address := user];
      o := WritePacket(JoinVoiceChannelResponse(rid, true), writes);
      if o.Done? {
        server.events := server.events + [VoiceJoined(user.id)];
        o := Publish(Excluding(address, UserJoinedVoice(user.id)));
      }
      VoiceCarries(before.(users := server.users), JoinVoiceChannelResponse(rid, true), VoiceJoined(user.id),
        Excluding(address, UserJoinedVoice(user.id)), writes, Sees(), o);
    }

    method HandleLeaveVoiceChannelRequest(rid: u64, writes: bool, ghost now: u64) returns (o: Outcome)
      modifies `written, server`users, server`events, server`channel
      ensures HandlesOne(address, old(Sees()), LeaveVoiceChannelRequest(rid), now, writes, Sees(), o)
      ensures address !in old(server.users) ==> o == UserNotFound && Sees() == old(Sees())
      ensures address in old(server.users) ==>
        var user := old(server.users)[address];
        && server.users == old(server.users)[address := user.(inVoice := false, isMuted := false)]
        && Replied(old(written), LeaveVoiceChannelResponse(rid, true), writes, o, written)
        && server.events == old(server.events) + (if o.Done? then [VoiceLeft(user.id)] else [])
        && server.channel == old(server.channel) + if !o.Done? then []
             else [BroadcastMessage(Some(address), UserLeftVoice(user.id))]
    {
      ghost var before := Sees();
      if address !in server.users {
        return UserNotFound;
      }
      var user := server.users[address].(inVoice := false, isMuted := false);
      server.users := server.users[address := user];
      o := WritePacket(LeaveVoiceChannelResponse(rid, true), writes);
      if o.Done? {
        server.events := server.events + [VoiceLeft(user.id)];
        o := Publish(Excluding(address, UserLeftVoice(user.id)));
      }
      VoiceCarries(before.(users := server.users), LeaveVoiceChannelResponse(rid, true), VoiceLeft(user.id),
        Excluding(address, UserLeftVoice(user.id)), writes, Sees(), o);
    }

    method HandleChatMessageRequest(rid: u64, message: Text, writes: bool, now: u64) returns (o: Outcome)
      modifies `written, server`channel
      ensures HandlesOne(address, old(Sees()), ChatMessageRequest(rid, message), now, writes, Sees(), o)
      ensures address !in old(server.users) ==> o == UserNotFound && Sees() == old(Sees())
      ensures address in old(server.users) ==>
        var event := UserSentMessage(old(server.users)[address].id, now, message);
        && (o.Panicked? <==> writes && !Encodable(event))
        && Replied(old(written), ChatMessageResponse(rid, true), writes, if o.Panicked? then Done else o, written)
        && server.channel == old(server.channel) + if o.Done? then [BroadcastMessage(None, event)] else []
    {
      ghost var before := Sees();
      if address !in server.users {
        return UserNotFound;
      }
      var id := server.users[address].id;
      o := WritePacket(ChatMessageResponse(rid, true), writes);
      if o.Done? {
        o := Publish(ForAll(UserSentMessage(id, now, message)));
      }
      ReplyCarries(before, ChatMessageResponse(rid, true), ForAll(UserSentMessage(id, now, message)),
        writes, Sees(), o);
    }

    method HandlePingRequest(rid: u64, writes: bool, ghost now: u64) returns (o: Outcome)
      modifies `written
      ensures HandlesOne(address, old(Sees()), PingRequest(rid), now, writes, Sees(), o)
      ensures Replied(old(written), PingResponse(rid), writes, o, written)
    {
      o := WritePacket(PingResponse(rid), writes);
    }

    method HandleUserMuteState(claimedId: u64, isMuted: bool, ghost writes: bool, ghost now: u64) returns (o: Outcome)
      modifies server`users, server`channel
      ensures HandlesOne(address, old(Sees()), UserMuteState(claimedId, isMuted), now, writes, Sees(), o)
      ensures address !in old(server.users) ==> o == UserNotFound && Sees() == old(Sees())
      ensures address in old(server.users) ==>
        && o == Done
        && server.users == old(server.users)[address := old(server.users)[address].(isMuted := isMuted)]
        && server.channel == old(server.channel) + [BroadcastMessage(Some(address), UserMuteState(claimedId, isMuted))]
    {
      if address !in server.users {
        return UserNotFound;
      }
      server.users := server.users[address := server.users[address].(isMuted := isMuted)];
      o := Publish(Excluding(address, UserMuteState(claimedId, isMuted)));
    }

    /** Handles one packet of the client. */
    method HandlePacket(p: Packet, now: u64, writes: bool) returns (o: Outcome)
      modifies `written, server
      ensures HandlesOne(address, old(Sees()), p, now, writes, Sees(), o)
      ensures server.nextUserId == old(server.nextUserId)
      ensures Unexpected(p) ==> o == Done && Sees() == old(Sees())
    {
      match p
      case LoginRequest(rid, name) =>
        ghost var ps, at;
        o, ps, at := HandleLoginRequest(rid, name, writes, now);
      case JoinVoiceChannelRequest(rid) => o := HandleJoinVoiceChannelRequest(rid, writes, now);
      case LeaveVoiceChannelRequest(rid) => o := HandleLeaveVoiceChannelRequest(rid, writes, now);
      case ChatMessageRequest(rid, message) => o := HandleChatMessageRequest(rid, message, writes, now);
      case PingRequest(rid) => o := HandlePingRequest(rid, writes, now);
      case UserMuteState(id, isMuted) => o := HandleUserMuteState(id, isMuted, writes, now);
      case _ => o := Done;
    }

    /** Waits for the rest of a packet, or gives up what is in the buffer. */
    method KeepRest(error: ProtocolError)
      requires Decode(packetBuffer) == Err(error)
      modifies `packetBuffer
      ensures Greedy(old(packetBuffer)).packets == [] && packetBuffer == Greedy(old(packetBuffer)).rest
    {
      GreedyStopped(packetBuffer);
      if IsFatal(error) {
        packetBuffer := [];
      }
    }

    /** Handles what one read returned: all complete packets, in order. */
    method HandleRead(chunk: seq<byte>, env: Surroundings) returns (panicked: bool)
      modifies this, server
      ensures HandlesAll(address, old(Sees()), Greedy(old(packetBuffer) + chunk).packets, env, Sees(), panicked)
      ensures !panicked ==> packetBuffer == Greedy(old(packetBuffer) + chunk).rest
    {
      packetBuffer := packetBuffer + chunk;
      ghost var all := Greedy(packetBuffer);
      ghost var done: seq<Packet> := [];
      var n := 0;
      while true
        invariant all.packets == done + Greedy(packetBuffer).packets
        invariant all.rest == Greedy(packetBuffer).rest
        invariant n == |done|
        invariant HandlesAll(address, old(Sees()), done, env, Sees(), false)
        decreases |packetBuffer|
      {
        var r := DecodePacket(packetBuffer);
        if r.Failure? {
          assert done + [] == done;
          KeepRest(r.error);
          return false;
        }
        var (packet, size) := r.value;
        panicked := HandleNext(packet, size, n, env, old(Sees()), done, all);
        if panicked {
          return;
        }
        done, n := done + [packet], n + 1;
      }
    }

    /** Handles the packet at the front of the buffer and takes it off. */
    method HandleNext(packet: Packet, size: nat, n: nat, env: Surroundings,
                      ghost v: View, ghost done: seq<Packet>, ghost all: Cut) returns (panicked: bool)
      requires Decode(packetBuffer) == Ok(packet, size) && n == |done|
      requires all.packets == done + Greedy(packetBuffer).packets && all.rest == Greedy(packetBuffer).rest
      requires HandlesAll(address, v, done, env, Sees(), false)
      modifies this, server
      ensures if panicked then HandlesAll(address, v, all.packets, env, Sees(), true)
        else HandlesAll(address, v, done + [packet], env, Sees(), false)
      ensures !panicked ==>
        && all.packets == done + [packet] + Greedy(packetBuffer).packets && all.rest == Greedy(packetBuffer).rest
        && |packetBuffer| < |old(packetBuffer)|
    {
      DecodeConsumes(packetBuffer);
      ghost var before := Sees();
      var o := HandlePacket(packet, env.clock(n), env.writes(n));
      NextHandled(address, v, done, env, before, packet, Sees(), o, all, packetBuffer, size);
      if o.Panicked? {
        return true;
      }
      packetBuffer := packetBuffer[size..];
      return false;
    }

    /** The result of one read: data is handled, while the end of the stream or an error (None) is the end of
        the connection. */
    method OnRead(read: Option<seq<byte>>, env: Surroundings) returns (goOn: bool, panicked: bool)
      modifies this, server
      ensures read.None? || read.value == [] ==>
        && !goOn && !panicked
        && var b := BeginDisconnect(old(server.users), address);
           Carries(old(Sees()).(users := b.users), b.todo, false, Sees(), Done)
      ensures read.Some? && read.value != [] ==>
        && goOn == !panicked
        && var cut := Greedy(old(packetBuffer) + read.value);
           && HandlesAll(address, old(Sees()), cut.packets, env, Sees(), panicked)
           && (!panicked ==> packetBuffer == cut.rest)
    {
      if read.None? || read.value == [] {
        HandleDisconnect();
        return false, false;
      }
      panicked := HandleRead(read.value, env);
      goOn := !panicked;
    }

    /** Passes a broadcast on unless it is excluded; only encodable messages get into the channel. */
    method HandleBroadcastMessage(m: BroadcastMessage, writes: bool) returns (o: Outcome)
      requires Encodable(m.packet)
      modifies `written
      ensures m.exclude == Some(address) ==> o == Done && written == old(written)
      ensures m.exclude != Some(address) ==> Replied(old(written), m.packet, writes, o, written)
    {
      if m.ShouldSendTo(address) {
        o := WritePacket(m.packet, writes);
        return;
      }
      return Done;
    }

    /** Removes the user and tells everyone. */
    method HandleDisconnect()
      modifies server`users, server`channel
      ensures var b := BeginDisconnect(old(server.users), address);
        Carries(old(Sees()).(users := b.users), b.todo, false, Sees(), Done)
      ensures address !in old(server.users) ==> Sees() == old(Sees())
      ensures address in old(server.users) ==>
        var user := old(server.users)[address];
        && server.users == old(server.users) - {address}
        && server.channel == old(server.channel) + [BroadcastMessage(None, UserLeftServer(user.id))]
             + if user.inVoice then [BroadcastMessage(None, UserLeftVoice(user.id))] else []
    {
      ghost var before := Sees();
      if address in server.users {
        var user := server.users[address];
        server.users := server.users - {address};
        LeavingFits(user.id);
        var _ := Publish(ForAll(UserLeftServer(user.id)));
        if user.inVoice {
          var _ := Publish(ForAll(UserLeftVoice(user.id)));
        }
        DisconnectCarries(before.(users := server.users), user, Sees());
      }
    }
  }

  // The work lists of the requests, step by step

  lemma CarriesBroadcast(v: View, m: BroadcastMessage, writes: bool)
    ensures Carries(v, [Broadcast(m)], writes,
      if Encodable(m.packet) then v.(channel := v.channel + [m]) else v,
      if Encodable(m.packet) then Done else Panicked)
  {
    assert [Broadcast(m)][1..] == [];
  }

  lemma ReplyCarries(v: View, p: Packet, m: BroadcastMessage, writes: bool, v': View, o: Outcome)
    requires if !Encodable(p) then v' == v && o == Panicked
      else if !writes then v' == v && o == WriteFailed
      else var w := v.(written := v.written + Encode(p));
        && v' == (if Encodable(m.packet) then w.(channel := w.channel + [m]) else w)
        && o == if Encodable(m.packet) then Done else Panicked
    ensures Writes(v, p, [Broadcast(m)], writes, v', o)
    ensures Carries(v, [Reply(p), Broadcast(m)], writes, v', o)
  {
    assert [Reply(p), Broadcast(m)][1..] == [Broadcast(m)];
    if Encodable(p) && writes {
      CarriesBroadcast(v.(written := v.written + Encode(p)), m, writes);
    }
  }

  lemma LoginCarries(v: View, rid: u64, user: User, ps: seq<ParticipantInfo>, m: BroadcastMessage,
                     writes: bool, v': View, o: Outcome)
    requires Lists(ps, v.users)
    requires var p := LoginResponse(rid, user.id, user.token, ps);
      if !Encodable(p) then v' == v && o == Panicked
      else if !writes then v' == v && o == WriteFailed
      else var w := v.(written := v.written + Encode(p));
        && v' == (if Encodable(m.packet) then w.(channel := w.channel + [m]) else w)
        && o == if Encodable(m.packet) then Done else Panicked
    ensures Carries(v, [TakeSnapshot(rid, user.id, user.token), Broadcast(m)], writes, v', o)
  {
    ReplyCarries(v, LoginResponse(rid, user.id, user.token, ps), m, writes, v', o);
    assert [TakeSnapshot(rid, user.id, user.token), Broadcast(m)][1..] == [Broadcast(m)];
  }

  lemma VoiceCarries(v: View, p: Packet, e: Event, m: BroadcastMessage, writes: bool, v': View, o: Outcome)
    requires if !Encodable(p) then v' == v && o == Panicked
      else if !writes then v' == v && o == WriteFailed
      else var w := v.(written := v.written + Encode(p), events := v.events + [e]);
        && v' == (if Encodable(m.packet) then w.(channel := w.channel + [m]) else w)
        && o == if Encodable(m.packet) then Done else Panicked
    ensures Carries(v, [Reply(p), Emit(e), Broadcast(m)], writes, v', o)
  {
    var todo := [Reply(p), Emit(e), Broadcast(m)];
    assert todo[1..] == [Emit(e), Broadcast(m)] && todo[1..][1..] == [Broadcast(m)];
    if Encodable(p) && writes {
      CarriesBroadcast(v.(written := v.written + Encode(p), events := v.events + [e]), m, writes);
    }
  }

  lemma NewcomerFits(info: ParticipantInfo)
    requires |info.username| <= 32
    ensures Encodable(UserJoinedServer(info))
  {
  }

  lemma LeavingFits(id: u64)
    ensures Encodable(UserLeftServer(id)) && Encodable(UserLeftVoice(id))
  {
  }

  lemma DisconnectCarries(v: View, user: User, v': View)
    requires v' == v.(channel := v.channel + [ForAll(UserLeftServer(user.id))]
      + if user.inVoice then [ForAll(UserLeftVoice(user.id))] else [])
    ensures Carries(v, [Broadcast(ForAll(UserLeftServer(user.id)))]
      + (if user.inVoice then [Broadcast(ForAll(UserLeftVoice(user.id)))] else []), false, v', Done)
  {
    LeavingFits(user.id);
    var first, second := ForAll(UserLeftServer(user.id)), ForAll(UserLeftVoice(user.id));
    if user.inVoice {
      assert ([Broadcast(first)] + [Broadcast(second)])[1..] == [Broadcast(second)];
      CarriesBroadcast(v.(channel := v.channel + [first]), second, false);
    } else {
      assert [Broadcast(first)] + [] == [Broadcast(first)];
      CarriesBroadcast(v, first, false);
    }
  }

  lemma OneMoreHandled(
      a: Address, v: View, ps: seq<Packet>, env: Surroundings, u: View, p: Packet, v': View, o: Outcome)
    requires HandlesAll(a, v, ps, env, u, false)
    requires HandlesOne(a, u, p, env.clock(|ps|), env.writes(|ps|), v', o)
    ensures HandlesAll(a, v, ps + [p], env, v', o == Panicked)
  {
    var all := ps + [p];
    assert all[..|all| - 1] == ps && all[|all| - 1] == p;
  }

  /** The next packet of the buffer has been handled. */
  lemma NextHandled(a: Address, v: View, done: seq<Packet>, env: Surroundings, u: View, p: Packet, v': View,
                    o: Outcome, all: Cut, buffer: seq<byte>, size: nat)
    requires HandlesAll(a, v, done, env, u, false)
    requires HandlesOne(a, u, p, env.clock(|done|), env.writes(|done|), v', o)
    requires Decode(buffer) == Ok(p, size)
    requires all.packets == done + Greedy(buffer).packets && all.rest == Greedy(buffer).rest
    ensures size <= |buffer| && all.packets == done + [p] + Greedy(buffer[size..]).packets
    ensures all.rest == Greedy(buffer[size..]).rest
    ensures if o.Panicked? then HandlesAll(a, v, all.packets, env, v', true)
      else HandlesAll(a, v, done + [p], env, v', false)
  {
    GreedyDecoded(buffer, p, size);
    DoneOne(all, done, Greedy(buffer[size..]), p);
    OneMoreHandled(a, v, done, env, u, p, v', o);
    if o.Panicked? {
      PanicEnds(a, v, done + [p], Greedy(buffer[size..]).packets, env, v');
    }
  }

  /** Packet `i` is handled from one view to the next, with the clock and the socket that it meets. */
  ghost predicate HandledAt(
      a: Address, views: seq<View>, ps: seq<Packet>, env: Surroundings, outcomes: seq<Outcome>, i: nat)
    requires |views| == |ps| + 1 && |outcomes| == |ps| && i < |ps|
  {
    && !outcomes[i].Panicked?
    && HandlesOne(a, views[i], ps[i], env.clock(i), env.writes(i), views[i + 1], outcomes[i])
  }

  lemma LastHandled(a: Address, v: View, ps: seq<Packet>, env: Surroundings, v': View) returns (u: View, o: Outcome)
    requires HandlesAll(a, v, ps, env, v', false) && ps != []
    ensures var n := |ps| - 1;
      && HandlesAll(a, v, ps[..n], env, u, false) && !o.Panicked?
      && HandlesOne(a, u, ps[n], env.clock(n), env.writes(n), v', o)
  {
    var n := |ps| - 1;
    u, o :| HandlesAll(a, v, ps[..n], env, u, false)
      && HandlesOne(a, u, ps[n], env.clock(n), env.writes(n), v', o) && !o.Panicked?;
  }

  lemma HandledBefore(a: Address, views: seq<View>, ps: seq<Packet>, env: Surroundings, outcomes: seq<Outcome>,
                      v': View, p: Packet, o: Outcome, i: nat)
    requires |views| == |ps| + 1 && |outcomes| == |ps| && i < |ps| && HandledAt(a, views, ps, env, outcomes, i)
    ensures HandledAt(a, views + [v'], ps + [p], env, outcomes + [o], i)
  {
  }

  /** The packets are handled one after the other: `views` are what is there before, between and after them. */
  lemma {:induction false} EachHandled(a: Address, v: View, ps: seq<Packet>, env: Surroundings, v': View)
      returns (views: seq<View>, outcomes: seq<Outcome>)
    requires HandlesAll(a, v, ps, env, v', false)
    ensures |views| == |ps| + 1 && |outcomes| == |ps| && views[0] == v && views[|ps|] == v'
    ensures forall i :: 0 <= i < |ps| ==> HandledAt(a, views, ps, env, outcomes, i)
    decreases |ps|
  {
    if ps == [] {
      return [v], [];
    }
    var n := |ps| - 1;
    var u, o := LastHandled(a, v, ps, env, v');
    var before, done := EachHandled(a, v, ps[..n], env, u);
    views, outcomes := before + [v'], done + [o];
    assert ps == ps[..n] + [ps[n]];
    forall i | 0 <= i < n
      ensures HandledAt(a, views, ps, env, outcomes, i)
    {
      HandledBefore(a, before, ps[..n], env, done, v', ps[n], o, i);
    }
    assert HandledAt(a, views, ps, env, outcomes, n);
  }

  /** After a panic no further packet is handled. */
  lemma {:induction false} PanicEnds(
      a: Address, v: View, ps: seq<Packet>, more: seq<Packet>, env: Surroundings, v': View)
    requires HandlesAll(a, v, ps, env, v', true)
    ensures HandlesAll(a, v, ps + more, env, v', true)
    decreases |more|
  {
    if more == [] {
      assert ps + more == ps;
    } else {
      var n := |more| - 1;
      PanicEnds(a, v, ps, more[..n], env, v');
      assert (ps + more)[..|ps + more| - 1] == ps + more[..n];
    }
  }
}
