/** The management server's data, and what a connection handler does for each packet of its client. */
module Management {
  import opened Bytes
  import opened Utf8Text
  import opened Packets

  const MAX_USERNAME_LEN: nat := 32

  datatype Address = Address(host: nat, port: nat)

  datatype User = User(id: u64, username: Option<Text>, inVoice: bool, isMuted: bool, token: u64)

  type Users = map<Address, User>

  /** Notifications for the voice relay. */
  datatype Event =
    | UserConnected(id: u64, token: u64)
    | VoiceJoined(id: u64)
    | VoiceLeft(id: u64)
    | UserDisconnected(id: u64)

  datatype BroadcastMessage = BroadcastMessage(exclude: Option<Address>, packet: Packet) {
    predicate ShouldSendTo(a: Address)
    {
      exclude != Some(a)
    }
  }

  function ForAll(p: Packet): BroadcastMessage
  {
    BroadcastMessage(None, p)
  }

  function Excluding(a: Address, p: Packet): BroadcastMessage
  {
    BroadcastMessage(Some(a), p)
  }

  /** A step that a handler still has to take for the packet it is processing. */
  datatype Action =
    | Reply(packet: Packet)
    | Emit(event: Event)
    | Broadcast(message: BroadcastMessage)
    // About to list the logged-in users for a login response
    | TakeSnapshot(requestId: u64, id: u64, token: u64)
    // Listing them: users that must still be visited, users visited, entries collected
    | Collecting(requestId: u64, id: u64, token: u64, due: set<u64>, seen: set<u64>, found: seq<ParticipantInfo>)

  predicate ValidUsername(name: Text)
  {
    1 <= |name| <= MAX_USERNAME_LEN
  }

  function InfoOf(u: User): ParticipantInfo
    requires u.username.Some?
  {
    ParticipantInfo(u.id, u.username.value, u.inVoice, u.isMuted)
  }

  /** The users map after the first, atomic step of handling a packet, and the steps that remain. */
  datatype Begun = Begun(users: Users, todo: seq<Action>)

  function BeginLogin(users: Users, a: Address, rid: u64, name: Text): Begun
  {
    if !ValidUsername(name) then Begun(users, [Reply(LoginResponse(rid, 0, 0, []))])
    else if a !in users then Begun(users, [])
    else
      var u := users[a].(username := Some(name));
      Begun(users[a := u],
            [TakeSnapshot(rid, u.id, u.token),
             Broadcast(Excluding(a, UserJoinedServer(ParticipantInfo(u.id, name, false, false))))])
  }

  function BeginJoinVoice(users: Users, a: Address, rid: u64): Begun
  {
    if a !in users then Begun(users, [])
    else
      var u := users[a].(inVoice := true, isMuted := false);
      Begun(users[a := u],
            [Reply(JoinVoiceChannelResponse(rid, true)), Emit(VoiceJoined(u.id)),
             Broadcast(Excluding(a, UserJoinedVoice(u.id)))])
  }

  function BeginLeaveVoice(users: Users, a: Address, rid: u64): Begun
  {
    if a !in users then Begun(users, [])
    else
      var u := users[a].(inVoice := false, isMuted := false);
      Begun(users[a := u],
            [Reply(LeaveVoiceChannelResponse(rid, true)), Emit(VoiceLeft(u.id)),
             Broadcast(Excluding(a, UserLeftVoice(u.id)))])
  }

  function BeginChat(users: Users, a: Address, rid: u64, message: Text, now: u64): Begun
  {
    if a !in users then Begun(users, [])
    else
      Begun(users,
            [Reply(ChatMessageResponse(rid, true)), Broadcast(ForAll(UserSentMessage(users[a].id, now, message)))])
  }

  function BeginMute(users: Users, a: Address, claimedId: u64, isMuted: bool): Begun
  {
    if a !in users then Begun(users, [])
    else
      Begun(users[a := users[a].(isMuted := isMuted)],
            [Broadcast(Excluding(a, UserMuteState(claimedId, isMuted)))])
  }

  /** What the handler at address `a` does for packet `p`; `now` is the clock. */
  function Begin(users: Users, a: Address, p: Packet, now: u64): Begun
  {
    match p
    case LoginRequest(rid, name) => BeginLogin(users, a, rid, name)
    case JoinVoiceChannelRequest(rid) => BeginJoinVoice(users, a, rid)
    case LeaveVoiceChannelRequest(rid) => BeginLeaveVoice(users, a, rid)
    case ChatMessageRequest(rid, message) => BeginChat(users, a, rid, message, now)
    case PingRequest(rid) => Begun(users, [Reply(PingResponse(rid))])
    case UserMuteState(id, isMuted) => BeginMute(users, a, id, isMuted)
    case _ => Begun(users, [])
  }

  /** The sender's entry after packet `p` has been read. */
  function UserAfter(user: User, p: Packet): User
  {
    match p
    case LoginRequest(_, name) => if ValidUsername(name) then user.(username := Some(name)) else user
    case JoinVoiceChannelRequest(_) => user.(inVoice := true, isMuted := false)
    case LeaveVoiceChannelRequest(_) => user.(inVoice := false, isMuted := false)
    case UserMuteState(_, isMuted) => user.(isMuted := isMuted)
    case _ => user
  }

  /** Reading a packet changes the sender's entry and no other. */
  lemma BeginChanges(users: Users, a: Address, p: Packet, now: u64)
    requires a in users
    ensures Begin(users, a, p, now).users == users[a := UserAfter(users[a], p)]
  {
  }

  /** What the handler at address `a` does when its client is gone. */
  function BeginDisconnect(users: Users, a: Address): Begun
  {
    if a !in users then Begun(users, [])
    else
      var u := users[a];
      Begun(users - {a},
            [Broadcast(ForAll(UserLeftServer(u.id)))]
            + if u.inVoice then [Broadcast(ForAll(UserLeftVoice(u.id)))] else [])
  }

  // The messages among pending actions

  function OwedPackets(todo: seq<Action>): seq<Packet>
  {
    if todo == [] then []
    else (if todo[0].Broadcast? then [todo[0].message.packet] else []) + OwedPackets(todo[1..])
  }

  function OwedEvents(todo: seq<Action>): seq<Event>
  {
    if todo == [] then []
    else (if todo[0].Emit? then [todo[0].event] else []) + OwedEvents(todo[1..])
  }

  function OwedReplies(todo: seq<Action>): seq<Packet>
  {
    if todo == [] then []
    else (if todo[0].Reply? then [todo[0].packet] else []) + OwedReplies(todo[1..])
  }

  function PacketsOf(messages: seq<BroadcastMessage>): seq<Packet>
  {
    seq(|messages|, i requires 0 <= i < |messages| => messages[i].packet)
  }
}
