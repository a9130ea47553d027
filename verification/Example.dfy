/** Runs that lead to the situations that the theorems are about: a logged-in client, handlers that panic, users in
    voice without an address, users with two addresses, and logins that are never announced. */
module Example {
  import opened Bytes
  import opened Utf8Text
  import opened Packets
  import opened Replica
  import opened Codec
  import opened Management
  import opened RelayState
  import opened System
  import opened Link
  import opened Invariants
  import opened PresenceSteps
  import opened Crashes
  import opened Listings
  import opened Convergence
  import opened PacketCapacity
  import opened ServerHandler
  import opened HandlerRefinement
  import opened RelayServer

  // One more connection

  /** From `base` to the reachable state `s` one connection has been added. It stands at `k`, its user's entry is
      `user`, and it has sent `es` to the relay, which has done nothing. */
  ghost predicate Adds(base: State, s: State, user: User, es: seq<Event>, k: Conn)
  {
    && Reachable(s)
    && base.nextId < ID_LIMIT && s.nextId == base.nextId + 1
    && s.users == base.users[k.handler.address := user]
    && s.conns == base.conns[base.nextId := k]
    && s.events == base.events + es
    && s.handled == base.handled && s.relay == base.relay && s.auths == base.auths
  }

  /** The added connection moves on. */
  lemma Onward(base: State, s: State, t: State, user: User, user': User, es: seq<Event>, more: seq<Event>,
               k: Conn, k': Conn)
    requires Adds(base, s, user, es, k) && Reachable(t) && k'.handler.address == k.handler.address
    requires t.users == s.users[k.handler.address := user'] && t.conns == s.conns[base.nextId := k']
    requires t.events == s.events + more && t.nextId == s.nextId
    requires t.handled == s.handled && t.relay == s.relay && t.auths == s.auths
    ensures Adds(base, t, user', es + more, k')
  {
    assert base.events + es + more == base.events + (es + more);
  }

  /** A step that sends the relay nothing and leaves the user's entry alone. */
  lemma OnwardOnly(base: State, s: State, t: State, step: Step, user: User, es: seq<Event>, k: Conn, k': Conn)
    requires Adds(base, s, user, es, k) && NextBy(s, t, step) && k'.handler.address == k.handler.address
    requires t == s.(conns := s.conns[base.nextId := k'], channel := t.channel)
    ensures Adds(base, t, user, es, k')
  {
    ReachableNext(s, t, step);
    assert s.users[k.handler.address := user] == s.users && s.events + [] == s.events && es + [] == es;
    Onward(base, s, t, user, user, es, [], k, k');
  }

  ghost predicate CanConnect(base: State, a: Address, token: u64)
  {
    && Reachable(base) && base.nextId < ID_LIMIT && a !in base.users
    && (forall c :: c in base.conns && !base.conns[c].handler.phase.Gone? ==> base.conns[c].handler.address != a)
    && (forall c :: c in base.conns ==> base.conns[c].handler.token != token)
  }

  function Newcomer(id: u64, token: u64): User
  {
    User(id, None, false, false, token)
  }

  /** A connection is accepted, reported to the relay and served. */
  lemma Connects(base: State, a: Address, token: u64) returns (s: State, k: Conn)
    requires CanConnect(base, a, token)
    ensures Adds(base, s, Newcomer(base.nextId, token), [UserConnected(base.nextId, token)], k)
    ensures k == Conn(Handler(a, token, Serving, k.handler.cursor, [], false),
      NewConn(a, token, base.nextId).client, [], [])
  {
    var c: u64 := base.nextId;
    var k0 := NewConn(a, token, c);
    var s0 := base.(users := base.users[a := Newcomer(c, token)], nextId := c + 1, conns := base.conns[c := k0]);
    assert NextBy(base, s0, AcceptStep(a, token));
    ReachableNext(base, s0, AcceptStep(a, token));
    assert base.events + [] == base.events;
    var s1, k1 := Performs(base, s0, Newcomer(c, token), [], k0);
    assert [] + [UserConnected(c, token)] == [UserConnected(c, token)] && k0.handler.todo[1..] == [];
    k := k1.(handler := k1.handler.(phase := Serving, cursor := |s1.channel|));
    s := s1.(conns := s1.conns[c := k]);
    assert NextBy(s1, s, SubscribeStep(c));
    OnwardOnly(base, s1, s, SubscribeStep(c), Newcomer(c, token), [UserConnected(c, token)], k1, k);
  }

  function SentEvents(x: Action): seq<Event>
  {
    if x.Emit? then [x.event] else []
  }

  /** The connection after the next step of its handler. */
  function Performed(k: Conn): Conn
    requires k.handler.todo != []
  {
    var x := k.handler.todo[0];
    WithTodo(k, k.handler.todo[1..]).(down := if x.Reply? then k.down + [x.packet] else k.down)
  }

  lemma Performs(base: State, s: State, user: User, es: seq<Event>, k: Conn) returns (t: State, k': Conn)
    requires Adds(base, s, user, es, k)
    requires k.handler.todo != [] && !IsSnapshot(k.handler.todo[0]) && !Overflows(k.handler.todo)
    ensures k' == Performed(k) && Adds(base, t, user, es + SentEvents(k.handler.todo[0]), k')
  {
    var c: u64 := base.nextId;
    var x := k.handler.todo[0];
    k' := Performed(k);
    t := s.(conns := s.conns[c := k'], events := s.events + SentEvents(x),
            channel := if x.Broadcast? then s.channel + [x.message] else s.channel);
    assert s.events + [] == s.events && s.users[k.handler.address := user] == s.users;
    assert NextBy(s, t, PerformStep(c));
    ReachableNext(s, t, PerformStep(c));
    Onward(base, s, t, user, user, es, SentEvents(x), k, k');
  }

  /** The handler writes a response. */
  lemma Answers(base: State, s: State, user: User, es: seq<Event>, k: Conn, p: Packet) returns (t: State, k': Conn)
    requires Adds(base, s, user, es, k) && Encodable(p)
    requires |k.handler.todo| == 2 && k.handler.todo[0] == Reply(p)
    ensures k' == WithTodo(k, [k.handler.todo[1]]).(down := k.down + [p]) && Adds(base, t, user, es, k')
  {
    t, k' := Performs(base, s, user, es, k);
    assert es + [] == es && k.handler.todo[1..] == [k.handler.todo[1]];
  }

  /** The client after drawing an id and sending request `p` under it. */
  function Asking(k: Client, p: Packet): Client
    requires k.nextRequest < ID_LIMIT
  {
    AfterSending(Drawing(k), p)
  }

  function Drawing(k: Client): Client
    requires k.nextRequest < ID_LIMIT
  {
    k.(nextRequest := k.nextRequest + 1, drawn := k.drawn + {k.nextRequest})
  }

  lemma Draws(base: State, s: State, user: User, es: seq<Event>, k: Conn) returns (t: State)
    requires Adds(base, s, user, es, k) && k.client.nextRequest < ID_LIMIT
    ensures Adds(base, t, user, es, k.(client := Drawing(k.client)))
  {
    var k' := k.(client := Drawing(k.client));
    t := s.(conns := s.conns[base.nextId := k']);
    assert NextBy(s, t, DrawStep(base.nextId));
    OnwardOnly(base, s, t, DrawStep(base.nextId), user, es, k, k');
  }

  /** The client draws an id and sends a request under it. */
  lemma Asks(base: State, s: State, user: User, es: seq<Event>, k: Conn, p: Packet) returns (t: State, k': Conn)
    requires Adds(base, s, user, es, k) && k.client.nextRequest < ID_LIMIT
    requires RequestId(p) == Some(k.client.nextRequest) && Encodable(p) && MaySend(base.nextId, k.client, p)
    ensures k' == k.(client := Asking(k.client, p), up := k.up + [p]) && Adds(base, t, user, es, k')
  {
    var s1 := Draws(base, s, user, es, k);
    k' := k.(client := Asking(k.client, p), up := k.up + [p]);
    t := s1.(conns := s1.conns[base.nextId := k']);
    assert NextBy(s1, t, SendStep(base.nextId, p));
    OnwardOnly(base, s1, t, SendStep(base.nextId, p), user, es, k.(client := Drawing(k.client)), k');
  }

  /** The idle handler reads the only packet on the way up. */
  lemma Reads(base: State, s: State, user: User, es: seq<Event>, k: Conn, p: Packet) returns (t: State, k': Conn)
    requires Adds(base, s, user, es, k) && Idle(k) && k.up == [p]
    requires p.LoginRequest? || p.ChatMessageRequest? || p.JoinVoiceChannelRequest?
    ensures var b := Begin(s.users, k.handler.address, p, 0);
      && k.handler.address in b.users && k' == WithTodo(k, b.todo).(up := [])
      && Adds(base, t, b.users[k.handler.address], es, k')
  {
    var c: u64 := base.nextId;
    var a := k.handler.address;
    var b := Begin(s.users, a, p, 0);
    assert k.up[1..] == [];
    k' := WithTodo(k, b.todo).(up := []);
    t := s.(users := b.users, conns := s.conns[c := k']);
    assert NextBy(s, t, ReadStep(c, 0));
    assert b.users == s.users[a := b.users[a]] && s.events + [] == s.events && es + [] == es;
    ReachableNext(s, t, ReadStep(c, 0));
    Onward(base, s, t, user, b.users[a], es, [], k, k');
  }

  /** The client receives the response to its login. */
  lemma Receives(base: State, s: State, user: User, es: seq<Event>, k: Conn, p: Packet) returns (t: State, k': Conn)
    requires Adds(base, s, user, es, k) && k.down == [p]
    requires p.LoginResponse? && p.requestId in k.client.waiting && k.client.completed == []
    ensures k' == k.(client := AfterReceiving(k.client, p), down := []) && Adds(base, t, user, es, k')
    ensures k'.client.stage.LoggedIn? && |k'.client.completed| == 1 && k'.client.completed[0].1 == p
  {
    k' := k.(client := AfterReceiving(k.client, p), down := []);
    assert k.down[1..] == [];
    t := s.(conns := s.conns[base.nextId := k']);
    assert NextBy(s, t, ReceiveStep(base.nextId));
    OnwardOnly(base, s, t, ReceiveStep(base.nextId), user, es, k, k');
  }

  // Logging in

  function Member(id: u64, name: Text, token: u64): User
  {
    User(id, Some(name), false, false, token)
  }

  function Announcement(a: Address, id: u64, name: Text): Action
  {
    Broadcast(Excluding(a, UserJoinedServer(ParticipantInfo(id, name, false, false))))
  }

  /** A client that waits for the response to its login. */
  function LoggingIn(a: Address, token: u64, id: u64, name: Text): (k: Client)
    ensures 1 in k.waiting && k.completed == [] && k.nextRequest == 2 && !k.voiceReady
  {
    Asking(NewConn(a, token, id).client, LoginRequest(1, name))
  }

  lemma SmallLogin(name: Text)
    requires ValidUsername(name)
    ensures Encodable(LoginRequest(1, name))
  {
  }

  /** A new client's login, up to the response: the listing visits the users in the given order. */
  lemma LogsIn(base: State, a: Address, token: u64, name: Text, order: seq<Address>) returns (s: State, k: Conn)
    requires CanConnect(base, a, token) && ValidUsername(name) && Visits(order, base.users.Keys + {a})
    ensures Adds(base, s, Member(base.nextId, name, token), [UserConnected(base.nextId, token)], k)
    ensures Visits(order, s.users.Keys)
    ensures k.handler == Handler(a, token, Serving, k.handler.cursor,
      [Reply(LoginResponse(1, base.nextId, token, Infos(s.users, order))), Announcement(a, base.nextId, name)], true)
    ensures k.client == LoggingIn(a, token, base.nextId, name) && k.up == [] && k.down == []
  {
    var c: u64 := base.nextId;
    var s1, k1 := Connects(base, a, token);
    SmallLogin(name);
    var s2, k2 := Asks(base, s1, Newcomer(c, token), [UserConnected(c, token)], k1, LoginRequest(1, name));
    assert k2.up == [LoginRequest(1, name)];
    var s3, k3 := Reads(base, s2, Newcomer(c, token), [UserConnected(c, token)], k2, LoginRequest(1, name));
    s, k := Listed(base, s3, Member(c, name, token), [UserConnected(c, token)], k3, order);
  }

  lemma ReachableIds(s: State)
    requires Reachable(s)
    ensures IdsDistinct(s.users)
  {
    ReachableBase(s);
  }

  /** A listing from its beginning to its end. */
  lemma Listed(base: State, s: State, user: User, es: seq<Event>, k: Conn, order: seq<Address>)
      returns (t: State, k': Conn)
    requires Adds(base, s, user, es, k) && Visits(order, s.users.Keys)
    requires |k.handler.todo| == 2 && k.handler.todo[0].TakeSnapshot?
    ensures t.users == s.users && Adds(base, t, user, es, k')
    ensures var x := k.handler.todo[0];
      k' == k.(handler := k.handler.(answered := true,
        todo := [Reply(LoginResponse(x.requestId, x.id, x.token, Infos(s.users, order))), k.handler.todo[1]]))
  {
    var c: u64 := base.nextId;
    var x := k.handler.todo[0];
    var p := LoginResponse(x.requestId, x.id, x.token, Infos(s.users, order));
    assert s.conns[c] == k;
    ReachableIds(s);
    ListingDone(s, c, order);
    t := Answered(s, c, p);
    StaysReachable(s, t);
    k' := t.conns[c];
    assert [Reply(p)] + k.handler.todo[1..] == [Reply(p), k.handler.todo[1]];
  }

  // A client on its own

  const HOME := Address(1, 1)
  const AWAY := Address(2, 2)
  const TOKEN: u64 := 7

  function Start(): State
  {
    State(map[], 1, map[], [], [], 0, Relay(map[], map[]), {})
  }

  /** A client can connect to a server without users. */
  ghost predicate Vacant(base: State, a: Address, token: u64)
  {
    CanConnect(base, a, token) && base.users == map[]
  }

  lemma StartIsVacant()
    ensures Vacant(Start(), HOME, TOKEN)
  {
    assert IsRun([Start()]) && Init([Start()][0]);
  }

  function Name(): (name: Text)
    ensures |name| == 1
  {
    var name: seq<byte> := [0x61];
    assert name[1..] == [];
    name
  }

  function Single(base: State, token: u64): User
    requires base.nextId < ID_LIMIT
  {
    Member(base.nextId, Name(), token)
  }

  lemma SingleInfo(users: Users, a: Address, user: User)
    requires a in users && users[a] == user && user.username.Some?
    ensures Infos(users, [a]) == [InfoOf(user)]
  {
    OneMoreInfo(users, [], a);
    assert [] + [a] == [a] && Infos(users, []) + [InfoOf(user)] == [InfoOf(user)];
  }

  lemma SingleFits(id: u64, token: u64, info: ParticipantInfo)
    requires |info.username| == 1
    ensures Encodable(LoginResponse(1, id, token, [info]))
  {
    assert NameBytes([info]) == 1;
    LoginResponseFits(1, id, token, [info]);
  }

  /** The response to the client's login is on its way. */
  lemma SingleAnswered(base: State, a: Address, token: u64) returns (s: State, k: Conn, response: Packet)
    requires Vacant(base, a, token)
    ensures Adds(base, s, Single(base, token), [UserConnected(base.nextId, token)], k)
    ensures k.handler ==
      Handler(a, token, Serving, k.handler.cursor, [Announcement(a, base.nextId, Name())], true)
    ensures k.client == LoggingIn(a, token, base.nextId, Name())
    ensures k.up == [] && k.down == [response] && response.LoginResponse? && response.requestId == 1
  {
    assert Visits([a], base.users.Keys + {a});
    var s1, k1 := LogsIn(base, a, token, Name(), [a]);
    SingleInfo(s1.users, a, Single(base, token));
    SingleFits(base.nextId, token, InfoOf(Single(base, token)));
    response := LoginResponse(1, base.nextId, token, Infos(s1.users, [a]));
    s, k := Answers(base, s1, Single(base, token), [UserConnected(base.nextId, token)], k1, response);
  }

  /** The client has received the response to its login. */
  lemma SingleLogin(base: State, a: Address, token: u64) returns (s: State, k: Conn)
    requires Vacant(base, a, token)
    ensures Adds(base, s, Single(base, token), [UserConnected(base.nextId, token)], k)
    ensures k.handler ==
      Handler(a, token, Serving, k.handler.cursor, [Announcement(a, base.nextId, Name())], true)
    ensures k.client.stage.LoggedIn? && k.client.nextRequest == 2 && !k.client.voiceReady
    ensures k.up == [] && k.down == []
  {
    var s1, k1, response := SingleAnswered(base, a, token);
    s, k := Receives(base, s1, Single(base, token), [UserConnected(base.nextId, token)], k1, response);
  }

  /** A client can log in. */
  lemma ClientsLogIn() returns (s: State)
    ensures Reachable(s) && 1 in s.conns && s.conns[1].handler.phase.Serving? && s.conns[1].client.stage.LoggedIn?
  {
    StartIsVacant();
    var k;
    s, k := SingleLogin(Start(), HOME, TOKEN);
  }

  // Panicking over a chat message

  lemma Oversized(text: Text)
    requires MAX_RELAYED_MESSAGE < |text| <= 65525
    ensures Encodable(ChatMessageRequest(1, text)) && !Encodable(UserSentMessage(1, 0, text))
    ensures Encodable(ChatMessageResponse(1, true))
  {
    MessageSizes(ChatMessageRequest(1, text));
    MessageSizes(UserSentMessage(1, 0, text));
    SmallFits(ChatMessageResponse(1, true));
  }

  /** The handler is about to broadcast a chat message that does not fit. */
  lemma AboutToPanic(text: Text) returns (s: State, k: Conn)
    requires MAX_RELAYED_MESSAGE < |text| <= 65525
    ensures Adds(Start(), s, Newcomer(1, TOKEN), [UserConnected(1, TOKEN)], k)
    ensures k.handler == Handler(HOME, TOKEN, Serving, k.handler.cursor, k.handler.todo, false)
    ensures Overflows(k.handler.todo)
  {
    var user, es, p := Newcomer(1, TOKEN), [UserConnected(1, TOKEN)], ChatMessageRequest(1, text);
    Oversized(text);
    StartIsVacant();
    var s1, k1 := Connects(Start(), HOME, TOKEN);
    var s2, k2 := Asks(Start(), s1, user, es, k1, p);
    assert k2.up == [p];
    var s3, k3 := Reads(Start(), s2, user, es, k2, p);
    s, k := Performs(Start(), s3, user, es, k3);
    assert es + [] == es;
  }

  /** Any chat message of 65518 to 65525 bytes can make a handler panic. */
  lemma HandlersPanic(text: Text) returns (s: State)
    requires MAX_RELAYED_MESSAGE < |text| <= 65525
    ensures Reachable(s) && 1 in s.conns && s.conns[1].handler.phase.Crashed? && Abandoned(s, 1)
  {
    var s1, k := AboutToPanic(text);
    s := s1.(conns := s1.conns[1 := k.(handler := k.handler.(phase := Crashed))]);
    assert NextBy(s1, s, PanicStep(1));
    ReachableNext(s1, s, PanicStep(1));
  }

  // A user in voice without an address

  /** The relay handles the next event. */
  lemma RelayHandles(s: State, r: Relay) returns (t: State)
    requires Reachable(s) && s.handled < |s.events| && Handles(s.relay, s.events[s.handled], r)
    ensures Reachable(t) && t == s.(handled := s.handled + 1, relay := r)
  {
    t := s.(handled := s.handled + 1, relay := r);
    assert NextBy(s, t, RelayEventStep);
    ReachableNext(s, t, RelayEventStep);
  }

  lemma Authenticates(s: State, src: Address, id: u64) returns (t: State)
    requires Reachable(s) && id in s.relay.sessions
    ensures Reachable(t) && t == s.(relay := Authenticate(s.relay, src, id), auths := t.auths)
  {
    t := s.(relay := Authenticate(s.relay, src, id), auths := s.auths + {(src, s.relay.sessions[id].token)});
    assert NextBy(s, t, RelayAuthStep(src, id));
    ReachableNext(s, t, RelayAuthStep(src, id));
  }

  lemma SmallJoin()
    ensures Encodable(JoinVoiceChannelRequest(2)) && Encodable(JoinVoiceChannelResponse(2, true))
  {
  }

  /** The logged-in client has sent a request to join voice although it has not authenticated. */
  lemma SingleJoinRequest(base: State, a: Address, token: u64) returns (s: State, k: Conn)
    requires Vacant(base, a, token)
    ensures Adds(base, s, Single(base, token), [UserConnected(base.nextId, token)], k)
    ensures k.handler == Handler(a, token, Serving, k.handler.cursor, [], true)
    ensures k.up == [JoinVoiceChannelRequest(2)] && k.down == []
  {
    var user, es := Single(base, token), [UserConnected(base.nextId, token)];
    var s1, k1 := SingleLogin(base, a, token);
    SmallFits(UserJoinedServer(ParticipantInfo(base.nextId, Name(), false, false)));
    var s2, k2 := Performs(base, s1, user, es, k1);
    assert es + [] == es && k1.handler.todo[1..] == [];
    SmallJoin();
    s, k := Asks(base, s2, user, es, k2, JoinVoiceChannelRequest(2));
    assert k.up == [JoinVoiceChannelRequest(2)];
  }

  /** The handler has reported the joining to the relay, which has done nothing yet. */
  lemma SingleJoin(base: State, a: Address, token: u64) returns (s: State, k: Conn)
    requires Vacant(base, a, token)
    ensures Adds(base, s, Single(base, token).(inVoice := true),
      [UserConnected(base.nextId, token), VoiceJoined(base.nextId)], k)
    ensures k.handler.address == a && k.handler.token == token
  {
    var es := [UserConnected(base.nextId, token)];
    var s1, k1 := SingleJoinRequest(base, a, token);
    var s2, k2 := Reads(base, s1, Single(base, token), es, k1, JoinVoiceChannelRequest(2));
    var user := Single(base, token).(inVoice := true);
    SmallJoin();
    var s3, k3 := Performs(base, s2, user, es, k2);
    assert es + [] == es;
    s, k := Performs(base, s3, user, es, k3);
    assert es + [VoiceJoined(base.nextId)] == [UserConnected(base.nextId, token), VoiceJoined(base.nextId)];
  }

  /** A logged-in client that joins without authenticating becomes a user in voice without an address. */
  lemma UsersLackAddresses() returns (s: State)
    ensures Reachable(s) && !Addressed(s.relay)
    ensures s.relay == Relay(map[1 := Session(TOKEN, true, None)], map[])
    ensures CanConnect(s, AWAY, TOKEN + 1) && s.nextId == 2 && s.handled == |s.events|
  {
    StartIsVacant();
    var s1, k := SingleJoin(Start(), HOME, TOKEN);
    assert s1.events == [UserConnected(1, TOKEN), VoiceJoined(1)];
    var r := Relay(map[1 := Session(TOKEN, false, None)], map[]);
    assert map[][1 := Session(TOKEN, false, None)] == r.sessions;
    var s2 := RelayHandles(s1, r);
    s := RelayHandles(s2, SetVoice(r, 1, true));
    assert s.relay.sessions[1] == Session(TOKEN, true, None);
  }

  /** Another client that authenticates can then make the relay panic. */
  lemma RelayPanics() returns (s: State)
    ensures Reachable(s) && CanPanic(s.relay)
  {
    var s1 := UsersLackAddresses();
    var s2, k := Connects(s1, AWAY, TOKEN + 1);
    var r := s2.relay.(sessions := s2.relay.sessions[2 := Session(TOKEN + 1, false, None)]);
    var s3 := RelayHandles(s2, r);
    s := Authenticates(s3, AWAY, 2);
    assert AWAY in s.relay.index && s.relay.index[AWAY] == 2 && s.relay.sessions[1] == Session(TOKEN, true, None);
    assert 1 in Recipients(s.relay, 2);
    WhenRelayPanics(s.relay);
  }

  // A user with two addresses

  /** A client authenticates from two addresses, irregularly the second time. */
  lemma TwoAddresses() returns (s: State, k: Conn)
    ensures Reachable(s) && !IndexExact(s.relay) && !AtMostOneAddress(s.relay, 1)
    ensures s.relay.index == map[HOME := 1, AWAY := 1] && s.relay.sessions.Keys == {1}
    ensures s.conns == map[1 := k] && Idle(k) && k.handler.address == HOME && k.handler.token == TOKEN
    ensures s.users == map[HOME := Newcomer(1, TOKEN)] && s.handled == |s.events| && s.nextId == 2
  {
    StartIsVacant();
    var s1;
    s1, k := Connects(Start(), HOME, TOKEN);
    assert s1.events == [UserConnected(1, TOKEN)];
    assert map[][1 := k] == map[1 := k] && map[][HOME := Newcomer(1, TOKEN)] == map[HOME := Newcomer(1, TOKEN)];
    var s2 := RelayHandles(s1, s1.relay.(sessions := s1.relay.sessions[1 := Session(TOKEN, false, None)]));
    var s3 := Authenticates(s2, HOME, 1);
    assert Regular(s2.relay, HOME, 1) && !Regular(s3.relay, AWAY, 1);
    s := Authenticates(s3, AWAY, 1);
    assert HOME in s.relay.index && AWAY in s.relay.index && s.relay.sessions[1].udpAddress == Some(AWAY);
  }

  lemma GoodbyesFit()
    ensures Encodable(UserLeftServer(1))
  {
  }

  /** The client hangs up, and its handler reports the end to the relay. */
  lemma HangsUp() returns (s: State)
    ensures Reachable(s) && s.handled + 1 == |s.events| && s.events[s.handled] == UserDisconnected(1)
    ensures s.relay.index == map[HOME := 1, AWAY := 1] && s.relay.sessions.Keys == {1}
    ensures s.users == map[] && s.nextId == 2 && s.conns.Keys == {1}
    ensures s.conns[1].handler.address == HOME && s.conns[1].handler.token == TOKEN
  {
    var s1, k := TwoAddresses();
    var last := [Emit(UserDisconnected(1))];
    var k1 := k.(handler := k.handler.(phase := Leaving, todo := [Broadcast(ForAll(UserLeftServer(1)))] + last));
    var s2 := s1.(users := s1.users - {HOME}, conns := s1.conns[1 := k1]);
    assert NextBy(s1, s2, HangupStep(1)) by {
      assert [Broadcast(ForAll(UserLeftServer(1)))] + [] + last == k1.handler.todo;
    }
    ReachableNext(s1, s2, HangupStep(1));
    GoodbyesFit();
    var k2 := WithTodo(k1, last);
    var s3 := s2.(conns := s2.conns[1 := k2], channel := s2.channel + [ForAll(UserLeftServer(1))]);
    assert k1.handler.todo[1..] == last;
    assert NextBy(s2, s3, PerformStep(1));
    ReachableNext(s2, s3, PerformStep(1));
    s := s3.(conns := s3.conns[1 := WithTodo(k2, [])], events := s3.events + [UserDisconnected(1)]);
    assert last[1..] == [];
    assert NextBy(s3, s, PerformStep(1));
    ReachableNext(s3, s, PerformStep(1));
  }

  const FAR := Address(3, 3)

  /** After the departure one of its addresses still leads to the user. */
  lemma AddressesStay() returns (s: State, a: Address)
    ensures Reachable(s) && 1 !in s.relay.sessions && a in s.relay.index && s.relay.index[a] == 1
    ensures a != FAR && s.relay.sessions == map[] && Vacant(s, FAR, TOKEN + 1)
    ensures s.nextId == 2 && s.handled == |s.events|
  {
    var s1 := HangsUp();
    var r := Relay(s1.relay.sessions - {1}, s1.relay.index - {HOME});
    assert s1.relay.index[HOME] == 1;
    s := RelayHandles(s1, r);
    assert r.sessions == map[];
    a := AWAY;
  }

  /** Once another client has authenticated and joined, voice data can go out in the name of the user who has left. */
  lemma TheDepartedSpeak() returns (s: State)
    ensures Reachable(s) && 1 !in s.relay.sessions && CanSpeakFor(s.relay, 1)
  {
    var s1, a := AddressesStay();
    var s2, k := SingleJoin(s1, FAR, TOKEN + 1);
    var s3 := RelayHandles(s2, s2.relay.(sessions := map[2 := Session(TOKEN + 1, false, None)]));
    var s4 := Authenticates(s3, FAR, 2);
    s := RelayHandles(s4, SetVoice(s4.relay, 2, true));
    assert s.relay.sessions == map[2 := Session(TOKEN + 1, true, Some(FAR))];
    assert 2 in Recipients(s.relay, 1);
    SpeaksWhenHeard(s.relay, a, 1);
  }

  // A login that is never announced

  function Seat(i: nat): Address
  {
    Address(i, 0)
  }

  /** The first `n` users, all with the same name. */
  function Members(name: Text, n: nat): Users
    requires n < ID_LIMIT
  {
    if n == 0 then map[] else Members(name, n - 1)[Seat(n) := Member(n, name, n)]
  }

  function Seats(n: nat): (order: seq<Address>)
    ensures |order| == n
  {
    if n == 0 then [] else Seats(n - 1) + [Seat(n)]
  }

  lemma {:induction false} SeatsInOrder(n: nat, i: nat)
    requires i < n
    ensures Seats(n)[i] == Seat(i + 1)
  {
    if i < n - 1 {
      SeatsInOrder(n - 1, i);
    }
  }

  lemma {:induction false} MembersSit(name: Text, n: nat, a: Address)
    requires n < ID_LIMIT
    ensures a in Members(name, n) <==> 1 <= a.host <= n && a == Seat(a.host)
    ensures a in Members(name, n) ==> Members(name, n)[a].username == Some(name) && Members(name, n)[a].id == a.host
  {
    if n > 0 {
      MembersSit(name, n - 1, a);
    }
  }

  lemma SeatsVisitMembers(name: Text, n: nat)
    requires n < ID_LIMIT
    ensures Visits(Seats(n), Members(name, n).Keys)
  {
    forall i | 0 <= i < n
      ensures Seats(n)[i] == Seat(i + 1) && Seats(n)[i] in Members(name, n)
    {
      SeatsInOrder(n, i);
      MembersSit(name, n, Seat(i + 1));
    }
    forall a | a in Members(name, n)
      ensures a in Seats(n)
    {
      MembersSit(name, n, a);
      assert Seats(n)[a.host - 1] == a;
    }
  }

  lemma {:induction false} InfosOfMembers(users: Users, order: seq<Address>, name: Text, n: nat)
    requires forall i :: 0 <= i < |order| ==>
      order[i] in users && users[order[i]].username == Some(name) && users[order[i]].id <= n
    ensures var ps := Infos(users, order);
      |ps| == |order| && forall i :: 0 <= i < |ps| ==> ps[i].username == name && ps[i].userId <= n
    decreases |order|
  {
    if order != [] {
      InfosOfMembers(users, order[..|order| - 1], name, n);
    }
  }

  /** The response shows only the first `n` users. */
  ghost predicate ShowsUpTo(p: Packet, n: nat)
  {
    forall u: u64 :: Shows(p, u) ==> u <= n
  }

  /** All of the first `n` users are logged in under the same name. */
  ghost predicate SameNames(users: Users, order: seq<Address>, name: Text, n: nat)
  {
    |order| == n && forall i :: 0 <= i < n ==>
      order[i] in users && users[order[i]].username == Some(name) && users[order[i]].id <= n
  }

  /** A response that lists the first `n` users fits if and only if `n` is at most 1488. */
  lemma ListingOfMembers(users: Users, order: seq<Address>, name: Text, n: nat, id: u64, token: u64)
    requires SameNames(users, order, name, n) && |name| == MAX_USERNAME_LEN
    ensures Encodable(LoginResponse(1, id, token, Infos(users, order))) <==> n <= MAX_LOGGED_IN
    ensures ShowsUpTo(LoginResponse(1, id, token, Infos(users, order)), n)
  {
    var ps := Infos(users, order);
    InfosOfMembers(users, order, name, n);
    LimitIsExact(1, id, token, ps);
    forall u: u64 | u > n
      ensures !Shows(LoginResponse(1, id, token, ps), u)
    {
      AbsentFromList(ps, u);
    }
  }

  /** The client has been shown only the first `n` users. */
  ghost predicate ShownUpTo(k: Client, n: nat)
  {
    forall u: u64 :: ShownIn(k, u) ==> u <= n
  }

  /** `n` users have logged in; their clients have been shown only earlier users. */
  ghost predicate Crowd(s: State, name: Text, n: nat)
  {
    && Reachable(s) && n + 1 < ID_LIMIT && s.nextId == n + 1 && s.users == Members(name, n)
    && (forall c :: c in s.conns <==> 1 <= c <= n)
    && (forall c :: c in s.conns ==> Settled(s.conns[c], c))
  }

  ghost predicate Settled(k: Conn, c: u64)
  {
    && k.handler.address == Seat(c) && k.handler.token == c && k.handler.phase.Serving?
    && k.client.stage.LoggedIn? && ShownUpTo(k.client, c)
  }

  lemma SeatIsFree(s: State, name: Text, n: nat)
    requires Crowd(s, name, n)
    ensures CanConnect(s, Seat(n + 1), n + 1) && Visits(Seats(n + 1), s.users.Keys + {Seat(n + 1)})
  {
    MembersSit(name, n, Seat(n + 1));
    SeatsVisitMembers(name, n + 1);
    assert Members(name, n + 1).Keys == Members(name, n).Keys + {Seat(n + 1)};
  }

  lemma NextInOrder(users: Users, name: Text, n: nat)
    requires n + 1 < ID_LIMIT && users == Members(name, n)[Seat(n + 1) := Member(n + 1, name, n + 1)]
    requires Visits(Seats(n + 1), users.Keys)
    ensures SameNames(users, Seats(n + 1), name, n + 1)
  {
    var order := Seats(n + 1);
    forall i | 0 <= i < |order|
      ensures order[i] in users && users[order[i]].username == Some(name) && users[order[i]].id <= n + 1
    {
      MembersSit(name, n, order[i]);
    }
  }

  /** There is room for one more, who will be listed after the others. */
  lemma NextSeat(s: State, name: Text, n: nat) returns (order: seq<Address>)
    requires Crowd(s, name, n)
    ensures CanConnect(s, Seat(n + 1), n + 1) && Visits(order, s.users.Keys + {Seat(n + 1)})
    ensures SameNames(s.users[Seat(n + 1) := Member(n + 1, name, n + 1)], order, name, n + 1)
  {
    SeatIsFree(s, name, n);
    order := Seats(n + 1);
    NextInOrder(s.users[Seat(n + 1) := Member(n + 1, name, n + 1)], name, n);
  }

  /** The next user's login, up to the response. */
  lemma NextLogsIn(s: State, name: Text, n: nat) returns (t: State, k: Conn, order: seq<Address>)
    requires Crowd(s, name, n) && |name| == MAX_USERNAME_LEN
    ensures Adds(s, t, Member(n + 1, name, n + 1), [UserConnected(n + 1, n + 1)], k)
    ensures SameNames(t.users, order, name, n + 1)
    ensures k.handler == Handler(Seat(n + 1), n + 1, Serving, k.handler.cursor,
      [Reply(LoginResponse(1, n + 1, n + 1, Infos(t.users, order))), Announcement(Seat(n + 1), n + 1, name)], true)
    ensures k.client == LoggingIn(Seat(n + 1), n + 1, n + 1, name) && k.down == []
  {
    order := NextSeat(s, name, n);
    t, k := LogsIn(s, Seat(n + 1), n + 1, name, order);
  }

  /** The response to the next user's login fits if and only if there are at most 1488 users. */
  lemma NextLogin(s: State, name: Text, n: nat) returns (t: State, k: Conn, response: Packet)
    requires Crowd(s, name, n) && |name| == MAX_USERNAME_LEN
    ensures Adds(s, t, Member(n + 1, name, n + 1), [UserConnected(n + 1, n + 1)], k)
    ensures response.LoginResponse? && response.requestId == 1 && (Encodable(response) <==> n + 1 <= MAX_LOGGED_IN)
    ensures ShowsUpTo(response, n + 1)
    ensures k.handler == Handler(Seat(n + 1), n + 1, Serving, k.handler.cursor,
      [Reply(response), Announcement(Seat(n + 1), n + 1, name)], true)
    ensures k.client == LoggingIn(Seat(n + 1), n + 1, n + 1, name) && k.down == []
  {
    var order;
    t, k, order := NextLogsIn(s, name, n);
    response := LoginResponse(1, n + 1, n + 1, Infos(t.users, order));
    ListingOfMembers(t.users, order, name, n + 1, n + 1, n + 1);
  }

  lemma OnlyListing(k: Client, p: Packet, n: nat)
    requires |k.completed| == 1 && k.completed[0].1 == p && ShowsUpTo(p, n)
    ensures ShownUpTo(k, n)
  {
  }

  /** The next user has received the response to its login. */
  lemma NextAnswered(base: State, name: Text, n: nat) returns (s: State, k: Conn)
    requires Crowd(base, name, n) && |name| == MAX_USERNAME_LEN && n < MAX_LOGGED_IN
    ensures Adds(base, s, Member(n + 1, name, n + 1), [UserConnected(n + 1, n + 1)], k)
    ensures k.handler.todo == [Announcement(Seat(n + 1), n + 1, name)] && Settled(k, n + 1)
  {
    var user, es := Member(n + 1, name, n + 1), [UserConnected(n + 1, n + 1)];
    var s1, k1, response := NextLogin(base, name, n);
    var s2, k2 := Answers(base, s1, user, es, k1, response);
    assert [] + [response] == [response];
    s, k := Receives(base, s2, user, es, k2, response);
    OnlyListing(k.client, response, n + 1);
  }

  lemma CrowdGrows(base: State, s: State, name: Text, n: nat, es: seq<Event>, k: Conn)
    requires Crowd(base, name, n) && n + 2 < ID_LIMIT && Adds(base, s, Member(n + 1, name, n + 1), es, k)
    requires Settled(k, n + 1)
    ensures Crowd(s, name, n + 1)
  {
  }

  /** The next user logs in, and the login is announced. */
  lemma NextAnnounced(base: State, name: Text, n: nat) returns (s: State)
    requires Crowd(base, name, n) && |name| == MAX_USERNAME_LEN && n < MAX_LOGGED_IN
    ensures Crowd(s, name, n + 1)
  {
    var s1, k1 := NextAnswered(base, name, n);
    SmallFits(UserJoinedServer(ParticipantInfo(n + 1, name, false, false)));
    var k;
    s, k := Performs(base, s1, Member(n + 1, name, n + 1), [UserConnected(n + 1, n + 1)], k1);
    CrowdGrows(base, s, name, n, [UserConnected(n + 1, n + 1)] + SentEvents(k1.handler.todo[0]), k);
  }

  lemma {:induction false} CrowdGathers(name: Text, n: nat) returns (s: State)
    requires |name| == MAX_USERNAME_LEN && n <= MAX_LOGGED_IN
    ensures Crowd(s, name, n)
    decreases n
  {
    if n == 0 {
      StartIsVacant();
      s := Start();
    } else {
      var base := CrowdGathers(name, n - 1);
      s := NextAnnounced(base, name, n - 1);
    }
  }

  /** The 1489th login is never announced; the first client has not been shown the user. */
  lemma LastLogin(name: Text) returns (s: State)
    requires |name| == MAX_USERNAME_LEN
    ensures Reachable(s) && Unannounced(s, MAX_LOGGED_IN + 1)
    ensures 1 in s.conns && Settled(s.conns[1], 1)
  {
    var base := CrowdGathers(name, MAX_LOGGED_IN);
    var s1, k, response := NextLogin(base, name, MAX_LOGGED_IN);
    s := s1.(conns := s1.conns[MAX_LOGGED_IN + 1 := k.(handler := k.handler.(phase := Crashed))]);
    assert NextBy(s1, s, PanicStep(MAX_LOGGED_IN + 1));
    ReachableNext(s1, s, PanicStep(MAX_LOGGED_IN + 1));
    assert s.conns[1] == base.conns[1];
  }

  /** Whatever else client `c` receives, its list will not be complete. */
  ghost predicate StaysIncomplete(s: State, c: u64)
    requires c in s.conns
  {
    && s.conns[c].handler.cursor <= |s.channel|
    && forall pending :: IsPending(s, c, pending) ==> !AgreesExceptFor(s, c, ListOf(s, c, pending))
  }

  lemma Incomplete(s: State, c: u64, u: u64)
    requires Reachable(s) && c in s.conns && s.conns[c].handler.phase.Serving? && s.conns[c].client.stage.LoggedIn?
    requires Unannounced(s, u) && u != c && !ShownIn(s.conns[c].client, u)
    ensures StaysIncomplete(s, c)
  {
    ReachableBase(s);
    OwnFacts(s, c);
    forall pending | IsPending(s, c, pending)
      ensures !AgreesExceptFor(s, c, ListOf(s, c, pending))
    {
      Converges(s, c, pending);
    }
  }

  /** With names of 32 bytes the 1489th login is never announced, and the list of the first client stays incomplete. */
  lemma LoginsGoUnannounced(name: Text) returns (s: State)
    requires |name| == MAX_USERNAME_LEN
    ensures Reachable(s) && Unannounced(s, MAX_LOGGED_IN + 1)
    ensures 1 in s.conns && s.conns[1].handler.phase.Serving? && s.conns[1].client.stage.LoggedIn?
    ensures StaysIncomplete(s, 1)
  {
    s := LastLogin(name);
    Incomplete(s, 1, MAX_LOGGED_IN + 1);
  }
}
