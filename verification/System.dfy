/** The whole system as a transition system: the management server with one handler per connection, the
    voice relay, and the clients. Every await point of a handler is a point where others may act. */
module System {
  import opened Bytes
  import opened Packets
  import opened Codec
  import opened Replica
  import opened Management
  import opened RelayState

  const ID_LIMIT: nat := 0x1_0000_0000_0000_0000

  /** Starting: not yet listening to broadcasts. Serving: in the main loop. Leaving: the loop has ended.
      Gone: the task has finished. Crashed: the task has panicked, leaving its work list as it was. */
  datatype Phase = Starting | Serving | Leaving | Gone | Crashed

  /** `cursor` is the handler's position in the broadcast channel; `todo` is what is left of the request
      in progress; `answered` records that the login snapshot is complete. */
  datatype Handler = Handler(
    address: Address, token: u64, phase: Phase, cursor: nat, todo: seq<Action>, answered: bool)

  datatype Stage = Fresh | LoginSent(requestId: u64) | LoggedIn

  /** `drawn` holds the request ids that commands have drawn and not used yet; `waiting` maps the ids of
      unanswered requests to the requests; `completed` lists the answered ones with their answers. */
  datatype Client = Client(
    stage: Stage, voiceReady: bool, participants: Participants, nextRequest: nat, drawn: set<u64>,
    waiting: map<u64, Packet>, completed: seq<(Packet, Packet)>)

  /** A connection: `up` and `down` are the packets under way to the server and to the client. */
  datatype Conn = Conn(handler: Handler, client: Client, up: seq<Packet>, down: seq<Packet>)

  /** `channel` is everything ever broadcast and `events` everything ever sent to the relay, which has
      handled the first `handled` of them; `auths` records the successful voice authentications. */
  datatype State = State(
    users: Users, nextId: nat, conns: map<u64, Conn>, channel: seq<BroadcastMessage>,
    events: seq<Event>, handled: nat, relay: Relay, auths: set<(Address, u64)>)

  ghost predicate Init(s: State)
  {
    s == State(map[], 1, map[], [], [], 0, Relay(map[], map[]), {})
  }

  function NewConn(a: Address, token: u64, id: u64): Conn
  {
    Conn(Handler(a, token, Starting, 0, [Emit(UserConnected(id, token))], false),
         Client(Fresh, false, map[], 1, {}, map[], []), [], [])
  }

  function WithTodo(k: Conn, todo: seq<Action>): Conn
  {
    k.(handler := k.handler.(todo := todo))
  }

  // Steps of the management server

  /** A connection is accepted. Assumed: the address is free, tokens are distinct, ids do not wrap. */
  ghost predicate Accept(s: State, s': State, a: Address, token: u64)
  {
    && a !in s.users
    && (forall c :: c in s.conns && !s.conns[c].handler.phase.Gone? ==> s.conns[c].handler.address != a)
    && (forall c :: c in s.conns ==> s.conns[c].handler.token != token)
    && s.nextId < ID_LIMIT
    && var id: u64 := s.nextId;
       s' == s.(users := s.users[a := User(id, None, false, false, token)], nextId := s.nextId + 1,
                conns := s.conns[id := NewConn(a, token, id)])
  }

  /** The handler starts listening to broadcasts. */
  ghost predicate Subscribe(s: State, s': State, c: u64)
  {
    && c in s.conns
    && var k := s.conns[c];
       && k.handler.phase.Starting? && k.handler.todo == []
       && s' == s.(conns := s.conns[c := k.(handler := k.handler.(phase := Serving, cursor := |s.channel|))])
  }

  /** The handler takes the next step of the work in progress. Assumed: writes of replies succeed. */
  ghost predicate Perform(s: State, s': State, c: u64)
  {
    && c in s.conns
    && var k := s.conns[c];
       && k.handler.todo != []
       && var rest := WithTodo(k, k.handler.todo[1..]);
          match k.handler.todo[0]
          case Reply(p) => Encodable(p) && s' == s.(conns := s.conns[c := rest.(down := k.down + [p])])
          case Emit(e) => s' == s.(conns := s.conns[c := rest], events := s.events + [e])
          case Broadcast(m) =>
            Encodable(m.packet) && s' == s.(conns := s.conns[c := rest], channel := s.channel + [m])
          case _ => false
  }

  /** The next step needs a packet that cannot be encoded. */
  predicate Overflows(todo: seq<Action>)
  {
    && todo != []
    && match todo[0]
       case Reply(p) => !Encodable(p)
       case Broadcast(m) => !Encodable(m.packet)
       case _ => false
  }

  /** Encoding a packet panics: the task ends on the spot, and nothing is cleaned up. Only handlers in their
      main loop ever get there (`OnlyServingOverflows` in `Crashes`). */
  ghost predicate Panic(s: State, s': State, c: u64)
  {
    && c in s.conns
    && var k := s.conns[c];
       && k.handler.phase.Serving? && Overflows(k.handler.todo)
       && s' == s.(conns := s.conns[c := k.(handler := k.handler.(phase := Crashed))])
  }

  ghost predicate Idle(k: Conn)
  {
    k.handler.phase.Serving? && k.handler.todo == []
  }

  /** An idle handler reads the client's next packet and starts to process it. */
  ghost predicate Read(s: State, s': State, c: u64, now: u64)
  {
    && c in s.conns
    && var k := s.conns[c];
       && Idle(k) && k.up != []
       && var b := Begin(s.users, k.handler.address, k.up[0], now);
          s' == s.(users := b.users, conns := s.conns[c := WithTodo(k, b.todo).(up := k.up[1..])])
  }

  function PresentIds(users: Users): set<u64>
  {
    set a | a in users :: users[a].id
  }

  /** The handler starts to list the logged-in users; each user present now is due to be visited. */
  ghost predicate StartSnapshot(s: State, s': State, c: u64)
  {
    && c in s.conns
    && var k := s.conns[c];
       && k.handler.todo != [] && k.handler.todo[0].TakeSnapshot?
       && var t := k.handler.todo[0];
          var action := Collecting(t.requestId, t.id, t.token, PresentIds(s.users), {}, []);
          s' == s.(conns := s.conns[c := WithTodo(k, [action] + k.handler.todo[1..])])
  }

  /** The handler visits the user at address `a`, in whatever state that user is at this moment. */
  ghost predicate Visit(s: State, s': State, c: u64, a: Address)
  {
    && c in s.conns && a in s.users
    && var k := s.conns[c];
       && k.handler.todo != [] && k.handler.todo[0].Collecting?
       && var t, u := k.handler.todo[0], s.users[a];
          && u.id !in t.seen
          && var found := if u.username.Some? then t.found + [InfoOf(u)] else t.found;
             var action := Collecting(t.requestId, t.id, t.token, t.due - {u.id}, t.seen + {u.id}, found);
             s' == s.(conns := s.conns[c := WithTodo(k, [action] + k.handler.todo[1..])])
  }

  /** The listing ends when no user that was due is still present and unvisited. */
  ghost predicate FinishSnapshot(s: State, s': State, c: u64)
  {
    && c in s.conns
    && var k := s.conns[c];
       && k.handler.todo != [] && k.handler.todo[0].Collecting?
       && var t := k.handler.todo[0];
          var response := LoginResponse(t.requestId, t.id, t.token, t.found);
          && (forall a :: a in s.users ==> s.users[a].id !in t.due)
          && s' == s.(conns := s.conns[c :=
               k.(handler := k.handler.(todo := [Reply(response)] + k.handler.todo[1..], answered := true))])
  }

  /** An idle handler takes the next broadcast and writes it to its client unless it is excluded. */
  ghost predicate Forward(s: State, s': State, c: u64)
  {
    && c in s.conns
    && var k := s.conns[c];
       && Idle(k) && k.handler.cursor < |s.channel|
       && var m := s.channel[k.handler.cursor];
          s' == s.(conns := s.conns[c := Conn(
            k.handler.(cursor := k.handler.cursor + 1), k.client, k.up,
            if m.ShouldSendTo(k.handler.address) then k.down + [m.packet] else k.down)])
  }

  /** An idle handler finds that its client has closed the connection. */
  ghost predicate Hangup(s: State, s': State, c: u64)
  {
    && c in s.conns
    && var k := s.conns[c];
       && Idle(k)
       && var b := BeginDisconnect(s.users, k.handler.address);
          s' == s.(users := b.users, conns := s.conns[c :=
            k.(handler := k.handler.(phase := Leaving, todo := b.todo + [Emit(UserDisconnected(c))]))])
  }

  /** Writing a broadcast fails: the main loop ends without removing the user. */
  ghost predicate WriteFails(s: State, s': State, c: u64)
  {
    && c in s.conns
    && var k := s.conns[c];
       && Idle(k) && k.handler.cursor < |s.channel|
       && s.channel[k.handler.cursor].ShouldSendTo(k.handler.address)
       && s' == s.(conns := s.conns[c :=
            k.(handler := k.handler.(phase := Leaving, todo := [Emit(UserDisconnected(c))]))])
  }

  ghost predicate Finish(s: State, s': State, c: u64)
  {
    && c in s.conns
    && var k := s.conns[c];
       && k.handler.phase.Leaving? && k.handler.todo == []
       && s' == s.(conns := s.conns[c := k.(handler := k.handler.(phase := Gone))])
  }

  // Steps of the clients

  /** What a client sends. Assumed: a valid login comes first, and mute packets carry its own id. */
  predicate MaySend(c: u64, k: Client, p: Packet)
  {
    match p
    case LoginRequest(rid, name) => k.stage.Fresh? && ValidUsername(name)
    case JoinVoiceChannelRequest(_) => k.stage.LoggedIn?
    case LeaveVoiceChannelRequest(_) => k.stage.LoggedIn?
    case ChatMessageRequest(_, _) => true
    case PingRequest(_) => true
    case UserMuteState(id, _) => k.stage.LoggedIn? && id == c
    case _ => false
  }

  /** The client after handing over packet `p`; a request uses up its id. */
  function AfterSending(k: Client, p: Packet): Client
  {
    if RequestId(p).None? then k
    else
      var rid := RequestId(p).value;
      k.(stage := if p.LoginRequest? then LoginSent(rid) else k.stage,
         drawn := k.drawn - {rid}, waiting := k.waiting[rid := p])
  }

  /** A command draws a request id; it is used when the command gets to queue its request, possibly after
      others that drew later. Assumed: the counter does not wrap around. */
  ghost predicate Draw(s: State, s': State, c: u64)
  {
    && c in s.conns
    && var k := s.conns[c];
       && k.client.nextRequest < ID_LIMIT
       && var rid: u64 := k.client.nextRequest;
          s' == s.(conns := s.conns[c :=
            k.(client := k.client.(nextRequest := k.client.nextRequest + 1, drawn := k.client.drawn + {rid}))])
  }

  /** The client encodes and sends a packet; one that does not fit is never sent. */
  ghost predicate Send(s: State, s': State, c: u64, p: Packet)
  {
    && c in s.conns
    && var k := s.conns[c];
       && MaySend(c, k.client, p) && Encodable(p)
       && (RequestId(p).Some? ==> RequestId(p).value in k.client.drawn)
       && s' == s.(conns := s.conns[c := k.(client := AfterSending(k.client, p), up := k.up + [p])])
  }

  /** The client after receiving packet `p`: a waiter is completed, and the participants list updated. */
  function AfterReceiving(k: Client, p: Packet): Client
  {
    var rid := RequestId(p);
    var k' := k.(participants := OnPacket(k.participants, p),
                 stage := if p.LoginResponse? then LoggedIn else k.stage);
    if rid.Some? && rid.value in k.waiting then
      k'.(waiting := k.waiting - {rid.value}, completed := k.completed + [(k.waiting[rid.value], p)])
    else k'
  }

  ghost predicate Receive(s: State, s': State, c: u64)
  {
    && c in s.conns
    && var k := s.conns[c];
       && k.down != []
       && s' == s.(conns := s.conns[c := k.(client := AfterReceiving(k.client, k.down[0]), down := k.down[1..])])
  }

  /** The client learns that it is authenticated with the voice relay. */
  ghost predicate LearnVoice(s: State, s': State, c: u64, a: Address)
  {
    && c in s.conns
    && var k := s.conns[c];
       && k.client.stage.LoggedIn? && (a, k.handler.token) in s.auths
       && s' == s.(conns := s.conns[c := k.(client := k.client.(voiceReady := true))])
  }

  // Steps of the voice relay

  ghost predicate RelayEvent(s: State, s': State)
  {
    && s.handled < |s.events|
    && Handles(s.relay, s.events[s.handled], s'.relay)
    && s' == s.(handled := s.handled + 1, relay := s'.relay)
  }

  /** Anyone who knows a session's token may authenticate as its user, from any address. */
  ghost predicate RelayAuth(s: State, s': State, src: Address, id: u64)
  {
    && id in s.relay.sessions
    && s' == s.(relay := Authenticate(s.relay, src, id), auths := s.auths + {(src, s.relay.sessions[id].token)})
  }

  datatype Step =
    | AcceptStep(a: Address, token: u64)
    | SubscribeStep(c: u64)
    | PerformStep(c: u64)
    | ReadStep(c: u64, now: u64)
    | StartSnapshotStep(c: u64)
    | VisitStep(c: u64, a: Address)
    | FinishSnapshotStep(c: u64)
    | ForwardStep(c: u64)
    | HangupStep(c: u64)
    | WriteFailsStep(c: u64)
    | FinishStep(c: u64)
    | PanicStep(c: u64)
    | DrawStep(c: u64)
    | SendStep(c: u64, p: Packet)
    | ReceiveStep(c: u64)
    | LearnVoiceStep(c: u64, a: Address)
    | RelayEventStep
    | RelayAuthStep(a: Address, id: u64)

  ghost predicate NextBy(s: State, s': State, step: Step)
  {
    match step
    case AcceptStep(a, token) => Accept(s, s', a, token)
    case SubscribeStep(c) => Subscribe(s, s', c)
    case PerformStep(c) => Perform(s, s', c)
    case ReadStep(c, now) => Read(s, s', c, now)
    case StartSnapshotStep(c) => StartSnapshot(s, s', c)
    case VisitStep(c, a) => Visit(s, s', c, a)
    case FinishSnapshotStep(c) => FinishSnapshot(s, s', c)
    case ForwardStep(c) => Forward(s, s', c)
    case HangupStep(c) => Hangup(s, s', c)
    case WriteFailsStep(c) => WriteFails(s, s', c)
    case FinishStep(c) => Finish(s, s', c)
    case PanicStep(c) => Panic(s, s', c)
    case DrawStep(c) => Draw(s, s', c)
    case SendStep(c, p) => Send(s, s', c, p)
    case ReceiveStep(c) => Receive(s, s', c)
    case LearnVoiceStep(c, a) => LearnVoice(s, s', c, a)
    case RelayEventStep => RelayEvent(s, s')
    case RelayAuthStep(a, id) => RelayAuth(s, s', a, id)
  }

  ghost predicate Next(s: State, s': State)
  {
    exists step :: NextBy(s, s', step)
  }

  /** A run: consecutive states are related by steps. */
  ghost predicate IsRun(run: seq<State>)
  {
    && run != []
    && forall i :: 0 <= i < |run| - 1 ==> Next(run[i], run[i + 1])
  }

  /** Step number `i` leads from one state of the run to the next. */
  ghost predicate Taken(run: seq<State>, steps: seq<Step>, i: nat)
    requires i < |steps| && i + 1 < |run|
  {
    NextBy(run[i], run[i + 1], steps[i])
  }

  /** The run takes these steps. */
  ghost predicate RunBy(run: seq<State>, steps: seq<Step>)
  {
    && |run| == |steps| + 1
    && forall i {:trigger Taken(run, steps, i)} :: 0 <= i < |steps| ==> Taken(run, steps, i)
  }

  lemma RunByIsRun(run: seq<State>, steps: seq<Step>)
    requires RunBy(run, steps)
    ensures IsRun(run)
  {
    forall i | 0 <= i < |run| - 1
      ensures Next(run[i], run[i + 1])
    {
      assert Taken(run, steps, i);
    }
  }

  ghost predicate Reachable(s: State)
  {
    exists run :: IsRun(run) && Init(run[0]) && run[|run| - 1] == s
  }

  lemma ReachableNext(s: State, t: State, step: Step)
    requires Reachable(s) && NextBy(s, t, step)
    ensures Reachable(t)
  {
    var run :| IsRun(run) && Init(run[0]) && run[|run| - 1] == s;
    var longer := run + [t];
    forall i | 0 <= i < |longer| - 1
      ensures Next(longer[i], longer[i + 1])
    {
      assert i < |run| - 1 ==> Next(run[i], run[i + 1]);
    }
    assert IsRun(longer) && longer[|longer| - 1] == t;
  }

  /** Every step keeps `inv`. */
  ghost predicate Kept(inv: State -> bool)
  {
    forall s, s', step :: inv(s) && NextBy(s, s', step) ==> inv(s')
  }

  lemma {:induction false} KeptAlong(run: seq<State>, i: nat, inv: State -> bool)
    requires IsRun(run) && inv(run[0]) && Kept(inv) && i < |run|
    ensures inv(run[i])
    decreases i
  {
    if i > 0 {
      KeptAlong(run, i - 1, inv);
      assert Next(run[i - 1], run[i - 1 + 1]);
      var step :| NextBy(run[i - 1], run[i], step);
    }
  }

  /** What holds initially and is kept by every step holds in every reachable state. */
  lemma HoldsWhenReachable(s: State, inv: State -> bool)
    requires Reachable(s) && Kept(inv) && forall s0 :: Init(s0) ==> inv(s0)
    ensures inv(s)
  {
    var run :| IsRun(run) && Init(run[0]) && run[|run| - 1] == s;
    KeptAlong(run, |run| - 1, inv);
  }
}
