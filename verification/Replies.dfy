/** What replies say: logins are told the truth, other requests always succeed, and a client's own state in voice is
    what the replies to it say. */
module Replies {
  import opened Bytes
  import opened Sequences
  import opened Packets
  import opened Management
  import opened System
  import opened Registration
  import opened Link
  import opened Progress
  import opened Invariants

  // Every reply is true

  /** A reply that connection `c` with this token may get. */
  predicate TrueReply(c: u64, token: u64, p: Packet)
  {
    match p
    case LoginResponse(_, id, told, _) => id == c && told == token
    case JoinVoiceChannelResponse(_, success) => success
    case LeaveVoiceChannelResponse(_, success) => success
    case ChatMessageResponse(_, success) => success
    case _ => true
  }

  predicate TrueAction(c: u64, token: u64, x: Action)
  {
    match x
    case Reply(p) => TrueReply(c, token, p)
    case TakeSnapshot(_, id, told) => id == c && told == token
    case Collecting(_, id, told, _, _, _) => id == c && told == token
    case _ => true
  }

  ghost predicate AllTrue(c: u64, k: Conn)
  {
    var token := k.handler.token;
    && (forall i :: 0 <= i < |k.client.completed| ==> TrueReply(c, token, k.client.completed[i].1))
    && (forall i :: 0 <= i < |k.down| ==> TrueReply(c, token, k.down[i]))
    && (forall i :: 0 <= i < |k.handler.todo| ==> TrueAction(c, token, k.handler.todo[i]))
  }

  lemma BeginIsTrue(users: Users, a: Address, p: Packet, now: u64)
    requires a in users && IsClientPacket(p) && (p.LoginRequest? ==> ValidUsername(p.username))
    ensures forall x :: x in Begin(users, a, p, now).todo ==> TrueAction(users[a].id, users[a].token, x)
  {
  }

  lemma ReadIsTrue(s: State, s': State, c: u64, now: u64)
    requires Base(s) && Read(s, s', c, now) && AllTrue(c, s.conns[c])
    ensures c in s'.conns && AllTrue(c, s'.conns[c])
  {
    var h := s.conns[c].handler;
    OwnFacts(s, c);
    assert EntryInPlace(s, c);
    assert MayBeUp(c, s.conns[c].client, s.conns[c].up[0]);
    BeginIsTrue(s.users, h.address, s.conns[c].up[0], now);
  }

  lemma ForwardIsTrue(s: State, s': State, c: u64)
    requires Forward(s, s', c) && IsEvent(s.channel[s.conns[c].handler.cursor].packet) && AllTrue(c, s.conns[c])
    ensures c in s'.conns && AllTrue(c, s'.conns[c])
  {
  }

  lemma HangupIsTrue(s: State, s': State, c: u64)
    requires Hangup(s, s', c) && AllTrue(c, s.conns[c])
    ensures c in s'.conns && AllTrue(c, s'.conns[c])
  {
  }

  lemma PerformIsTrue(s: State, s': State, c: u64)
    requires Perform(s, s', c) && AllTrue(c, s.conns[c])
    ensures c in s'.conns && AllTrue(c, s'.conns[c])
  {
    var k := s.conns[c];
    assert TrueAction(c, k.handler.token, k.handler.todo[0]);
  }

  lemma ReceiveIsTrue(k: Conn, c: u64)
    requires k.down != [] && AllTrue(c, k)
    ensures AllTrue(c, Received(k))
  {
  }

  lemma OtherwiseTrue(s: State, s': State, step: Step, c: u64)
    requires NextBy(s, s', step) && OwnerOf(step) == Some(c) && c in s.conns && AllTrue(c, s.conns[c])
    requires !step.ReadStep? && !step.ForwardStep? && !step.HangupStep? && !step.PerformStep? && !step.ReceiveStep?
    ensures c in s'.conns && AllTrue(c, s'.conns[c])
  {
    var h := s.conns[c].handler;
    if h.todo != [] {
      assert TrueAction(c, h.token, h.todo[0]);
    }
  }

  lemma OwnTrue(s: State, s': State, step: Step, c: u64)
    requires Base(s) && NextBy(s, s', step) && OwnerOf(step) == Some(c) && c in s.conns && AllTrue(c, s.conns[c])
    ensures c in s'.conns && AllTrue(c, s'.conns[c])
  {
    if step.ReadStep? {
      ReadIsTrue(s, s', c, step.now);
      return;
    }
    if step.ForwardStep? {
      ForwardIsTrue(s, s', c);
      return;
    }
    if step.HangupStep? {
      HangupIsTrue(s, s', c);
      return;
    }
    if step.PerformStep? {
      PerformIsTrue(s, s', c);
      return;
    }
    if step.ReceiveStep? {
      ReceiveIsTrue(s.conns[c], c);
      return;
    }
    OtherwiseTrue(s, s', step, c);
  }

  // Replies tell a client its own state in voice

  /** Whether the user is in voice according to the replies `ps`, having been so before them or not. */
  function VoiceAfter(inVoice: bool, ps: seq<Packet>): bool
    decreases |ps|
  {
    if ps == [] then inVoice
    else
      var n := |ps| - 1;
      match ps[n]
      case JoinVoiceChannelResponse(_, success) => success || VoiceAfter(inVoice, ps[..n])
      case LeaveVoiceChannelResponse(_, success) => !success && VoiceAfter(inVoice, ps[..n])
      case _ => VoiceAfter(inVoice, ps[..n])
  }

  lemma VoiceAfterOne(inVoice: bool, ps: seq<Packet>, p: Packet)
    ensures VoiceAfter(inVoice, ps + [p]) ==
      match p
      case JoinVoiceChannelResponse(_, success) => success || VoiceAfter(inVoice, ps)
      case LeaveVoiceChannelResponse(_, success) => !success && VoiceAfter(inVoice, ps)
      case _ => VoiceAfter(inVoice, ps)
  {
    assert (ps + [p])[..|ps|] == ps;
  }

  lemma {:induction false} VoiceAfterBoth(inVoice: bool, a: seq<Packet>, b: seq<Packet>)
    ensures VoiceAfter(inVoice, a + b) == VoiceAfter(VoiceAfter(inVoice, a), b)
    decreases |b|
  {
    if b == [] {
      assert a + b == a;
    } else {
      var n := |b| - 1;
      VoiceAfterBoth(inVoice, a, b[..n]);
      assert a + b == a + b[..n] + [b[n]];
      VoiceAfterOne(inVoice, a + b[..n], b[n]);
    }
  }

  /** The answers that a client has got, in order. */
  function Answered(k: Client): seq<Packet>
  {
    seq(|k.completed|, i requires 0 <= i < |k.completed| => k.completed[i].1)
  }

  /** All that a client has been answered and is about to be: what it has received, what is on its connection, and the
      reply that its handler is about to write. */
  function RepliesOf(k: Conn): seq<Packet>
  {
    Answered(k.client) + k.down + OwedReplies(k.handler.todo)
  }

  /** What the user's entry says is what the replies say. */
  ghost predicate VoiceIsTold(s: State, c: u64)
    requires InPlaceRegistered(s) && c in s.conns
  {
    Me(s, c).Some? ==> Me(s, c).value.inVoice == VoiceAfter(false, RepliesOf(s.conns[c]))
  }

  predicate IsVoiceReply(p: Packet)
  {
    p.JoinVoiceChannelResponse? || p.LeaveVoiceChannelResponse?
  }

  lemma VoiceSkips(a: seq<Packet>, p: Packet, b: seq<Packet>)
    requires !IsVoiceReply(p)
    ensures VoiceAfter(false, a + [p] + b) == VoiceAfter(false, a + b)
  {
    VoiceAfterBoth(false, a + [p], b);
    VoiceAfterBoth(false, a, b);
    VoiceAfterOne(false, a, p);
  }

  lemma BeginReplies(users: Users, a: Address, p: Packet, now: u64)
    requires a in users && IsClientPacket(p)
    ensures VoiceAfter(users[a].inVoice, OwedReplies(Begin(users, a, p, now).todo)) == UserAfter(users[a], p).inVoice
  {
    var todo := Begin(users, a, p, now).todo;
    BeginShape(users, a, p, now);
    NoMoreReplies(todo[1..]);
    if todo[0].Reply? {
      assert OwedReplies(todo) == [todo[0].packet] + [];
      VoiceAfterOne(users[a].inVoice, [], todo[0].packet);
      assert [] + [todo[0].packet] == OwedReplies(todo);
    } else {
      assert OwedReplies(todo) == [] + [];
    }
  }

  lemma {:induction false} NoMoreReplies(todo: seq<Action>)
    requires forall i :: 0 <= i < |todo| ==> !todo[i].Reply?
    ensures OwedReplies(todo) == []
  {
    if todo != [] {
      NoMoreReplies(todo[1..]);
    }
  }

  lemma ReadVoice(s: State, s': State, c: u64, now: u64)
    requires Base(s) && InPlaceRegistered(s') && Read(s, s', c, now) && VoiceIsTold(s, c)
    ensures c in s'.conns && VoiceIsTold(s', c)
  {
    var k, a, p := s.conns[c], s.conns[c].handler.address, s.conns[c].up[0];
    OwnFacts(s, c);
    assert EntryInPlace(s, c);
    BeginReplies(s.users, a, p, now);
    BeginChanges(s.users, a, p, now);
    var before := Answered(k.client) + k.down;
    assert RepliesOf(k) == before;
    VoiceAfterBoth(false, before, OwedReplies(Begin(s.users, a, p, now).todo));
  }

  lemma PerformVoice(s: State, s': State, c: u64)
    requires Perform(s, s', c)
    ensures c in s'.conns && RepliesOf(s'.conns[c]) == RepliesOf(s.conns[c])
  {
    var k := s.conns[c];
    var answered, rest := Answered(k.client), OwedReplies(k.handler.todo[1..]);
    if k.handler.todo[0].Reply? {
      var p := k.handler.todo[0].packet;
      Assoc(answered, k.down, [p]);
      Assoc(answered + k.down, [p], rest);
    } else {
      assert [] + rest == rest;
    }
  }

  /** The end of a listing changes nothing, as a login response says nothing about voice. */
  lemma FinishSnapshotVoice(s: State, s': State, c: u64)
    requires FinishSnapshot(s, s', c)
    ensures c in s'.conns && VoiceAfter(false, RepliesOf(s'.conns[c])) == VoiceAfter(false, RepliesOf(s.conns[c]))
  {
    var k, todo, todo' := s.conns[c], s.conns[c].handler.todo, s'.conns[c].handler.todo;
    var before, rest := Answered(k.client) + k.down, OwedReplies(todo[1..]);
    var response := todo'[0].packet;
    assert todo'[1..] == todo[1..];
    assert OwedReplies(todo') == [response] + rest && OwedReplies(todo) == [] + rest == rest;
    Assoc(before, [response], rest);
    VoiceSkips(before, response, rest);
  }

  lemma ForwardVoice(s: State, s': State, c: u64)
    requires Forward(s, s', c) && IsEvent(s.channel[s.conns[c].handler.cursor].packet)
    ensures c in s'.conns && VoiceAfter(false, RepliesOf(s'.conns[c])) == VoiceAfter(false, RepliesOf(s.conns[c]))
  {
    var k, p := s.conns[c], s.channel[s.conns[c].handler.cursor].packet;
    var before := Answered(k.client) + k.down;
    assert RepliesOf(k) == before;
    if s'.conns[c].down != k.down {
      assert RepliesOf(s'.conns[c]) == before + [p];
      VoiceAfterOne(false, before, p);
    }
  }

  lemma ReceiveVoice(k: Conn)
    requires FlowInv(k) && k.down != []
    ensures VoiceAfter(false, RepliesOf(Received(k))) == VoiceAfter(false, RepliesOf(k))
  {
    var answered, p, rest := Answered(k.client), k.down[0], k.down[1..];
    var owed := OwedReplies(k.handler.todo);
    ReceiveKeepsFlow(k);
    assert answered + k.down == answered + [p] + rest;
    if RequestId(p).Some? {
      assert Answered(Received(k).client) == answered + [p];
    } else {
      assert Answered(Received(k).client) == answered;
      Assoc(answered + [p], rest, owed);
      Assoc(answered, rest, owed);
      VoiceSkips(answered, p, rest + owed);
    }
  }

  /** The other steps after which the user's entry is still in place. */
  lemma OtherVoice(s: State, s': State, step: Step, c: u64)
    requires NextBy(s, s', step) && OwnerOf(step) == Some(c) && c in s.conns && c in s'.conns
    requires !step.ReadStep? && !step.PerformStep? && !step.FinishSnapshotStep? && !step.ForwardStep?
    requires !step.ReceiveStep? && InPlace(s'.conns[c].handler.phase)
    ensures RepliesOf(s'.conns[c]) == RepliesOf(s.conns[c]) && s'.users == s.users
  {
    var todo, todo' := s.conns[c].handler.todo, s'.conns[c].handler.todo;
    if step.StartSnapshotStep? || step.VisitStep? {
      assert todo'[1..] == todo[1..];
      assert OwedReplies(todo') == [] + OwedReplies(todo[1..]) == OwedReplies(todo);
    }
  }

  lemma QuietVoice(s: State, s': State, step: Step, c: u64)
    requires Base(s) && InPlaceRegistered(s') && NextBy(s, s', step) && OwnerOf(step) == Some(c) && c in s.conns
    requires !step.ReadStep? && c in s'.conns && InPlace(s'.conns[c].handler.phase)
    ensures VoiceAfter(false, RepliesOf(s'.conns[c])) == VoiceAfter(false, RepliesOf(s.conns[c]))
    ensures s'.users == s.users
  {
    OwnFacts(s, c);
    if step.PerformStep? {
      PerformVoice(s, s', c);
      return;
    }
    if step.FinishSnapshotStep? {
      FinishSnapshotVoice(s, s', c);
      return;
    }
    if step.ForwardStep? {
      ForwardVoice(s, s', c);
      return;
    }
    if step.ReceiveStep? {
      ReceiveVoice(s.conns[c]);
      return;
    }
    OtherVoice(s, s', step, c);
  }

  lemma OwnVoice(s: State, s': State, step: Step, c: u64)
    requires Base(s) && InPlaceRegistered(s') && NextBy(s, s', step) && OwnerOf(step) == Some(c) && c in s.conns
    requires VoiceIsTold(s, c)
    ensures c in s'.conns && VoiceIsTold(s', c)
  {
    StepIsLocal(s, s', step);
    if step.ReadStep? {
      ReadVoice(s, s', c, step.now);
      return;
    }
    if InPlace(s'.conns[c].handler.phase) {
      QuietVoice(s, s', step, c);
      assert Registered(s, c);
    }
  }

  // In every reachable state

  ghost predicate RepliesInv(s: State)
    requires InPlaceRegistered(s)
  {
    forall c {:trigger Here(s, c)} :: Here(s, c) ==> AllTrue(c, s.conns[c]) && VoiceIsTold(s, c)
  }

  ghost predicate RepliesBase(s: State)
  {
    Base(s) && RepliesInv(s)
  }

  lemma NewReplies(s: State, s': State, a: Address, token: u64)
    requires InPlaceRegistered(s') && Accept(s, s', a, token)
    ensures s.nextId in s'.conns && AllTrue(s.nextId, s'.conns[s.nextId]) && VoiceIsTold(s', s.nextId)
  {
    var k := s'.conns[s.nextId];
    assert k.handler.todo[1..] == [] && OwedReplies(k.handler.todo) == [] + [];
    assert RepliesOf(k) == [];
    assert Registered(s', s.nextId);
  }

  lemma RepliesOfOthers(s: State, s': State, step: Step, c: u64)
    requires Base(s) && Base(s') && RepliesInv(s) && NextBy(s, s', step) && c in s.conns && OwnerOf(step) != Some(c)
    ensures c in s'.conns && s'.conns[c] == s.conns[c] && VoiceIsTold(s', c)
  {
    assert Here(s, c);
    if OwnerOf(step).Some? {
      StepIsLocal(s, s', step);
      OthersKeepEntry(s, s', OwnerOf(step).value, c);
    } else if step.AcceptStep? {
      AcceptKeepsConn(s, s', step.a, step.token, c);
    } else {
      assert InPlace(s.conns[c].handler.phase) ==> Registered(s, c);
    }
  }

  lemma RepliesStep(s: State, s': State, step: Step)
    requires RepliesBase(s) && NextBy(s, s', step)
    ensures RepliesBase(s')
  {
    BaseStep(s, s', step);
    forall c | Here(s', c)
      ensures AllTrue(c, s'.conns[c]) && VoiceIsTold(s', c)
    {
      if step.AcceptStep? && c == s.nextId {
        NewReplies(s, s', step.a, step.token);
      } else {
        OldReplies(s, s', step, c);
      }
    }
  }

  lemma OldReplies(s: State, s': State, step: Step, c: u64)
    requires RepliesBase(s) && Base(s') && NextBy(s, s', step) && c in s'.conns
    requires step.AcceptStep? ==> c != s.nextId
    ensures AllTrue(c, s'.conns[c]) && VoiceIsTold(s', c)
  {
    if OwnerOf(step).Some? {
      StepIsLocal(s, s', step);
    }
    assert Here(s, c);
    if OwnerOf(step) == Some(c) {
      OwnTrue(s, s', step, c);
      OwnVoice(s, s', step, c);
    } else {
      RepliesOfOthers(s, s', step, c);
    }
  }

  lemma ReachableReplies(s: State)
    requires Reachable(s)
    ensures RepliesBase(s)
  {
    forall x, y, step | RepliesBase(x) && NextBy(x, y, step)
      ensures RepliesBase(y)
    {
      RepliesStep(x, y, step);
    }
    HoldsWhenReachable(s, RepliesBase);
  }

  lemma UnderWayIsReply(k: Conn, i: nat)
    requires i < |k.down|
    ensures k.down[i] in RepliesOf(k)
  {
    assert RepliesOf(k)[|Answered(k.client)| + i] == k.down[i];
  }

  /** In every reachable state: every reply that a client has got, or that is under way to it, tells the truth. A login
      response tells the client its own id and token, and joins, leaves and chat messages succeed. */
  lemma RepliesAreTrue(s: State, c: u64, p: Packet)
    requires Reachable(s) && c in s.conns && p in RepliesOf(s.conns[c])
    ensures p.LoginResponse? ==> p.id == c && p.voiceToken == s.conns[c].handler.token
    ensures p.JoinVoiceChannelResponse? || p.LeaveVoiceChannelResponse? || p.ChatMessageResponse? ==> p.success
  {
    ReachableReplies(s);
    assert Here(s, c);
    EachIsTrue(c, s.conns[c], p);
  }

  lemma EachIsTrue(c: u64, k: Conn, p: Packet)
    requires AllTrue(c, k) && p in RepliesOf(k)
    ensures TrueReply(c, k.handler.token, p)
  {
    if p in OwedReplies(k.handler.todo) {
      OwedAreTodo(k.handler.todo, p);
      var i :| 0 <= i < |k.handler.todo| && k.handler.todo[i] == Reply(p);
      assert TrueAction(c, k.handler.token, k.handler.todo[i]);
    } else if p in k.down {
    } else {
      assert p in Answered(k.client);
    }
  }

  lemma {:induction false} OwedAreTodo(todo: seq<Action>, p: Packet)
    requires p in OwedReplies(todo)
    ensures exists i :: 0 <= i < |todo| && todo[i] == Reply(p)
  {
    if !(todo[0].Reply? && todo[0].packet == p) {
      OwedAreTodo(todo[1..], p);
      var i :| 0 <= i < |todo[1..]| && todo[1..][i] == Reply(p);
      assert todo[i + 1] == Reply(p);
    }
  }

  /** The last join or leave in `ps` is a join, the `i`-th. */
  predicate LastJoin(ps: seq<Packet>, i: nat)
  {
    && i < |ps| && ps[i].JoinVoiceChannelResponse?
    && forall j :: i < j < |ps| ==> !ps[j].LeaveVoiceChannelResponse?
  }

  /** In every reachable state a user whose entry is in place is in voice if and only if the last reply to a join or
      leave, of those received and those under way, was to a join. */
  lemma RepliesTellVoice(s: State, c: u64)
    requires Reachable(s) && c in s.conns && InPlace(s.conns[c].handler.phase)
    ensures s.conns[c].handler.address in s.users
    ensures s.users[s.conns[c].handler.address].inVoice <==> exists i: nat :: LastJoin(RepliesOf(s.conns[c]), i)
  {
    ReachableReplies(s);
    assert Here(s, c) && Registered(s, c);
    var all := RepliesOf(s.conns[c]);
    forall p | p in all
      ensures IsVoiceReply(p) ==> p.success
    {
      RepliesAreTrue(s, c, p);
    }
    LastVoiceReply(all);
  }

  lemma {:induction false} LastVoiceReply(ps: seq<Packet>)
    requires forall i :: 0 <= i < |ps| && IsVoiceReply(ps[i]) ==> ps[i].success
    ensures VoiceAfter(false, ps) <==> exists i: nat :: LastJoin(ps, i)
    decreases |ps|
  {
    if ps != [] {
      var n := |ps| - 1;
      LastVoiceReply(ps[..n]);
      forall i: nat | LastJoin(ps, i) && i < n
        ensures LastJoin(ps[..n], i)
      {
      }
      if ps[n].JoinVoiceChannelResponse? {
        assert LastJoin(ps, n);
      } else if i: nat :| LastJoin(ps[..n], i) {
        assert ps[n].LeaveVoiceChannelResponse? || LastJoin(ps, i);
      }
    }
  }

  // What a request sets going

  /** In every reachable state a request finds its user and is carried out: the user's entry changes at once, and the
      answer, the event for the relay and the broadcast to the others follow in this order. */
  lemma RequestTakesEffect(s: State, s': State, c: u64, now: u64)
    requires Reachable(s) && Read(s, s', c, now)
    ensures var a := s.conns[c].handler.address;
      && a in s.users && c in s'.conns
      && var user, todo := s.users[a], s'.conns[c].handler.todo;
         match s.conns[c].up[0]
         case LoginRequest(rid, name) =>
           && s'.users == s.users[a := user.(username := Some(name))] && 1 <= |name| <= 32
           && |todo| == 2 && todo[0] == TakeSnapshot(rid, c, s.conns[c].handler.token)
           && todo[1] == Broadcast(BroadcastMessage(Some(a), UserJoinedServer(ParticipantInfo(c, name, false, false))))
         case JoinVoiceChannelRequest(rid) =>
           && s'.users == s.users[a := user.(inVoice := true, isMuted := false)]
           && |todo| == 3 && todo[0] == Reply(JoinVoiceChannelResponse(rid, true)) && todo[1] == Emit(VoiceJoined(c))
           && todo[2] == Broadcast(BroadcastMessage(Some(a), UserJoinedVoice(c)))
         case LeaveVoiceChannelRequest(rid) =>
           && s'.users == s.users[a := user.(inVoice := false, isMuted := false)]
           && |todo| == 3 && todo[0] == Reply(LeaveVoiceChannelResponse(rid, true)) && todo[1] == Emit(VoiceLeft(c))
           && todo[2] == Broadcast(BroadcastMessage(Some(a), UserLeftVoice(c)))
         case ChatMessageRequest(rid, message) =>
           && s'.users == s.users && |todo| == 2 && todo[0] == Reply(ChatMessageResponse(rid, true))
           && todo[1] == Broadcast(BroadcastMessage(None, UserSentMessage(c, now, message)))
         case PingRequest(rid) => s'.users == s.users && todo == [Reply(PingResponse(rid))]
         case UserMuteState(id, isMuted) =>
           && s'.users == s.users[a := user.(isMuted := isMuted)] && id == c
           && todo == [Broadcast(BroadcastMessage(Some(a), UserMuteState(c, isMuted)))]
         case _ => false
  {
    ReachableBase(s);
    OwnFacts(s, c);
    assert EntryInPlace(s, c);
    assert MayBeUp(c, s.conns[c].client, s.conns[c].up[0]);
  }

  /** And so does the end of the connection: the user is removed at once, and everyone is told that the user has left
      the server, and voice too if the user was in voice, before the relay is. */
  lemma HangupTakesEffect(s: State, s': State, c: u64)
    requires Reachable(s) && Hangup(s, s', c)
    ensures var a := s.conns[c].handler.address;
      && a in s.users && c in s'.conns && s'.users == s.users - {a}
      && s'.conns[c].handler.todo ==
           [Broadcast(BroadcastMessage(None, UserLeftServer(c)))]
           + (if s.users[a].inVoice then [Broadcast(BroadcastMessage(None, UserLeftVoice(c)))] else [])
           + [Emit(UserDisconnected(c))]
  {
    ReachableBase(s);
    assert EntryInPlace(s, c);
  }
}
