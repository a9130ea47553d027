/** What is known about each connection in every reachable state. */
module Progress {
  import opened Bytes
  import opened Sequences
  import opened Packets
  import opened Management
  import opened System
  import opened Link

  predicate IsEvent(p: Packet)
  {
    || p.UserJoinedServer? || p.UserJoinedVoice? || p.UserLeftVoice? || p.UserLeftServer?
    || p.UserSentMessage? || p.UserMuteState?
  }

  /** The user whose presence an event changes. */
  function Subject(p: Packet): Option<u64>
  {
    match p
    case UserJoinedServer(info) => Some(info.userId)
    case UserJoinedVoice(id) => Some(id)
    case UserLeftVoice(id) => Some(id)
    case UserLeftServer(id) => Some(id)
    case UserMuteState(id, _) => Some(id)
    case _ => None
  }

  predicate AboutOnly(p: Packet, c: u64)
  {
    IsEvent(p) && (Subject(p).Some? ==> Subject(p) == Some(c))
  }

  predicate ActionOk(c: u64, h: Handler, x: Action)
  {
    match x
    case Reply(p) => !IsClientPacket(p) && !IsEvent(p) && (p.LoginResponse? ==> p.id == c && h.answered)
    case Emit(e) => e.id == c
    case Broadcast(m) => AboutOnly(m.packet, c) && (m.exclude == None || m.exclude == Some(h.address))
    case TakeSnapshot(_, id, _) => id == c && h.phase.Serving? && !h.answered
    case Collecting(_, id, _, due, seen, found) =>
      && id == c && h.phase.Serving? && !h.answered && due !! seen
      && forall i :: 0 <= i < |found| ==> found[i].userId in seen
  }

  /** The steps that a handler still has to take. */
  ghost predicate TodoInv(c: u64, h: Handler)
  {
    && (forall i :: 0 <= i < |h.todo| ==> ActionOk(c, h, h.todo[i]))
    && (forall i :: 0 < i < |h.todo| ==> !IsSnapshot(h.todo[i]))
    && (h.phase.Starting? ==> !h.answered && (h.todo == [] || h.todo == [Emit(UserConnected(c, h.token))]))
    && (h.phase.Gone? ==> h.todo == [])
  }

  /** What a client may have on the way to the server at each stage of its login. */
  predicate MayBeUp(c: u64, k: Client, p: Packet)
  {
    && (p.LoginRequest? ==> ValidUsername(p.username))
    && (p.JoinVoiceChannelRequest? || p.LeaveVoiceChannelRequest? || p.UserMuteState? ==> k.stage.LoggedIn?)
    && (p.UserMuteState? ==> p.userId == c)
  }

  /** A login is under way exactly when the client is waiting for its answer. */
  ghost predicate StageInv(h: Handler, cl: Client)
  {
    && (forall rid :: rid in cl.waiting ==> (cl.waiting[rid].LoginRequest? <==> cl.stage == LoginSent(rid)))
    && (cl.stage.LoginSent? ==> cl.stage.requestId in cl.waiting)
    && (cl.stage.LoggedIn? ==> h.answered)
    && (cl.stage.Fresh? ==> !h.answered)
  }

  ghost predicate WiresInv(c: u64, k: Conn)
  {
    && (forall i :: 0 <= i < |k.up| ==> MayBeUp(c, k.client, k.up[i]))
    && (forall i :: 0 <= i < |k.down| && k.down[i].LoginResponse? ==> k.handler.answered && k.down[i].id == c)
  }

  /** What the login has achieved so far shows in the user's entry. */
  ghost predicate EntryInv(c: u64, k: Conn, u: User)
  {
    var h := k.handler;
    && u.id == c
    && (u.username.Some? ==> ValidUsername(u.username.value))
    && (u.username.None? ==> !u.inVoice && !u.isMuted)
    && (k.client.stage.Fresh? ==> u.username.None?)
    && (h.answered ==> u.username.Some?)
    && (u.username.Some? && !h.answered <==> h.todo != [] && IsSnapshot(h.todo[0]))
    && (forall i :: 0 <= i < |k.up| && k.up[i].LoginRequest? ==> u.username.None?)
  }

  ghost predicate LoginInv(c: u64, k: Conn, me: Option<User>)
  {
    StageInv(k.handler, k.client) && WiresInv(c, k) && (me.Some? ==> EntryInv(c, k, me.value))
  }

  ghost predicate ConnOk(c: u64, k: Conn, me: Option<User>)
  {
    FlowInv(k) && TodoInv(c, k.handler) && LoginInv(c, k, me)
  }

  // Client steps

  lemma SendOk(c: u64, k: Conn, me: Option<User>, p: Packet)
    requires ConnOk(c, k, me) && MaySend(c, k.client, p)
    requires RequestId(p).Some? ==> RequestId(p).value in k.client.drawn
    ensures ConnOk(c, k.(client := AfterSending(k.client, p), up := k.up + [p]), me)
  {
    SendKeepsFlow(k, p);
    SendKeepsLogin(c, k, me, p);
  }

  lemma SendKeepsLogin(c: u64, k: Conn, me: Option<User>, p: Packet)
    requires LoginInv(c, k, me) && MaySend(c, k.client, p)
    requires RequestId(p).Some? ==> RequestId(p).value !in k.client.waiting
    ensures LoginInv(c, k.(client := AfterSending(k.client, p), up := k.up + [p]), me)
  {
    var k' := k.(client := AfterSending(k.client, p), up := k.up + [p]);
    assert StageInv(k'.handler, k'.client);
    assert WiresInv(c, k') by {
      assert MayBeUp(c, k'.client, p);
      assert forall i :: 0 <= i < |k.up| ==> MayBeUp(c, k.client, k.up[i]);
    }
  }

  lemma LearnVoiceOk(c: u64, k: Conn, me: Option<User>)
    requires ConnOk(c, k, me)
    ensures ConnOk(c, k.(client := k.client.(voiceReady := true)), me)
  {
    SameFlow(k, k.(client := k.client.(voiceReady := true)));
  }

  lemma DrawOk(c: u64, k: Conn, me: Option<User>, k': Conn)
    requires ConnOk(c, k, me) && k.client.nextRequest < ID_LIMIT
    requires k' == k.(client := k.client.(nextRequest := k.client.nextRequest + 1,
      drawn := k.client.drawn + {k.client.nextRequest}))
    ensures ConnOk(c, k', me)
  {
    DrawKeepsFlow(k, k');
  }

  lemma ReceiveOk(c: u64, k: Conn, me: Option<User>)
    requires ConnOk(c, k, me) && k.down != []
    ensures ConnOk(c, Received(k), me)
  {
    ReceiveKeepsFlow(k);
    if k.down[0].LoginResponse? {
      var rid := RequestId(k.down[0]).value;
      assert k.client.waiting[rid].LoginRequest?;
    }
  }

  // Handler steps

  /** The flow of a connection whose handler moves on to `todo`. */
  lemma TodoKeepsFlow(k: Conn, k': Conn)
    requires FlowInv(k) && k'.client == k.client && k'.up == k.up && k'.down == k.down
    requires ItemsOfTodo(k'.handler.todo) == ItemsOfTodo(k.handler.todo)
    requires forall i :: 0 <= i < |k'.handler.todo| && k'.handler.todo[i].Reply? ==>
      !IsClientPacket(k'.handler.todo[i].packet)
    ensures FlowInv(k')
  {
    SameFlow(k, k');
  }

  lemma ReplyKeepsFlow(k: Conn, p: Packet)
    requires FlowInv(k) && k.handler.todo != [] && k.handler.todo[0] == Reply(p)
    ensures FlowInv(WithTodo(k, k.handler.todo[1..]).(down := k.down + [p]))
  {
    var k' := WithTodo(k, k.handler.todo[1..]).(down := k.down + [p]);
    ReplySameFlow(k, k', p);
    SameFlow(k, k');
  }

  lemma ReplySameFlow(k: Conn, k': Conn, p: Packet)
    requires k.handler.todo != [] && k.handler.todo[0] == Reply(p) && k'.handler.todo == k.handler.todo[1..]
    requires k'.down == k.down + [p] && k'.up == k.up
    ensures Flow(k') == Flow(k)
  {
    ItemsOfAppend(k.down, [p]);
    ItemsOfOne(p);
    Assoc(ItemsOf(k.down), ItemOf(p), ItemsOfTodo(k.handler.todo[1..]));
  }

  lemma ReplyOk(c: u64, k: Conn, me: Option<User>)
    requires ConnOk(c, k, me) && k.handler.todo != [] && k.handler.todo[0].Reply?
    ensures ConnOk(c, WithTodo(k, k.handler.todo[1..]).(down := k.down + [k.handler.todo[0].packet]), me)
  {
    assert ActionOk(c, k.handler, k.handler.todo[0]);
    ReplyKeepsFlow(k, k.handler.todo[0].packet);
    PopKeepsTodo(c, k.handler);
  }

  lemma PopKeepsTodo(c: u64, h: Handler)
    requires TodoInv(c, h) && h.todo != []
    ensures TodoInv(c, h.(todo := h.todo[1..]))
  {
    var h' := h.(todo := h.todo[1..]);
    forall i | 0 <= i < |h'.todo|
      ensures ActionOk(c, h', h'.todo[i]) && !IsSnapshot(h'.todo[i])
    {
      assert h'.todo[i] == h.todo[i + 1];
      assert ActionOk(c, h, h.todo[i + 1]);
    }
  }

  lemma MessageOk(c: u64, k: Conn, me: Option<User>)
    requires ConnOk(c, k, me) && k.handler.todo != []
    requires k.handler.todo[0].Emit? || k.handler.todo[0].Broadcast?
    ensures ConnOk(c, WithTodo(k, k.handler.todo[1..]), me)
  {
    TodoKeepsFlow(k, WithTodo(k, k.handler.todo[1..]));
    PopKeepsTodo(c, k.handler);
  }

  /** Reading a packet: the user's entry becomes the one that `Begin` leaves. */
  lemma ReadOk(c: u64, k: Conn, users: Users, now: u64)
    requires k.handler.address in users && ConnOk(c, k, Some(users[k.handler.address]))
    requires Idle(k) && k.up != []
    ensures var b := Begin(users, k.handler.address, k.up[0], now);
      && k.handler.address in b.users
      && ConnOk(c, WithTodo(k, b.todo).(up := k.up[1..]), Some(b.users[k.handler.address]))
  {
    var p, a := k.up[0], k.handler.address;
    var b := Begin(users, a, p, now);
    var k' := WithTodo(k, b.todo).(up := k.up[1..]);
    BeginAnswers(users, a, p, now);
    assert ItemsOf(k.up) == ItemOf(p) + ItemsOf(k.up[1..]);
    assert Flow(k') == Flow(k);
    SameFlow(k, k');
    ReadKeepsTodo(c, k, users, now);
    ReadKeepsLogin(c, k, users, now);
  }

  lemma ReadKeepsTodo(c: u64, k: Conn, users: Users, now: u64)
    requires k.handler.address in users && ConnOk(c, k, Some(users[k.handler.address]))
    requires Idle(k) && k.up != []
    ensures TodoInv(c, k.handler.(todo := Begin(users, k.handler.address, k.up[0], now).todo))
  {
    assert MayBeUp(c, k.client, k.up[0]);
    assert IsClientPacket(k.up[0]);
    BeginActions(c, k.handler, users, k.up[0], now);
  }

  lemma BeginActions(c: u64, h: Handler, users: Users, p: Packet, now: u64)
    requires h.address in users && users[h.address].id == c && h.phase.Serving?
    requires IsClientPacket(p) && (p.UserMuteState? ==> p.userId == c)
    requires p.LoginRequest? ==> !h.answered && ValidUsername(p.username)
    ensures TodoInv(c, h.(todo := Begin(users, h.address, p, now).todo))
  {
  }

  /** The requests on the way up have waiters, and their ids increase. */
  lemma UpItems(k: Conn, j: nat)
    requires FlowInv(k) && 0 < j < |k.up| && RequestKind(k.up[0]).Some? && RequestKind(k.up[j]).Some?
    ensures Matches(k.client.waiting, ItemOf(k.up[0])[0]) && Matches(k.client.waiting, ItemOf(k.up[j])[0])
    ensures RequestId(k.up[0]) != RequestId(k.up[j])
  {
    ItemsOfSplit(k.up, j);
    var n := |ItemsOf(k.down) + ItemsOfTodo(k.handler.todo)|;
    var m := |ItemsOf(k.up[..j])|;
    assert Flow(k)[n] == ItemOf(k.up[0])[0] && Flow(k)[n + m] == ItemOf(k.up[j])[0];
  }

  lemma FirstUpItem(k: Conn)
    requires FlowInv(k) && k.up != [] && RequestKind(k.up[0]).Some?
    ensures Matches(k.client.waiting, ItemOf(k.up[0])[0])
  {
    assert Flow(k)[|ItemsOf(k.down) + ItemsOfTodo(k.handler.todo)|] == ItemOf(k.up[0])[0];
  }

  lemma OneLogin(c: u64, k: Conn, me: Option<User>, j: nat)
    requires ConnOk(c, k, me) && 0 < j < |k.up| && k.up[0].LoginRequest?
    ensures !k.up[j].LoginRequest?
  {
    if k.up[j].LoginRequest? {
      UpItems(k, j);
    }
  }

  lemma ItemsOfSplit(ps: seq<Packet>, j: nat)
    requires 0 < j < |ps|
    ensures ItemsOf(ps) == ItemsOf(ps[..j]) + (ItemOf(ps[j]) + ItemsOf(ps[j + 1..]))
    ensures ItemsOf(ps[..j]) == ItemOf(ps[0]) + ItemsOf(ps[1..j])
  {
    var head, tail := ps[..j], ps[j..];
    SplitAt(ps, j);
    ItemsOfAppend(head, tail);
  }

  lemma ReadKeepsLogin(c: u64, k: Conn, users: Users, now: u64)
    requires k.handler.address in users && ConnOk(c, k, Some(users[k.handler.address]))
    requires Idle(k) && k.up != []
    ensures var b := Begin(users, k.handler.address, k.up[0], now);
      && k.handler.address in b.users
      && LoginInv(c, WithTodo(k, b.todo).(up := k.up[1..]), Some(b.users[k.handler.address]))
  {
    assert MayBeUp(c, k.client, k.up[0]);
    assert IsClientPacket(k.up[0]);
    if k.up[0].LoginRequest? {
      FirstUpItem(k);
      forall j | 0 < j < |k.up|
        ensures !k.up[j].LoginRequest?
      {
        OneLogin(c, k, Some(users[k.handler.address]), j);
      }
    }
  }

  lemma SnapshotOk(c: u64, k: Conn, me: Option<User>, x: Action)
    requires ConnOk(c, k, me) && k.handler.todo != [] && IsSnapshot(k.handler.todo[0])
    requires x.Collecting? && ItemOfAction(x) == ItemOfAction(k.handler.todo[0])
    requires ActionOk(c, k.handler, x)
    ensures ConnOk(c, WithTodo(k, [x] + k.handler.todo[1..]), me)
  {
    var k' := WithTodo(k, [x] + k.handler.todo[1..]);
    assert TodoInv(c, k'.handler) by {
      forall i | 0 <= i < |k'.handler.todo|
        ensures ActionOk(c, k'.handler, k'.handler.todo[i])
      {
        assert i > 0 ==> ActionOk(c, k.handler, k.handler.todo[i]);
      }
    }
  }

  lemma FinishSnapshotOk(c: u64, k: Conn, me: Option<User>, response: Packet)
    requires ConnOk(c, k, me) && k.handler.todo != [] && k.handler.todo[0].Collecting?
    requires response.LoginResponse? && response.id == c && response.requestId == k.handler.todo[0].requestId
    requires me.Some? ==> me.value.username.Some?
    ensures ConnOk(c, k.(handler := k.handler.(todo := [Reply(response)] + k.handler.todo[1..], answered := true)), me)
  {
    var k' := k.(handler := k.handler.(todo := [Reply(response)] + k.handler.todo[1..], answered := true));
    assert ActionOk(c, k.handler, k.handler.todo[0]);
    assert TodoInv(c, k'.handler) by {
      forall i | 0 <= i < |k'.handler.todo|
        ensures ActionOk(c, k'.handler, k'.handler.todo[i])
      {
        assert i > 0 ==> ActionOk(c, k.handler, k.handler.todo[i]) && !IsSnapshot(k.handler.todo[i]);
      }
    }
    SnapshotMeansLogin(k);
  }

  /** A snapshot is taken only for a client that waits for the answer to its login. */
  lemma SnapshotMeansLogin(k: Conn)
    requires FlowInv(k) && StageInv(k.handler, k.client)
    requires k.handler.todo != [] && IsSnapshot(k.handler.todo[0])
    ensures k.client.stage.LoginSent?
  {
    var item := ItemOfAction(k.handler.todo[0])[0];
    assert Flow(k)[|ItemsOf(k.down)|] == item;
    assert Matches(k.client.waiting, item);
  }

  lemma ForwardKeepsFlow(k: Conn, k': Conn, p: Packet)
    requires FlowInv(k) && IsEvent(p)
    requires k' == k.(handler := k'.handler, down := k.down + [p]) && k'.handler.todo == k.handler.todo
    ensures FlowInv(k')
  {
    ItemsOfAppend(k.down, [p]);
    ItemsOfOne(p);
    assert ItemsOf(k'.down) == ItemsOf(k.down);
    SameFlow(k, k');
  }

  /** Writing a broadcast, or skipping it. */
  lemma ForwardOk(c: u64, k: Conn, me: Option<User>, p: Packet, write: bool, cursor: nat)
    requires ConnOk(c, k, me) && IsEvent(p)
    ensures ConnOk(c, Conn(k.handler.(cursor := cursor), k.client, k.up, if write then k.down + [p] else k.down), me)
  {
    var h' := k.handler.(cursor := cursor);
    SameWork(c, k.handler, h');
    if write {
      ForwardKeepsFlow(k, Conn(h', k.client, k.up, k.down + [p]), p);
    } else {
      SameFlow(k, Conn(h', k.client, k.up, k.down));
    }
  }

  lemma SameWork(c: u64, h: Handler, h': Handler)
    requires TodoInv(c, h) && h' == h.(cursor := h'.cursor)
    ensures TodoInv(c, h')
  {
    forall i | 0 <= i < |h'.todo|
      ensures ActionOk(c, h', h'.todo[i])
    {
      assert ActionOk(c, h, h.todo[i]);
    }
  }

  /** An idle handler enters its last phase, in which it only sends events and broadcasts. */
  lemma LeaveOk(c: u64, k: Conn, me: Option<User>, todo: seq<Action>)
    requires ConnOk(c, k, me) && Idle(k)
    requires forall i :: 0 <= i < |todo| ==> (todo[i].Emit? || todo[i].Broadcast?) && ActionOk(c, k.handler, todo[i])
    ensures ConnOk(c, k.(handler := k.handler.(phase := Leaving, todo := todo)), None)
  {
    var k' := k.(handler := k.handler.(phase := Leaving, todo := todo));
    NoItems(todo);
    TodoKeepsFlow(k, k');
    forall i | 0 <= i < |todo|
      ensures ActionOk(c, k'.handler, todo[i])
    {
      assert ActionOk(c, k.handler, todo[i]);
    }
  }

  /** A handler without work moves on to another phase. */
  lemma PhaseOk(c: u64, k: Conn, me: Option<User>, h: Handler)
    requires ConnOk(c, k, me) && k.handler.todo == []
    requires h == k.handler.(phase := h.phase, cursor := h.cursor) && !h.phase.Starting?
    ensures ConnOk(c, k.(handler := h), me)
  {
    SameFlow(k, k.(handler := h));
  }

  /** A task that panics leaves its work as it is. */
  lemma CrashOk(c: u64, k: Conn, me: Option<User>)
    requires ConnOk(c, k, me) && Overflows(k.handler.todo) && k.handler.phase.Serving?
    ensures ConnOk(c, k.(handler := k.handler.(phase := Crashed)), me)
  {
    var k' := k.(handler := k.handler.(phase := Crashed));
    SameFlow(k, k');
    forall i | 0 <= i < |k'.handler.todo|
      ensures ActionOk(c, k'.handler, k'.handler.todo[i])
    {
      assert ActionOk(c, k.handler, k.handler.todo[i]);
    }
  }

  lemma NewConnOk(c: u64, a: Address, token: u64)
    ensures ConnOk(c, NewConn(a, token, c), Some(User(c, None, false, false, token)))
  {
    NewFlow(c, a, token);
    assert TodoInv(c, NewConn(a, token, c).handler);
  }

  lemma NothingUnderWay(k: Conn)
    requires Flow(k) == [] && k.up == [] && k.down == [] && k.client.drawn == {}
    requires k.client.waiting == map[] && k.client.completed == []
    requires forall i :: 0 <= i < |k.handler.todo| ==> !k.handler.todo[i].Reply?
    ensures FlowInv(k)
  {
  }

  lemma NewFlow(c: u64, a: Address, token: u64)
    ensures FlowInv(NewConn(a, token, c))
  {
    var k := NewConn(a, token, c);
    NoItems(k.handler.todo);
    NothingUnderWay(k);
  }
}
