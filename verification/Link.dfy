/** Requests and replies on one connection: every request is answered exactly once, in order, with the
    reply its sender expects; and how far the login has come. */
module Link {
  import opened Bytes
  import opened Sequences
  import opened Packets
  import opened Management
  import opened System

  // Requests under way

  /** The type of the request that a packet makes or answers. */
  function RequestKind(p: Packet): Option<PacketId>
  {
    match p
    case LoginRequest(_, _) => Some(LoginRequestId)
    case LoginResponse(_, _, _, _) => Some(LoginRequestId)
    case JoinVoiceChannelRequest(_) => Some(JoinVoiceChannelRequestId)
    case JoinVoiceChannelResponse(_, _) => Some(JoinVoiceChannelRequestId)
    case LeaveVoiceChannelRequest(_) => Some(LeaveVoiceChannelRequestId)
    case LeaveVoiceChannelResponse(_, _) => Some(LeaveVoiceChannelRequestId)
    case ChatMessageRequest(_, _) => Some(ChatMessageRequestId)
    case ChatMessageResponse(_, _) => Some(ChatMessageRequestId)
    case PingRequest(_) => Some(PingRequestId)
    case PingResponse(_) => Some(PingRequestId)
    case VoiceAuthRequest(_, _) => Some(VoiceAuthRequestId)
    case VoiceAuthResponse(_, _) => Some(VoiceAuthRequestId)
    case _ => None
  }

  /** `reply` is what the sender of `request` expects: the same id and the type its decoder accepts. */
  predicate Answers(request: Packet, reply: Packet)
  {
    && RequestId(request).Some? && RequestId(reply) == RequestId(request)
    && match request
       case LoginRequest(_, _) => reply.LoginResponse?
       case JoinVoiceChannelRequest(_) => reply.JoinVoiceChannelResponse?
       case LeaveVoiceChannelRequest(_) => reply.LeaveVoiceChannelResponse?
       case ChatMessageRequest(_, _) => reply.ChatMessageResponse?
       case PingRequest(_) => reply.PingResponse?
       case _ => false
  }

  /** A request under way: its id and its type. */
  datatype Item = Item(rid: u64, kind: PacketId)

  function ItemOf(p: Packet): seq<Item>
  {
    if RequestKind(p).Some? then [Item(RequestId(p).value, RequestKind(p).value)] else []
  }

  function ItemsOf(ps: seq<Packet>): seq<Item>
  {
    if ps == [] then [] else ItemOf(ps[0]) + ItemsOf(ps[1..])
  }

  predicate IsSnapshot(x: Action)
  {
    x.TakeSnapshot? || x.Collecting?
  }

  function ItemOfAction(x: Action): seq<Item>
  {
    match x
    case Reply(p) => ItemOf(p)
    case TakeSnapshot(rid, _, _) => [Item(rid, LoginRequestId)]
    case Collecting(rid, _, _, _, _, _) => [Item(rid, LoginRequestId)]
    case _ => []
  }

  function ItemsOfTodo(todo: seq<Action>): seq<Item>
  {
    if todo == [] then [] else ItemOfAction(todo[0]) + ItemsOfTodo(todo[1..])
  }

  /** The requests of a connection that are under way: answered and on the way down, being answered, and
      on the way up. */
  function Flow(k: Conn): seq<Item>
  {
    ItemsOf(k.down) + ItemsOfTodo(k.handler.todo) + ItemsOf(k.up)
  }

  lemma {:induction false} ItemsOfAppend(a: seq<Packet>, b: seq<Packet>)
    ensures ItemsOf(a + b) == ItemsOf(a) + ItemsOf(b)
    decreases |a|
  {
    if a == [] {
      assert a + b == b;
    } else {
      assert (a + b)[1..] == a[1..] + b;
      ItemsOfAppend(a[1..], b);
    }
  }

  lemma ItemsOfOne(p: Packet)
    ensures ItemsOf([p]) == ItemOf(p)
  {
    assert [p][1..] == [];
  }

  predicate AllDifferent(items: seq<Item>)
  {
    forall i, j :: 0 <= i < j < |items| ==> items[i].rid != items[j].rid
  }

  /** The id has been drawn and used. */
  predicate Used(k: Client, rid: u64)
  {
    rid < k.nextRequest && rid !in k.drawn
  }

  /** The packets that a client sends. */
  predicate IsClientPacket(p: Packet)
  {
    || p.LoginRequest? || p.JoinVoiceChannelRequest? || p.LeaveVoiceChannelRequest?
    || p.ChatMessageRequest? || p.PingRequest? || p.UserMuteState?
  }

  ghost predicate Matches(waiting: map<u64, Packet>, item: Item)
  {
    && item.rid in waiting
    && IsClientPacket(waiting[item.rid])
    && RequestKind(waiting[item.rid]) == Some(item.kind)
    && RequestId(waiting[item.rid]) == Some(item.rid)
  }

  ghost predicate UnderWay(items: seq<Item>, rid: u64)
  {
    exists i :: 0 <= i < |items| && items[i].rid == rid
  }

  /** The waiters of a client are exactly the requests under way. */
  ghost predicate WaitersMatch(k: Client, flow: seq<Item>)
  {
    && AllDifferent(flow) && (forall rid :: rid in k.drawn ==> rid < k.nextRequest)
    && (forall i :: 0 <= i < |flow| ==> Matches(k.waiting, flow[i]) && Used(k, flow[i].rid))
    && (forall rid :: rid in k.waiting ==> UnderWay(flow, rid))
  }

  /** Every completed request has the answer it expects; the ids of completed requests differ from each
      other and from those under way. */
  ghost predicate CompletedWell(k: Client, flow: seq<Item>)
  {
    && (forall i :: 0 <= i < |k.completed| ==>
          && Answers(k.completed[i].0, k.completed[i].1)
          && Used(k, RequestId(k.completed[i].0).value))
    && (forall i, j :: 0 <= i < j < |k.completed| ==>
          RequestId(k.completed[i].0) != RequestId(k.completed[j].0))
    && (forall i, j :: 0 <= i < |k.completed| && 0 <= j < |flow| ==>
          RequestId(k.completed[i].0).value != flow[j].rid)
  }

  predicate AllReplies(ps: seq<Packet>)
  {
    forall i :: 0 <= i < |ps| && RequestKind(ps[i]).Some? ==> !IsClientPacket(ps[i])
  }

  ghost predicate FlowInv(k: Conn)
  {
    && WaitersMatch(k.client, Flow(k))
    && CompletedWell(k.client, Flow(k))
    && (forall i :: 0 <= i < |k.up| ==> IsClientPacket(k.up[i]))
    && AllReplies(k.down)
    && (forall i :: 0 <= i < |k.handler.todo| && k.handler.todo[i].Reply? ==>
          !IsClientPacket(k.handler.todo[i].packet))
  }

  // How the flow changes

  /** Moving packets between the parts of a connection changes nothing as long as the flow is the same. */
  lemma SameFlow(k: Conn, k': Conn)
    requires FlowInv(k) && k'.client.waiting == k.client.waiting && k'.client.completed == k.client.completed
    requires k'.client.nextRequest == k.client.nextRequest && k'.client.drawn == k.client.drawn
    requires Flow(k') == Flow(k)
    requires forall i :: 0 <= i < |k'.up| ==> IsClientPacket(k'.up[i])
    requires AllReplies(k'.down)
    requires forall i :: 0 <= i < |k'.handler.todo| && k'.handler.todo[i].Reply? ==>
      !IsClientPacket(k'.handler.todo[i].packet)
    ensures FlowInv(k')
  {
  }

  /** Only the first step of a todo list concerns the request itself; the others announce it. */
  predicate OnlyFirstAnswers(todo: seq<Action>)
  {
    forall i :: 0 < i < |todo| ==> ItemOfAction(todo[i]) == []
  }

  lemma {:induction false} NoItems(todo: seq<Action>)
    requires forall i :: 0 <= i < |todo| ==> ItemOfAction(todo[i]) == []
    ensures ItemsOfTodo(todo) == []
  {
    if todo != [] {
      NoItems(todo[1..]);
    }
  }

  lemma FirstItem(todo: seq<Action>)
    requires todo != [] && OnlyFirstAnswers(todo)
    ensures ItemsOfTodo(todo) == ItemOfAction(todo[0])
  {
    NoItems(todo[1..]);
  }

  /** Each packet of a client is answered by exactly one reply, of the expected type. */
  lemma BeginAnswers(users: Users, a: Address, p: Packet, now: u64)
    requires a in users && IsClientPacket(p)
    ensures var todo := Begin(users, a, p, now).todo;
      && ItemsOfTodo(todo) == ItemOf(p)
      && forall i :: 0 <= i < |todo| && todo[i].Reply? ==> !IsClientPacket(todo[i].packet)
  {
    var todo := Begin(users, a, p, now).todo;
    BeginShape(users, a, p, now);
    FirstItem(todo);
  }

  lemma BeginShape(users: Users, a: Address, p: Packet, now: u64)
    requires a in users && IsClientPacket(p)
    ensures var todo := Begin(users, a, p, now).todo;
      && todo != [] && OnlyFirstAnswers(todo) && ItemOfAction(todo[0]) == ItemOf(p)
      && (todo[0].Reply? ==> !IsClientPacket(todo[0].packet))
      && forall i :: 0 < i < |todo| ==> !todo[i].Reply?
  {
  }

  lemma PushFlow(k: Client, k': Client, flow: seq<Item>, p: Packet)
    requires WaitersMatch(k, flow) && CompletedWell(k, flow)
    requires IsClientPacket(p) && RequestId(p).Some? && RequestId(p).value in k.drawn
    requires k' == AfterSending(k, p)
    ensures WaitersMatch(k', flow + ItemOf(p)) && CompletedWell(k', flow + ItemOf(p))
  {
    var rid := RequestId(p).value;
    var longer := flow + ItemOf(p);
    assert longer[|flow|].rid == rid;
    forall r | r in k'.waiting
      ensures UnderWay(longer, r)
    {
      if r != rid {
        assert UnderWay(flow, r);
        var i :| 0 <= i < |flow| && flow[i].rid == r;
        assert longer[i].rid == r;
      }
    }
    forall i | 0 <= i < |longer|
      ensures Matches(k'.waiting, longer[i]) && Used(k', longer[i].rid)
    {
      if i < |flow| {
        assert Matches(k.waiting, flow[i]);
      }
    }
  }

  lemma SendKeepsFlow(k: Conn, p: Packet)
    requires FlowInv(k) && IsClientPacket(p)
    requires RequestId(p).Some? ==> RequestId(p).value in k.client.drawn
    ensures FlowInv(k.(client := AfterSending(k.client, p), up := k.up + [p]))
  {
    var k' := k.(client := AfterSending(k.client, p), up := k.up + [p]);
    ItemsOfAppend(k.up, [p]);
    ItemsOfOne(p);
    Assoc(ItemsOf(k.down) + ItemsOfTodo(k.handler.todo), ItemsOf(k.up), ItemOf(p));
    assert Flow(k') == Flow(k) + ItemOf(p);
    if RequestId(p).Some? {
      PushFlow(k.client, k'.client, Flow(k), p);
    } else {
      assert Flow(k') == Flow(k);
    }
  }

  lemma DrawKeepsFlow(k: Conn, k': Conn)
    requires FlowInv(k) && k.client.nextRequest < ID_LIMIT
    requires k' == k.(client := k.client.(nextRequest := k.client.nextRequest + 1,
      drawn := k.client.drawn + {k.client.nextRequest}))
    ensures FlowInv(k')
  {
    assert Flow(k') == Flow(k);
  }

  lemma AnswerFits(request: Packet, reply: Packet)
    requires IsClientPacket(request) && !IsClientPacket(reply)
    requires RequestKind(request).Some? && RequestKind(reply) == RequestKind(request)
    requires RequestId(reply) == RequestId(request)
    ensures Answers(request, reply)
  {
  }

  lemma PopWaiting(k: Client, k': Client, flow: seq<Item>)
    requires WaitersMatch(k, flow) && flow != []
    requires k'.waiting == k.waiting - {flow[0].rid} && k'.nextRequest == k.nextRequest && k'.drawn == k.drawn
    ensures WaitersMatch(k', flow[1..])
  {
    var rest := flow[1..];
    forall r | r in k'.waiting
      ensures UnderWay(rest, r)
    {
      assert UnderWay(flow, r);
      var i :| 0 <= i < |flow| && flow[i].rid == r;
      assert rest[i - 1].rid == r;
    }
    forall i | 0 <= i < |rest|
      ensures Matches(k'.waiting, rest[i]) && Used(k', rest[i].rid)
    {
      assert Matches(k.waiting, flow[i + 1]);
    }
  }

  lemma PopFlow(k: Client, k': Client, flow: seq<Item>, p: Packet)
    requires WaitersMatch(k, flow) && CompletedWell(k, flow) && flow != []
    requires !IsClientPacket(p) && RequestKind(p) == Some(flow[0].kind) && RequestId(p) == Some(flow[0].rid)
    requires k' == AfterReceiving(k, p)
    ensures flow[0].rid in k.waiting && Answers(k.waiting[flow[0].rid], p)
    ensures WaitersMatch(k', flow[1..]) && CompletedWell(k', flow[1..])
  {
    assert Matches(k.waiting, flow[0]);
    AnswerFits(k.waiting[flow[0].rid], p);
    PopWaiting(k, k', flow);
    PopCompleted(k, k', flow, p);
  }

  lemma PopCompleted(k: Client, k': Client, flow: seq<Item>, p: Packet)
    requires WaitersMatch(k, flow) && CompletedWell(k, flow) && flow != []
    requires RequestId(p) == Some(flow[0].rid) && flow[0].rid in k.waiting && Answers(k.waiting[flow[0].rid], p)
    requires k'.completed == k.completed + [(k.waiting[flow[0].rid], p)]
    requires k'.nextRequest == k.nextRequest && k'.drawn == k.drawn
    ensures CompletedWell(k', flow[1..])
  {
    assert Matches(k.waiting, flow[0]);
    assert forall j :: 0 <= j < |flow[1..]| ==> flow[1..][j].rid != flow[0].rid;
  }

  lemma FlowAfterReceiving(k: Conn, k': Conn)
    requires k.down != [] && k'.down == k.down[1..] && k'.up == k.up && k'.handler == k.handler
    ensures Flow(k) == ItemOf(k.down[0]) + Flow(k')
  {
  }

  function Received(k: Conn): Conn
    requires k.down != []
  {
    k.(client := AfterReceiving(k.client, k.down[0]), down := k.down[1..])
  }

  lemma ReceiveAnswer(k: Conn)
    requires FlowInv(k) && k.down != [] && RequestKind(k.down[0]).Some?
    ensures var rid := RequestId(k.down[0]).value;
      rid in k.client.waiting && Answers(k.client.waiting[rid], k.down[0])
    ensures FlowInv(Received(k))
  {
    FlowAfterReceiving(k, Received(k));
    assert Flow(k)[1..] == Flow(Received(k));
    PopFlow(k.client, Received(k).client, Flow(k), k.down[0]);
  }

  lemma ReceiveOther(k: Conn)
    requires FlowInv(k) && k.down != [] && RequestKind(k.down[0]).None?
    ensures FlowInv(Received(k)) && Received(k).client.completed == k.client.completed
  {
    FlowAfterReceiving(k, Received(k));
    assert Flow(k) == Flow(Received(k));
    SameFlow(k, Received(k));
  }

  /** The reply at the front of the connection completes the waiter of its own request; other packets
      complete none. */
  lemma ReceiveKeepsFlow(k: Conn)
    requires FlowInv(k) && k.down != []
    ensures FlowInv(Received(k))
    ensures var rid := RequestId(k.down[0]);
      if rid.None? then Received(k).client.completed == k.client.completed
      else rid.value in k.client.waiting && Answers(k.client.waiting[rid.value], k.down[0])
  {
    if RequestKind(k.down[0]).Some? {
      ReceiveAnswer(k);
    } else {
      ReceiveOther(k);
    }
  }
}
