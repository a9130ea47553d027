/** Chat messages: over every part of every run none is lost, duplicated or reordered, and all clients see
    them in the same order. */
module ChatDelivery {
  import opened Bytes
  import opened Utf8Text
  import opened Sequences
  import opened Packets
  import opened Replica
  import opened Management
  import opened System
  import opened Registration
  import opened Link
  import opened Invariants
  import opened Presence

  /** A chat message, its author and the time that the server has put on it. */
  datatype Chat = Chat(author: u64, sentAt: u64, text: Text)

  function ChatsOf(p: Packet): seq<Chat>
  {
    if p.UserSentMessage? then [Chat(p.userId, p.sentAt, p.message)] else []
  }

  /** The chat messages among `ps`. */
  function Chats(ps: seq<Packet>): seq<Chat>
  {
    if ps == [] then [] else ChatsOf(ps[0]) + Chats(ps[1..])
  }

  /** The texts by author `u`. */
  function By(u: u64, chats: seq<Chat>): seq<Text>
  {
    if chats == [] then [] else (if chats[0].author == u then [chats[0].text] else []) + By(u, chats[1..])
  }

  function RequestedIn(p: Packet): seq<Text>
  {
    if p.ChatMessageRequest? then [p.message] else []
  }

  /** The texts of the chat requests among `ps`. */
  function Requested(ps: seq<Packet>): seq<Text>
  {
    if ps == [] then [] else RequestedIn(ps[0]) + Requested(ps[1..])
  }

  lemma {:induction false} ChatsAppend(a: seq<Packet>, b: seq<Packet>)
    ensures Chats(a + b) == Chats(a) + Chats(b)
    decreases |a|
  {
    if a == [] {
      assert a + b == b;
    } else {
      assert (a + b)[0] == a[0] && (a + b)[1..] == a[1..] + b;
      ChatsAppend(a[1..], b);
      Assoc(ChatsOf(a[0]), Chats(a[1..]), Chats(b));
    }
  }

  lemma ChatsOfOne(p: Packet)
    ensures Chats([p]) == ChatsOf(p)
  {
    assert [p][1..] == [];
  }

  lemma {:induction false} ByAppend(u: u64, a: seq<Chat>, b: seq<Chat>)
    ensures By(u, a + b) == By(u, a) + By(u, b)
    decreases |a|
  {
    if a == [] {
      assert a + b == b;
    } else {
      assert (a + b)[0] == a[0] && (a + b)[1..] == a[1..] + b;
      ByAppend(u, a[1..], b);
      Assoc(if a[0].author == u then [a[0].text] else [], By(u, a[1..]), By(u, b));
    }
  }

  lemma {:induction false} RequestedAppend(a: seq<Packet>, b: seq<Packet>)
    ensures Requested(a + b) == Requested(a) + Requested(b)
    decreases |a|
  {
    if a == [] {
      assert a + b == b;
    } else {
      assert (a + b)[0] == a[0] && (a + b)[1..] == a[1..] + b;
      RequestedAppend(a[1..], b);
      Assoc(RequestedIn(a[0]), Requested(a[1..]), Requested(b));
    }
  }

  // Chat messages name their author and are meant for everyone

  predicate ChatAction(c: u64, x: Action)
  {
    && (x.Broadcast? && x.message.packet.UserSentMessage? ==>
          x.message.packet.userId == c && x.message.exclude == None)
    && (x.Reply? ==> !x.packet.UserSentMessage?)
  }

  ghost predicate ChatHandler(c: u64, h: Handler)
  {
    forall i :: 0 <= i < |h.todo| ==> ChatAction(c, h.todo[i])
  }

  ghost predicate ChatInv(s: State)
  {
    && (forall i :: 0 <= i < |s.channel| && s.channel[i].packet.UserSentMessage? ==> s.channel[i].exclude == None)
    && forall c {:trigger Here(s, c)} :: Here(s, c) ==> ChatHandler(c, s.conns[c].handler)
  }

  lemma ReadChats(s: State, s': State, c: u64, now: u64)
    requires InPlaceRegistered(s) && Read(s, s', c, now)
    ensures c in s'.conns && ChatHandler(c, s'.conns[c].handler)
  {
    assert Registered(s, c);
  }

  lemma OwnChats(s: State, s': State, step: Step)
    requires NextBy(s, s', step) && OwnerOf(step).Some? && !step.ReadStep?
    requires OwnerOf(step).value in s.conns && ChatHandler(OwnerOf(step).value, s.conns[OwnerOf(step).value].handler)
    ensures OwnerOf(step).value in s'.conns && ChatHandler(OwnerOf(step).value, s'.conns[OwnerOf(step).value].handler)
  {
    var c := OwnerOf(step).value;
    var h := s.conns[c].handler;
    assert forall i :: 0 < i < |h.todo| ==> ChatAction(c, h.todo[i]);
  }

  lemma ChatStep(s: State, s': State, step: Step)
    requires InPlaceRegistered(s) && ChatInv(s) && NextBy(s, s', step)
    ensures ChatInv(s')
  {
    if OwnerOf(step).Some? {
      var c := OwnerOf(step).value;
      StepIsLocal(s, s', step);
      assert Here(s, c);
      if step.ReadStep? {
        ReadChats(s, s', c, step.now);
      } else {
        OwnChats(s, s', step);
      }
      if s'.channel != s.channel {
        assert ChatAction(c, s.conns[c].handler.todo[0]);
      }
    }
    forall c | Here(s', c)
      ensures ChatHandler(c, s'.conns[c].handler)
    {
      assert c in s.conns ==> Here(s, c);
    }
  }

  /** What is needed about a connection whose handler is in its main loop. */
  ghost predicate Serves(s: State, c: u64)
  {
    && Registered(s, c) && c < s.nextId && s.conns[c].handler.phase.Serving?
    && s.conns[c].handler.cursor <= |s.channel|
    && forall i :: 0 <= i < |s.conns[c].up| ==> IsClientPacket(s.conns[c].up[i])
  }

  lemma ServesWell(s: State, c: u64)
    requires Base(s) && c in s.conns && s.conns[c].handler.phase.Serving?
    ensures Serves(s, c)
  {
    OwnFacts(s, c);
    assert Registered(s, c);
  }

  // The way to a client

  /** The messages on the way to the client of connection `d`: on its connection, and broadcast but not yet
      passed on. */
  function Inbound(s: State, d: u64): seq<Chat>
    requires d in s.conns
  {
    Chats(s.conns[d].down) + Chats(From(s.channel, s.conns[d].handler.cursor))
  }

  /** The messages that a step delivers to the client of `d`. */
  function DeliveredBy(s: State, step: Step, d: u64): seq<Chat>
  {
    if step == ReceiveStep(d) && d in s.conns && s.conns[d].down != [] then ChatsOf(s.conns[d].down[0]) else []
  }

  /** The messages that are broadcast from `s` to `s'`. */
  function BroadcastBetween(s: State, s': State): seq<Chat>
  {
    Chats(From(s'.channel, |s.channel|))
  }

  /** A broadcast comes after all messages already on the way. */
  lemma BroadcastInbound(s: State, s': State, c: u64, d: u64)
    requires d in s.conns && s.conns[d].handler.cursor <= |s.channel|
    requires Perform(s, s', c) && s.conns[c].handler.todo[0].Broadcast?
    ensures d in s'.conns && Inbound(s', d) == Inbound(s, d) + BroadcastBetween(s, s')
  {
    var m := s.conns[c].handler.todo[0].message;
    var i := s.conns[d].handler.cursor;
    FromExtended(s.channel, m, i);
    ChatsAppend(From(s.channel, i), [m.packet]);
    FromExtended(s.channel, m, |s.channel|);
    assert From(s.channel, |s.channel|) == [];
    assert From(s'.channel, |s.channel|) == [m.packet];
    Assoc(Chats(s.conns[d].down), Chats(From(s.channel, i)), Chats([m.packet]));
  }

  /** A broadcast that is passed on, or skipped without loss. */
  lemma PassedOn(channel: seq<BroadcastMessage>, i: nat, down: seq<Packet>, down': seq<Packet>)
    requires i < |channel|
    requires down' == down + [channel[i].packet] || (down' == down && !channel[i].packet.UserSentMessage?)
    ensures Chats(down') + Chats(From(channel, i + 1)) == Chats(down) + Chats(From(channel, i))
  {
    var p, rest := channel[i].packet, Chats(From(channel, i + 1));
    NextFrom(channel, i);
    if down' == down {
      assert ChatsOf(p) + rest == rest;
    } else {
      Moved(down, p, rest);
    }
  }

  lemma ForwardInbound(s: State, s': State, d: u64)
    requires Forward(s, s', d)
    requires var m := s.channel[s.conns[d].handler.cursor]; m.packet.UserSentMessage? ==> m.exclude == None
    ensures d in s'.conns && Inbound(s', d) == Inbound(s, d)
  {
    PassedOn(s.channel, s.conns[d].handler.cursor, s.conns[d].down, s'.conns[d].down);
  }

  lemma Moved(down: seq<Packet>, p: Packet, rest: seq<Chat>)
    ensures Chats(down) + (ChatsOf(p) + rest) == Chats(down + [p]) + rest
  {
    ChatsAppend(down, [p]);
    ChatsOfOne(p);
    Assoc(Chats(down), ChatsOf(p), rest);
  }

  lemma NextFrom(channel: seq<BroadcastMessage>, i: nat)
    requires i < |channel|
    ensures Chats(From(channel, i)) == ChatsOf(channel[i].packet) + Chats(From(channel, i + 1))
  {
    assert From(channel, i)[0] == channel[i].packet && From(channel, i)[1..] == From(channel, i + 1);
  }

  lemma ReplyInbound(s: State, s': State, d: u64)
    requires Perform(s, s', d) && s.conns[d].handler.todo[0].Reply?
    requires !s.conns[d].handler.todo[0].packet.UserSentMessage?
    ensures d in s'.conns && Inbound(s', d) == Inbound(s, d)
  {
    var down, p := s.conns[d].down, s.conns[d].handler.todo[0].packet;
    ChatsAppend(down, [p]);
    ChatsOfOne(p);
    assert Chats(down) + [] == Chats(down);
  }

  predicate MovesNothingIn(s: State, step: Step, d: u64)
  {
    && (step.PerformStep? ==>
          && step.c in s.conns && s.conns[step.c].handler.todo != []
          && !s.conns[step.c].handler.todo[0].Broadcast?
          && !(step.c == d && s.conns[d].handler.todo[0].Reply?))
    && step != ForwardStep(d) && step != ReceiveStep(d) && step != SubscribeStep(d)
  }

  lemma OtherInbound(s: State, s': State, step: Step, d: u64)
    requires NextBy(s, s', step) && d in s.conns && MovesNothingIn(s, step, d) && (step.AcceptStep? ==> d != s.nextId)
    ensures d in s'.conns && s'.conns[d].down == s.conns[d].down && s'.channel == s.channel
    ensures s'.conns[d].handler.cursor == s.conns[d].handler.cursor
  {
  }

  lemma ReceiveInbound(s: State, s': State, d: u64)
    requires Receive(s, s', d)
    ensures d in s'.conns && ChatsOf(s.conns[d].down[0]) + Inbound(s', d) == Inbound(s, d)
  {
    Assoc(ChatsOf(s.conns[d].down[0]), Chats(s'.conns[d].down), Chats(From(s.channel, s.conns[d].handler.cursor)));
  }

  lemma NothingBroadcast(s: State, s': State)
    requires s'.channel == s.channel
    ensures BroadcastBetween(s, s') == []
  {
    assert From(s.channel, |s.channel|) == [];
  }

  /** Steps that broadcast nothing. */
  lemma QuietInbound(s: State, s': State, d: u64, got: seq<Chat>)
    requires d in s.conns && d in s'.conns && s'.channel == s.channel && got + Inbound(s', d) == Inbound(s, d)
    ensures got + Inbound(s', d) == Inbound(s, d) + BroadcastBetween(s, s')
  {
    NothingBroadcast(s, s');
    assert Inbound(s, d) + [] == Inbound(s, d);
  }

  lemma SameInbound(s: State, s': State, step: Step, d: u64)
    requires NextBy(s, s', step) && d in s.conns && MovesNothingIn(s, step, d) && (step.AcceptStep? ==> d != s.nextId)
    ensures d in s'.conns && s'.channel == s.channel && Inbound(s', d) == Inbound(s, d)
  {
    OtherInbound(s, s', step, d);
  }

  /** One step moves messages on towards the client of `d` in order. */
  lemma InboundStep(s: State, s': State, step: Step, d: u64)
    requires ChatInv(s) && NextBy(s, s', step) && Serves(s, d)
    ensures d in s'.conns
    ensures DeliveredBy(s, step, d) + Inbound(s', d) == Inbound(s, d) + BroadcastBetween(s, s')
  {
    if step.PerformStep? && s.conns[step.c].handler.todo[0].Broadcast? {
      BroadcastInbound(s, s', step.c, d);
      assert [] + Inbound(s', d) == Inbound(s', d);
      return;
    }
    if step == ReceiveStep(d) {
      ReceiveInbound(s, s', d);
    } else {
      QuietlyInbound(s, s', step, d);
      assert [] + Inbound(s', d) == Inbound(s', d);
    }
    QuietInbound(s, s', d, DeliveredBy(s, step, d));
  }

  lemma QuietlyInbound(s: State, s': State, step: Step, d: u64)
    requires ChatInv(s) && NextBy(s, s', step) && Serves(s, d) && step != ReceiveStep(d)
    requires !(step.PerformStep? && s.conns[step.c].handler.todo[0].Broadcast?)
    ensures d in s'.conns && s'.channel == s.channel && Inbound(s', d) == Inbound(s, d)
  {
    if step == ForwardStep(d) {
      ForwardInbound(s, s', d);
    } else if step == PerformStep(d) && s.conns[d].handler.todo[0].Reply? {
      assert Here(s, d);
      assert ChatAction(d, s.conns[d].handler.todo[0]);
      ReplyInbound(s, s', d);
    } else {
      SameInbound(s, s', step, d);
    }
  }

  // The way from a client

  /** The messages of the client of `u` that have not been broadcast yet: those its handler is about to
      broadcast, and those on the way to it. */
  function Outbound(s: State, u: u64): seq<Text>
    requires u in s.conns
  {
    By(u, Chats(Owed(s, u))) + Requested(s.conns[u].up)
  }

  /** The messages that the client of `u` sends in a step. */
  function SentBy(step: Step, u: u64): seq<Text>
  {
    if step.SendStep? && step.c == u then RequestedIn(step.p) else []
  }

  lemma {:induction false} NoChats(ps: seq<Packet>)
    requires forall i :: 0 <= i < |ps| ==> !ps[i].UserSentMessage?
    ensures Chats(ps) == []
  {
    if ps != [] {
      NoChats(ps[1..]);
    }
  }

  /** A request owes exactly the message it carries. */
  lemma BeginOwesChat(users: Users, a: Address, p: Packet, now: u64, u: u64)
    requires a in users && users[a].id == u && IsClientPacket(p)
    ensures By(u, Chats(OwedPackets(Begin(users, a, p, now).todo))) == RequestedIn(p)
  {
    var owed := Announced(users[a], p, now);
    BeginOwes(users, a, p, now);
    if p.ChatMessageRequest? {
      var m := UserSentMessage(u, now, p.message);
      assert owed == [m];
      ChatsOfOne(m);
      var chats := [Chat(u, now, p.message)];
      assert chats[1..] == [];
    } else {
      NoChats(owed);
    }
  }

  lemma ReadOutbound(s: State, s': State, u: u64, now: u64)
    requires Registered(s, u) && Read(s, s', u, now) && IsClientPacket(s.conns[u].up[0])
    ensures u in s'.conns && Outbound(s', u) == Outbound(s, u)
  {
    BeginOwesChat(s.users, s.conns[u].handler.address, s.conns[u].up[0], now, u);
  }

  lemma SendOutbound(s: State, s': State, u: u64, p: Packet)
    requires Send(s, s', u, p)
    ensures u in s'.conns && Outbound(s', u) == Outbound(s, u) + RequestedIn(p)
  {
    var up := s.conns[u].up;
    RequestedAppend(up, [p]);
    assert [p][1..] == [];
    Assoc(By(u, Chats(Owed(s, u))), Requested(up), RequestedIn(p));
  }

  lemma NewBroadcast(s: State, s': State, m: BroadcastMessage)
    requires s'.channel == s.channel + [m]
    ensures BroadcastBetween(s, s') == ChatsOf(m.packet)
  {
    FromExtended(s.channel, m, |s.channel|);
    assert From(s.channel, |s.channel|) == [];
    assert From(s'.channel, |s.channel|) == [m.packet];
    ChatsOfOne(m.packet);
  }

  lemma BroadcastOutbound(s: State, s': State, c: u64, u: u64)
    requires u in s.conns && Perform(s, s', c) && s.conns[c].handler.todo[0].Broadcast?
    requires ChatAction(c, s.conns[c].handler.todo[0])
    ensures u in s'.conns && By(u, BroadcastBetween(s, s')) + Outbound(s', u) == Outbound(s, u)
  {
    var m := s.conns[c].handler.todo[0].message;
    NewBroadcast(s, s', m);
    if c != u {
      NotBy(u, m.packet);
      assert [] + Outbound(s, u) == Outbound(s, u);
      return;
    }
    var owed, up := Owed(s', u), Requested(s'.conns[u].up);
    assert Owed(s, u) == [m.packet] + owed;
    OwnBroadcast(u, m.packet, owed, up);
  }

  lemma OwnBroadcast(u: u64, p: Packet, owed: seq<Packet>, up: seq<Text>)
    ensures By(u, Chats([p] + owed)) + up == By(u, ChatsOf(p)) + (By(u, Chats(owed)) + up)
  {
    ChatsAppend([p], owed);
    ChatsOfOne(p);
    ByAppend(u, ChatsOf(p), Chats(owed));
    Assoc(By(u, ChatsOf(p)), By(u, Chats(owed)), up);
  }

  lemma NotBy(u: u64, p: Packet)
    requires p.UserSentMessage? ==> p.userId != u
    ensures By(u, ChatsOf(p)) == []
  {
    if p.UserSentMessage? {
      assert ChatsOf(p)[1..] == [];
    }
  }

  predicate MovesNothingOut(s: State, step: Step, u: u64)
  {
    && (step.PerformStep? ==>
          && step.c in s.conns && s.conns[step.c].handler.todo != []
          && !s.conns[step.c].handler.todo[0].Broadcast?)
    && !(step.SendStep? && step.c == u) && !(step.ReadStep? && step.c == u)
    && step != HangupStep(u) && step != WriteFailsStep(u)
  }

  lemma OtherOutbound(s: State, s': State, step: Step, u: u64)
    requires NextBy(s, s', step) && u in s.conns && MovesNothingOut(s, step, u)
    requires step.AcceptStep? ==> u != s.nextId
    ensures u in s'.conns && Owed(s', u) == Owed(s, u) && s'.conns[u].up == s.conns[u].up && s'.channel == s.channel
  {
  }

  /** Steps that broadcast nothing. */
  lemma QuietOutbound(s: State, s': State, u: u64, sent: seq<Text>)
    requires u in s.conns && u in s'.conns && s'.channel == s.channel && Outbound(s', u) == Outbound(s, u) + sent
    ensures By(u, BroadcastBetween(s, s')) + Outbound(s', u) == Outbound(s, u) + sent
  {
    NothingBroadcast(s, s');
    assert [] + Outbound(s', u) == Outbound(s', u);
  }

  lemma SameOutbound(s: State, s': State, step: Step, u: u64)
    requires NextBy(s, s', step) && u in s.conns && MovesNothingOut(s, step, u)
    requires step.AcceptStep? ==> u != s.nextId
    ensures u in s'.conns && s'.channel == s.channel && Outbound(s', u) == Outbound(s, u) + []
  {
    OtherOutbound(s, s', step, u);
    assert Outbound(s, u) + [] == Outbound(s, u);
  }

  lemma NotTheEnd(s: State, s': State, step: Step, u: u64)
    requires NextBy(s, s', step) && u in s.conns
    requires u in s'.conns ==> s'.conns[u].handler.phase.Serving?
    ensures step != HangupStep(u) && step != WriteFailsStep(u)
  {
  }

  /** A step without a broadcast appends to the messages of `u` what the client sends. */
  lemma NoBroadcast(s: State, s': State, step: Step, u: u64)
    requires NextBy(s, s', step) && Serves(s, u)
    requires step.PerformStep? ==> !s.conns[step.c].handler.todo[0].Broadcast?
    requires step != HangupStep(u) && step != WriteFailsStep(u)
    ensures u in s'.conns && s'.channel == s.channel && Outbound(s', u) == Outbound(s, u) + SentBy(step, u)
  {
    if step.SendStep? && step.c == u {
      SendOutbound(s, s', u, step.p);
      return;
    }
    if step.ReadStep? && step.c == u {
      ReadOutbound(s, s', u, step.now);
      assert Outbound(s, u) + [] == Outbound(s, u);
      return;
    }
    SameOutbound(s, s', step, u);
  }

  /** One step moves the messages of `u` on towards the broadcast channel in order, unless it ends `u`'s
      connection. */
  lemma OutboundStep(s: State, s': State, step: Step, u: u64)
    requires ChatInv(s) && NextBy(s, s', step) && Serves(s, u)
    requires u in s'.conns ==> s'.conns[u].handler.phase.Serving?
    ensures u in s'.conns
    ensures By(u, BroadcastBetween(s, s')) + Outbound(s', u) == Outbound(s, u) + SentBy(step, u)
  {
    if step.PerformStep? && s.conns[step.c].handler.todo[0].Broadcast? {
      assert Here(s, step.c);
      BroadcastOutbound(s, s', step.c, u);
      assert Outbound(s, u) + [] == Outbound(s, u);
      return;
    }
    NotTheEnd(s, s', step, u);
    NoBroadcast(s, s', step, u);
    QuietOutbound(s, s', u, SentBy(step, u));
  }

  // Whole runs

  ghost predicate ChatsOk(s: State)
  {
    Base(s) && ChatInv(s)
  }

  lemma ChatsKept()
    ensures Kept(ChatsOk)
  {
    forall s, s', step | ChatsOk(s) && NextBy(s, s', step)
      ensures ChatsOk(s')
    {
      BaseStep(s, s', step);
      ChatStep(s, s', step);
    }
  }

  /** The handler of connection `c` is in its main loop throughout the run. */
  ghost predicate ServesThroughout(run: seq<State>, c: u64)
  {
    forall i :: 0 <= i < |run| ==> c in run[i].conns && run[i].conns[c].handler.phase.Serving?
  }

  /** What the client of `d` receives, step by step. */
  function Deliveries(run: seq<State>, steps: seq<Step>, d: u64): seq<seq<Chat>>
    requires |steps| < |run|
  {
    seq(|steps|, i requires 0 <= i < |steps| => DeliveredBy(run[i], steps[i], d))
  }

  /** What the client of `u` sends, step by step. */
  function Sendings(steps: seq<Step>, u: u64): seq<seq<Text>>
  {
    seq(|steps|, i requires 0 <= i < |steps| => SentBy(steps[i], u))
  }

  /** What is broadcast, step by step. */
  function Broadcasts(run: seq<State>): seq<seq<Chat>>
    requires run != []
  {
    seq(|run| - 1, i requires 0 <= i < |run| - 1 => BroadcastBetween(run[i], run[i + 1]))
  }

  /** Everything that the client of `d` has received during the run. */
  function Delivered(run: seq<State>, steps: seq<Step>, d: u64): seq<Chat>
    requires |steps| < |run|
  {
    Flatten(Deliveries(run, steps, d))
  }

  /** Everything that the client of `u` has sent during the run. */
  function Sent(steps: seq<Step>, u: u64): seq<Text>
  {
    Flatten(Sendings(steps, u))
  }

  ghost predicate OkAt(run: seq<State>, i: nat)
    requires i < |run|
  {
    ChatsOk(run[i])
  }

  ghost predicate OkThroughout(run: seq<State>)
  {
    forall i {:trigger OkAt(run, i)} :: 0 <= i < |run| ==> OkAt(run, i)
  }

  lemma ReachableRunOk(run: seq<State>, steps: seq<Step>)
    requires RunBy(run, steps) && Reachable(run[0])
    ensures OkThroughout(run)
  {
    ChatsKept();
    HoldsWhenReachable(run[0], ChatsOk);
    RunByIsRun(run, steps);
    forall i: nat | i < |run|
      ensures OkAt(run, i)
    {
      KeptAlong(run, i, ChatsOk);
    }
  }

  lemma AtStep(run: seq<State>, steps: seq<Step>, c: u64, i: nat)
    requires RunBy(run, steps) && OkThroughout(run) && ServesThroughout(run, c) && i < |steps|
    ensures NextBy(run[i], run[i + 1], steps[i]) && ChatInv(run[i]) && Serves(run[i], c)
    ensures c in run[i + 1].conns && run[i + 1].conns[c].handler.phase.Serving?
  {
    assert OkAt(run, i);
    assert Taken(run, steps, i);
    ServesWell(run[i], c);
  }

  function Inbounds(run: seq<State>, d: u64): seq<seq<Chat>>
    requires forall i :: 0 <= i < |run| ==> d in run[i].conns
  {
    seq(|run|, i requires 0 <= i < |run| => Inbound(run[i], d))
  }

  function Outbounds(run: seq<State>, u: u64): seq<seq<Text>>
    requires forall i :: 0 <= i < |run| ==> u in run[i].conns
  {
    seq(|run|, i requires 0 <= i < |run| => Outbound(run[i], u))
  }

  function EachBy(u: u64, parts: seq<seq<Chat>>): seq<seq<Text>>
  {
    seq(|parts|, i requires 0 <= i < |parts| => By(u, parts[i]))
  }

  lemma {:induction false} ByFlatten(u: u64, parts: seq<seq<Chat>>)
    ensures By(u, Flatten(parts)) == Flatten(EachBy(u, parts))
  {
    if parts != [] {
      ByAppend(u, parts[0], Flatten(parts[1..]));
      ByFlatten(u, parts[1..]);
      assert EachBy(u, parts)[1..] == EachBy(u, parts[1..]);
    }
  }

  lemma DeliveryBalance(run: seq<State>, steps: seq<Step>, d: u64, i: nat)
    requires RunBy(run, steps) && OkThroughout(run) && ServesThroughout(run, d) && i < |steps|
    ensures Deliveries(run, steps, d)[i] + Inbounds(run, d)[i + 1] == Inbounds(run, d)[i] + Broadcasts(run)[i]
  {
    AtStep(run, steps, d, i);
    InboundStep(run[i], run[i + 1], steps[i], d);
  }

  lemma SendingBalance(run: seq<State>, steps: seq<Step>, u: u64, i: nat)
    requires RunBy(run, steps) && OkThroughout(run) && ServesThroughout(run, u) && i < |steps|
    ensures EachBy(u, Broadcasts(run))[i] + Outbounds(run, u)[i + 1] == Outbounds(run, u)[i] + Sendings(steps, u)[i]
  {
    AtStep(run, steps, u, i);
    OutboundStep(run[i], run[i + 1], steps[i], u);
  }

  /** Delivery. What a client has received, followed by what is on the way to it, is what was on the way at
      first, followed by everything broadcast since: all of it, once, and in the order of the channel. */
  lemma DeliveryInOrder(run: seq<State>, steps: seq<Step>, d: u64)
    requires RunBy(run, steps) && OkThroughout(run) && ServesThroughout(run, d)
    ensures Delivered(run, steps, d) + Inbound(run[|steps|], d) == Inbound(run[0], d) + Flatten(Broadcasts(run))
  {
    var taken, held, added := Deliveries(run, steps, d), Inbounds(run, d), Broadcasts(run);
    forall i | 0 <= i < |taken|
      ensures taken[i] + held[i + 1] == held[i] + added[i]
    {
      DeliveryBalance(run, steps, d, i);
    }
    Telescope(taken, held, added);
    assert held[0] == Inbound(run[0], d) && held[|steps|] == Inbound(run[|steps|], d);
  }

  /** Broadcasting. The messages of `u` that have been broadcast, followed by those on the way to the channel,
      are those on the way at first, followed by what its client has sent since. */
  lemma BroadcastInOrder(run: seq<State>, steps: seq<Step>, u: u64)
    requires RunBy(run, steps) && OkThroughout(run) && ServesThroughout(run, u)
    ensures By(u, Flatten(Broadcasts(run))) + Outbound(run[|steps|], u) == Outbound(run[0], u) + Sent(steps, u)
  {
    var taken, held, added := EachBy(u, Broadcasts(run)), Outbounds(run, u), Sendings(steps, u);
    forall i | 0 <= i < |taken|
      ensures taken[i] + held[i + 1] == held[i] + added[i]
    {
      SendingBalance(run, steps, u, i);
    }
    Telescope(taken, held, added);
    assert held[0] == Outbound(run[0], u) && held[|steps|] == Outbound(run[|steps|], u);
    ByFlatten(u, Broadcasts(run));
  }

  // What the application is told

  /** The messages that the application is told about. */
  function Messages(events: seq<ClientEvent>): seq<Chat>
  {
    if events == [] then []
    else
      (match events[0] case SentMessage(u, sentAt, text) => [Chat(u, sentAt, text)] case _ => [])
      + Messages(events[1..])
  }

  /** What the application of `d` is told about in a step. */
  function ToldBy(s: State, step: Step, d: u64): seq<ClientEvent>
  {
    if step == ReceiveStep(d) && d in s.conns && s.conns[d].down != [] then EventsOf([s.conns[d].down[0]]) else []
  }

  /** Everything that the application of `d` is told during the run. */
  function Told(run: seq<State>, steps: seq<Step>, d: u64): seq<ClientEvent>
    requires |steps| < |run|
  {
    Flatten(seq(|steps|, i requires 0 <= i < |steps| => ToldBy(run[i], steps[i], d)))
  }

  lemma {:induction false} MessagesAppend(a: seq<ClientEvent>, b: seq<ClientEvent>)
    ensures Messages(a + b) == Messages(a) + Messages(b)
    decreases |a|
  {
    if a == [] {
      assert a + b == b;
    } else {
      assert (a + b)[0] == a[0] && (a + b)[1..] == a[1..] + b;
      MessagesAppend(a[1..], b);
      Assoc(Messages([a[0]]), Messages(a[1..]), Messages(b));
      assert [a[0]][1..] == [];
    }
  }

  lemma {:induction false} MessagesFlatten(parts: seq<seq<ClientEvent>>, chats: seq<seq<Chat>>)
    requires |parts| == |chats| && forall i :: 0 <= i < |parts| ==> Messages(parts[i]) == chats[i]
    ensures Messages(Flatten(parts)) == Flatten(chats)
  {
    if parts != [] {
      MessagesAppend(parts[0], Flatten(parts[1..]));
      MessagesFlatten(parts[1..], chats[1..]);
    }
  }

  lemma MessagesOfOne(p: Packet)
    ensures Messages(EventsOf([p])) == ChatsOf(p)
  {
    assert [p][1..] == [];
    if ToEvent(p).Some? {
      var e := ToEvent(p).value;
      EventsTell(p, e);
      assert EventsOf([p]) == [e] && [e][1..] == [];
    } else {
      assert EventsOf([p]) == [];
    }
  }

  /** The application is told about every chat message that its client receives: author, time and text. */
  lemma MessagesAreTold(run: seq<State>, steps: seq<Step>, d: u64)
    requires |steps| < |run|
    ensures Messages(Told(run, steps, d)) == Delivered(run, steps, d)
  {
    var parts := seq(|steps|, i requires 0 <= i < |steps| => ToldBy(run[i], steps[i], d));
    forall i | 0 <= i < |parts|
      ensures Messages(parts[i]) == Deliveries(run, steps, d)[i]
    {
      if steps[i] == ReceiveStep(d) && d in run[i].conns && run[i].conns[d].down != [] {
        MessagesOfOne(run[i].conns[d].down[0]);
      }
    }
    MessagesFlatten(parts, Deliveries(run, steps, d));
  }

  /** One message, as the statements below count it: once for its author, and for nobody else. */
  lemma OneMessage(u: u64, author: u64, sentAt: u64, text: Text, rid: u64)
    ensures By(u, Chats([UserSentMessage(author, sentAt, text)])) == if u == author then [text] else []
    ensures By(u, Messages([SentMessage(author, sentAt, text)])) == if u == author then [text] else []
    ensures Requested([ChatMessageRequest(rid, text)]) == [text]
  {
    var chats := [Chat(author, sentAt, text)];
    ChatsOfOne(UserSentMessage(author, sentAt, text));
    assert chats[1..] == [] && [SentMessage(author, sentAt, text)][1..] == [];
    assert [ChatMessageRequest(rid, text)][1..] == [];
  }

  /** Conservation of chat messages. Over any run from a reachable state during which author `u` and reader `d` stay
      connected, what the application of `d` is told about `u`'s messages, followed by what is still under way from `u`
      to `d`, is what was under way at first, followed by what `u` has sent: nothing is lost, duplicated or reordered. */
  lemma ChatIsConserved(run: seq<State>, steps: seq<Step>, u: u64, d: u64)
    requires RunBy(run, steps) && Reachable(run[0])
    requires ServesThroughout(run, u) && ServesThroughout(run, d)
    ensures var first, last := run[0], run[|steps|];
      By(u, Messages(Told(run, steps, d))) + (By(u, Inbound(last, d)) + Outbound(last, u))
        == By(u, Inbound(first, d)) + Outbound(first, u) + Sent(steps, u)
  {
    var first, last, chats := run[0], run[|steps|], Flatten(Broadcasts(run));
    ReachableRunOk(run, steps);
    MessagesAreTold(run, steps, d);
    DeliveryInOrder(run, steps, d);
    BroadcastInOrder(run, steps, u);
    ByAppend(u, Delivered(run, steps, d), Inbound(last, d));
    ByAppend(u, Inbound(first, d), chats);
    Combined(By(u, Delivered(run, steps, d)), By(u, Inbound(last, d)), By(u, Inbound(first, d)),
      By(u, chats), Outbound(last, u), Outbound(first, u), Sent(steps, u));
  }

  lemma Combined<T>(got: seq<T>, pending: seq<T>, first: seq<T>, new_: seq<T>, out': seq<T>, out: seq<T>, sent: seq<T>)
    requires got + pending == first + new_ && new_ + out' == out + sent
    ensures got + (pending + out') == first + out + sent
  {
    Assoc(got, pending, out');
    Assoc(first, new_, out');
    Assoc(first, out, sent);
  }

  /** All applications see the same conversation: over a run at whose beginning and end nothing is under way to
      two clients, both are told about the same messages, with the same times, in the same order. */
  lemma ConversationsAgree(run: seq<State>, steps: seq<Step>, c: u64, d: u64)
    requires RunBy(run, steps) && Reachable(run[0])
    requires ServesThroughout(run, c) && ServesThroughout(run, d)
    requires Inbound(run[0], c) == [] && Inbound(run[|steps|], c) == []
    requires Inbound(run[0], d) == [] && Inbound(run[|steps|], d) == []
    ensures Messages(Told(run, steps, c)) == Messages(Told(run, steps, d))
  {
    ReachableRunOk(run, steps);
    AllDelivered(run, steps, c);
    AllDelivered(run, steps, d);
    MessagesAreTold(run, steps, c);
    MessagesAreTold(run, steps, d);
  }

  lemma AllDelivered(run: seq<State>, steps: seq<Step>, d: u64)
    requires RunBy(run, steps) && OkThroughout(run) && ServesThroughout(run, d)
    requires Inbound(run[0], d) == [] && Inbound(run[|steps|], d) == []
    ensures Delivered(run, steps, d) == Flatten(Broadcasts(run))
  {
    DeliveryInOrder(run, steps, d);
    NoEnds(Delivered(run, steps, d), Flatten(Broadcasts(run)));
  }

  lemma NoEnds<T>(a: seq<T>, b: seq<T>)
    requires a + [] == [] + b
    ensures a == b
  {
    assert a + [] == a && [] + b == b;
  }
}
