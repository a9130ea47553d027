/** Every step of the system keeps the presence invariant. */
module PresenceSteps {
  import opened Bytes
  import opened Packets
  import opened Replica
  import opened Management
  import opened System
  import opened Registration
  import opened Link
  import opened Progress
  import opened Invariants
  import opened Presence

  /** A step of connection `d` between registered states. */
  ghost predicate Acts(s: State, s': State, d: u64)
  {
    InPlaceRegistered(s) && InPlaceRegistered(s') && Local(s, s', d)
  }

  /** What the lemma about a step of connection `d` may use. */
  ghost predicate ActsKnown(s: State, s': State, d: u64)
  {
    && Acts(s, s', d) && EntriesOwned(s) && PresenceInv(s)
    && TodoInv(d, s.conns[d].handler) && HearsOthers(s.channel, d, s.conns[d].handler)
  }

  /** The same, when other connections matter too. */
  ghost predicate ActsWell(s: State, s': State, d: u64)
  {
    ActsKnown(s, s', d) && ChannelInv(s)
  }

  /** A quiet step during which the view of the acting connection stays the same. */
  lemma QuietStep(s: State, s': State, d: u64)
    requires Acts(s, s', d) && PresenceInv(s) && s'.channel == s.channel && s'.users == s.users
    requires Owed(s', d) == Owed(s, d)
    requires forall u :: Pair(s, d, u) && Observes(u, s.conns[d], s.channel, Owed(s, u), Truth(s, u)) ==>
      Observes(u, s'.conns[d], s.channel, Owed(s, u), Truth(s, u))
    ensures PresenceInv(s')
  {
    LocalIsQuiet(s, s', d);
    forall u | u != d
      ensures Observes(u, s'.conns[d], s.channel, Owed(s, u), Truth(s, u))
    {
      assert Pair(s, d, u);
    }
    QuietKeepsPresence(s, s', d);
  }

  /** A step that only touches the client's bookkeeping, or the phase of an idle handler. */
  lemma BookkeepingStep(s: State, s': State, d: u64)
    requires Acts(s, s', d) && PresenceInv(s) && s'.channel == s.channel && s'.users == s.users
    requires s'.conns[d].handler.todo == s.conns[d].handler.todo
    requires s'.conns[d].handler.phase.Serving? ==> s'.conns[d].handler == s.conns[d].handler
    requires forall u :: Expected(s'.conns[d], u) == Expected(s.conns[d], u)
    ensures PresenceInv(s')
  {
    forall u | Pair(s, d, u) && Observes(u, s.conns[d], s.channel, Owed(s, u), Truth(s, u))
      ensures Observes(u, s'.conns[d], s.channel, Owed(s, u), Truth(s, u))
    {
      SameView(u, s.conns[d], s'.conns[d], s.channel, Owed(s, u), Truth(s, u));
    }
    QuietStep(s, s', d);
  }

  lemma AcceptIsQuiet(s: State, s': State, a: Address, token: u64, u: u64)
    requires RegistrationInv(s) && Accept(s, s', a, token)
    ensures Truth(s', u) == Truth(s, u) && Owed(s', u) == Owed(s, u)
  {
    if u !in s.conns && u in s'.conns {
      var todo := [Emit(UserConnected(u, token))];
      assert s'.conns[u].handler.todo == todo && todo[1..] == [];
      assert OwedPackets(todo) == [];
    }
  }

  lemma AcceptPresence(s: State, s': State, a: Address, token: u64)
    requires RegistrationInv(s) && PresenceInv(s) && Accept(s, s', a, token)
    ensures PresenceInv(s')
  {
    forall u
      ensures Truth(s', u) == Truth(s, u) && Owed(s', u) == Owed(s, u)
    {
      AcceptIsQuiet(s, s', a, token, u);
    }
    QuietKeepsHistory(s, s');
    forall c, u | Pair(s', c, u)
      ensures Observes(u, s'.conns[c], s'.channel, Owed(s', u), Truth(s', u))
    {
      assert c in s.conns ==> Pair(s, c, u);
    }
  }

  lemma SubscribePresence(s: State, s': State, d: u64)
    requires Acts(s, s', d) && PresenceInv(s) && TodoInv(d, s.conns[d].handler) && Subscribe(s, s', d)
    ensures PresenceInv(s')
  {
    QuietStep(s, s', d);
  }

  // Working off a request

  /** The view of an observer that takes a step other than a reply. */
  lemma PopView(k: Conn, k': Conn, u: u64)
    requires k.handler.todo != [] && !k.handler.todo[0].Reply? && k' == WithTodo(k, k.handler.todo[1..])
    ensures Expected(k', u) == Expected(k, u)
  {
    assert OwedReplies(k'.handler.todo) == OwedReplies(k.handler.todo);
  }

  lemma ReplyPresence(s: State, s': State, d: u64)
    requires Acts(s, s', d) && PresenceInv(s) && TodoInv(d, s.conns[d].handler)
    requires Perform(s, s', d) && s.conns[d].handler.todo[0].Reply?
    ensures PresenceInv(s')
  {
    forall u | Pair(s, d, u) && Observes(u, s.conns[d], s.channel, Owed(s, u), Truth(s, u))
      ensures Observes(u, s'.conns[d], s.channel, Owed(s, u), Truth(s, u))
    {
      ReplyExpected(s.conns[d], s'.conns[d], u);
      SameView(u, s.conns[d], s'.conns[d], s.channel, Owed(s, u), Truth(s, u));
    }
    QuietStep(s, s', d);
  }

  lemma EmitPresence(s: State, s': State, d: u64)
    requires Acts(s, s', d) && PresenceInv(s) && TodoInv(d, s.conns[d].handler)
    requires Perform(s, s', d) && s.conns[d].handler.todo[0].Emit?
    ensures PresenceInv(s')
  {
    forall u | Pair(s, d, u) && Observes(u, s.conns[d], s.channel, Owed(s, u), Truth(s, u))
      ensures Observes(u, s'.conns[d], s.channel, Owed(s, u), Truth(s, u))
    {
      PopView(s.conns[d], s'.conns[d], u);
      SameView(u, s.conns[d], s'.conns[d], s.channel, Owed(s, u), Truth(s, u));
    }
    assert Owed(s', d) == Owed(s, d);
    QuietStep(s, s', d);
  }

  /** What a broadcast step does: the front packet of `d`'s owed ones moves to the channel. */
  ghost predicate Broadcasts(s: State, s': State, d: u64, m: BroadcastMessage)
  {
    && s'.channel == s.channel + [m] && AboutOnly(m.packet, d)
    && Owed(s, d) == [m.packet] + Owed(s', d)
    && forall u :: Truth(s', u) == Truth(s, u) && (u != d ==> Owed(s', u) == Owed(s, u))
  }

  lemma BroadcastStep(s: State, s': State, d: u64)
    requires Acts(s, s', d) && TodoInv(d, s.conns[d].handler)
    requires Perform(s, s', d) && s.conns[d].handler.todo[0].Broadcast?
    ensures Broadcasts(s, s', d, s.conns[d].handler.todo[0].message)
  {
    assert ActionOk(d, s.conns[d].handler, s.conns[d].handler.todo[0]);
    forall u
      ensures Truth(s', u) == Truth(s, u) && (u != d ==> Owed(s', u) == Owed(s, u))
    {
      OthersUnlessOwn(s, s', d, u);
    }
  }

  lemma BroadcastHistory(s: State, s': State, d: u64, m: BroadcastMessage)
    requires HistoryInv(s) && Broadcasts(s, s', d, m)
    ensures HistoryInv(s')
  {
    forall u | Whom(s', u)
      ensures Replay(u, None, From(s'.channel, 0) + Owed(s', u)) == Truth(s', u)
    {
      assert Whom(s, u);
      SentReplay(u, None, s.channel, m, 0, u == d, Owed(s', u));
    }
  }

  lemma BroadcastObserved(s: State, s': State, d: u64, c: u64, u: u64)
    requires Perform(s, s', d) && s.conns[d].handler.todo[0].Broadcast? && TodoInv(d, s.conns[d].handler)
    requires Broadcasts(s, s', d, s.conns[d].handler.todo[0].message)
    requires c in s.conns && u != c && s.conns[c].handler.cursor <= |s.channel|
    requires Observes(u, s.conns[c], s.channel, Owed(s, u), Truth(s, u))
    ensures c in s'.conns && Observes(u, s'.conns[c], s'.channel, Owed(s', u), Truth(s', u))
  {
    BroadcastView(s, s', d, c, u);
    SentObserved(u, s'.conns[c], s.channel, s.conns[d].handler.todo[0].message, u == d, Owed(s', u), Truth(s', u));
  }

  lemma BroadcastPresence(s: State, s': State, d: u64)
    requires ActsWell(s, s', d) && Perform(s, s', d) && s.conns[d].handler.todo[0].Broadcast?
    ensures PresenceInv(s')
  {
    BroadcastStep(s, s', d);
    BroadcastHistory(s, s', d, s.conns[d].handler.todo[0].message);
    forall c, u | Pair(s', c, u)
      ensures Observes(u, s'.conns[c], s'.channel, Owed(s', u), Truth(s', u))
    {
      assert Pair(s, c, u) && Here(s, c);
      BroadcastObserved(s, s', d, c, u);
    }
  }

  /** The observer itself may be the one that broadcasts. */
  lemma BroadcastView(s: State, s': State, d: u64, c: u64, u: u64)
    requires Perform(s, s', d) && s.conns[d].handler.todo[0].Broadcast? && TodoInv(d, s.conns[d].handler)
    requires c in s.conns && Observes(u, s.conns[c], s.channel, Owed(s, u), Truth(s, u))
    ensures c in s'.conns && Observes(u, s'.conns[c], s.channel, Owed(s, u), Truth(s, u))
  {
    if c == d {
      PopView(s.conns[d], s'.conns[d], u);
      SameView(u, s.conns[d], s'.conns[d], s.channel, Owed(s, u), Truth(s, u));
    }
  }

  lemma OthersUnlessOwn(s: State, s': State, d: u64, u: u64)
    requires InPlaceRegistered(s) && InPlaceRegistered(s') && Local(s, s', d)
    ensures u != d ==> Truth(s', u) == Truth(s, u) && Owed(s', u) == Owed(s, u)
  {
    if u != d {
      OthersKeepTruth(s, s', d, u);
    }
  }

  // Starting on a request

  /** The announcement of a request is exactly what its change of the user's entry needs. */
  lemma BeginAnnounces(users: Users, a: Address, p: Packet, now: u64, t: Entry, t': Entry)
    requires a in users && IsClientPacket(p)
    requires p.UserMuteState? ==> p.userId == users[a].id
    requires p.LoginRequest? ==>
      ValidUsername(p.username) && users[a].username.None? && !users[a].inVoice && !users[a].isMuted
    requires p.JoinVoiceChannelRequest? || p.LeaveVoiceChannelRequest? || p.UserMuteState? ==> users[a].username.Some?
    requires t == EntryOf(users[a])
    requires a in Begin(users, a, p, now).users && t' == EntryOf(Begin(users, a, p, now).users[a])
    ensures Announces(users[a].id, t, t', OwedPackets(Begin(users, a, p, now).todo))
  {
    BeginOwes(users, a, p, now);
  }

  function EntryOf(u: User): Entry
  {
    if u.username.Some? then Some(InfoOf(u)) else None
  }

  lemma ReadChanges(s: State, s': State, d: u64, now: u64)
    requires Acts(s, s', d) && ConnOk(d, s.conns[d], Me(s, d)) && Read(s, s', d, now)
    ensures Changes(s, s', d)
  {
    var a := s.conns[d].handler.address;
    assert Registered(s', d);
    BeginAnnounces(s.users, a, s.conns[d].up[0], now, Truth(s, d), Truth(s', d));
    forall u | u != d
      ensures Truth(s', u) == Truth(s, u) && Owed(s', u) == Owed(s, u)
    {
      OthersKeepTruth(s, s', d, u);
    }
  }

  /** Replies other than login responses mean nothing to the participants list. */
  lemma {:induction false} InertReplies(u: u64, e: Entry, todo: seq<Action>)
    requires forall i :: 0 <= i < |todo| && todo[i].Reply? ==> !Concerns(todo[i].packet, u)
    ensures Replay(u, e, OwedReplies(todo)) == e
    decreases |todo|
  {
    if todo != [] {
      var first := if todo[0].Reply? then [todo[0].packet] else [];
      ReplayAppend(u, e, first, OwedReplies(todo[1..]));
      ReplayIgnores(u, e, first);
      InertReplies(u, e, todo[1..]);
    }
  }

  lemma ReadView(k: Conn, k': Conn, u: u64)
    requires k.handler.todo == [] && k'.client == k.client && k'.down == k.down
    requires forall i :: 0 <= i < |k'.handler.todo| && k'.handler.todo[i].Reply? ==>
      !Concerns(k'.handler.todo[i].packet, u)
    ensures Expected(k', u) == Expected(k, u)
  {
    var e := Lookup(k.client.participants, u);
    assert k.down + [] == k.down;
    ReplayAppend(u, e, k.down, OwedReplies(k'.handler.todo));
    InertReplies(u, Replay(u, e, k.down), k'.handler.todo);
  }

  lemma ReadPresence(s: State, s': State, d: u64, now: u64)
    requires Acts(s, s', d) && PresenceInv(s) && ConnOk(d, s.conns[d], Me(s, d)) && Read(s, s', d, now)
    ensures PresenceInv(s')
  {
    ReadChanges(s, s', d, now);
    forall u | u != d
      ensures Observes(u, s'.conns[d], s.channel, Owed(s, u), Truth(s, u))
    {
      assert Pair(s, d, u);
      ReadObserved(s, s', d, now, u);
    }
    ChangeKeepsPresence(s, s', d);
  }

  /** Replies of the kind that requests begin with mean nothing to the participants list. */
  lemma BeginInert(users: Users, a: Address, p: Packet, now: u64, u: u64)
    requires p.LoginRequest? ==> ValidUsername(p.username)
    ensures var todo := Begin(users, a, p, now).todo;
      forall i :: 0 <= i < |todo| && todo[i].Reply? ==> !Concerns(todo[i].packet, u)
  {
  }

  lemma ReadObserved(s: State, s': State, d: u64, now: u64, u: u64)
    requires InPlaceRegistered(s) && d in s.conns && ConnOk(d, s.conns[d], Me(s, d)) && Read(s, s', d, now)
    requires Observes(u, s.conns[d], s.channel, Owed(s, u), Truth(s, u))
    ensures Observes(u, s'.conns[d], s.channel, Owed(s, u), Truth(s, u))
  {
    assert MayBeUp(d, s.conns[d].client, s.conns[d].up[0]);
    BeginInert(s.users, s.conns[d].handler.address, s.conns[d].up[0], now, u);
    ReadView(s.conns[d], s'.conns[d], u);
    SameView(u, s.conns[d], s'.conns[d], s.channel, Owed(s, u), Truth(s, u));
  }

  // Leaving

  lemma HangupPresence(s: State, s': State, d: u64)
    requires Acts(s, s', d) && PresenceInv(s) && Hangup(s, s', d)
    ensures PresenceInv(s')
  {
    OwnTruth(s, d);
    UnrollOwed(s'.conns[d].handler.todo);
    forall u | u != d
      ensures Truth(s', u) == Truth(s, u) && Owed(s', u) == Owed(s, u)
    {
      OthersKeepTruth(s, s', d, u);
    }
    ChangeKeepsPresence(s, s', d);
  }

  lemma WriteFailsPresence(s: State, s': State, d: u64)
    requires Acts(s, s', d) && PresenceInv(s) && WriteFails(s, s', d)
    ensures PresenceInv(s')
  {
    UnrollOwed(s'.conns[d].handler.todo);
    QuietStep(s, s', d);
  }

  // Forwarding a broadcast

  lemma ForwardView(u: u64, k: Conn, k': Conn, channel: seq<BroadcastMessage>, owed: seq<Packet>, truth: Entry)
    requires Observes(u, k, channel, owed, truth) && Idle(k) && k.handler.cursor < |channel|
    requires k' == Conn(k.handler.(cursor := k.handler.cursor + 1), k.client, k.up, k'.down)
    requires var m := channel[k.handler.cursor];
      k'.down == k.down + [m.packet] || (k'.down == k.down && !Concerns(m.packet, u))
    ensures Observes(u, k', channel, owed, truth)
  {
    var m := channel[k.handler.cursor];
    var e := Lookup(k.client.participants, u);
    assert k.down + [] == k.down && k'.down + [] == k'.down;
    assert channel[k.handler.cursor..] == [m] + channel[k.handler.cursor + 1..];
    assert Coming(k, channel, owed) == [m.packet] + Coming(k', channel, owed);
    ReplayAppend(u, Replay(u, e, k.down), [m.packet], Coming(k', channel, owed));
    ReplayAppend(u, e, k.down, [m.packet]);
    assert [m.packet][1..] == [];
  }

  lemma ForwardPresence(s: State, s': State, d: u64)
    requires Acts(s, s', d) && PresenceInv(s) && HearsOthers(s.channel, d, s.conns[d].handler)
    requires Forward(s, s', d)
    ensures PresenceInv(s')
  {
    forall u | Pair(s, d, u) && Observes(u, s.conns[d], s.channel, Owed(s, u), Truth(s, u))
      ensures Observes(u, s'.conns[d], s.channel, Owed(s, u), Truth(s, u))
    {
      ForwardView(u, s.conns[d], s'.conns[d], s.channel, Owed(s, u), Truth(s, u));
    }
    QuietStep(s, s', d);
  }

  // The login snapshot

  lemma AbsentFromList(infos: seq<ParticipantInfo>, u: u64)
    requires forall i :: 0 <= i < |infos| ==> infos[i].userId != u
    ensures Lookup(ById(infos), u) == None
  {
  }

  /** An entry that is settled at the newest state is observed correctly. */
  lemma SettledEntry(s: State, k: Conn, u: u64, e: Entry)
    requires HistoryInv(s) && k.handler.cursor <= |s.channel| && e == Truth(s, u)
    ensures Replay(u, e, Coming(k, s.channel, Owed(s, u))) == Truth(s, u)
  {
    StaleIsHarmless(s, u, k.handler.cursor);
  }

  lemma StartSnapshotPresence(s: State, s': State, d: u64)
    requires ActsKnown(s, s', d) && StartSnapshot(s, s', d)
    ensures PresenceInv(s')
  {
    assert ActionOk(d, s.conns[d].handler, s.conns[d].handler.todo[0]);
    forall u | Pair(s, d, u) && Observes(u, s.conns[d], s.channel, Owed(s, u), Truth(s, u))
      ensures Observes(u, s'.conns[d], s.channel, Owed(s, u), Truth(s, u))
    {
      if u !in PresentIds(s.users) {
        SettledEntry(s, s'.conns[d], u, None);
      }
    }
    QuietStep(s, s', d);
  }

  lemma VisitView(s: State, s': State, d: u64, a: Address, u: u64)
    requires EntriesOwned(s) && HistoryInv(s) && Visit(s, s', d, a) && u != d
    requires TodoInv(d, s.conns[d].handler) && HearsOthers(s.channel, d, s.conns[d].handler)
    requires Observes(u, s.conns[d], s.channel, Owed(s, u), Truth(s, u))
    ensures Observes(u, s'.conns[d], s.channel, Owed(s, u), Truth(s, u))
  {
    var t, t' := s.conns[d].handler.todo[0], s'.conns[d].handler.todo[0];
    assert ActionOk(d, s.conns[d].handler, t);
    var visited := s.users[a];
    if visited.username.Some? {
      assert t'.found[..|t.found|] == t.found;
      assert ById(t'.found) == ById(t.found)[visited.id := InfoOf(visited)];
    }
    if u == visited.id {
      assert Registered(s, u);
      AbsentFromList(t.found, u);
      SettledEntry(s, s'.conns[d], u, Lookup(ById(t'.found), u));
    }
  }

  lemma VisitPresence(s: State, s': State, d: u64, a: Address)
    requires ActsKnown(s, s', d) && Visit(s, s', d, a)
    ensures PresenceInv(s')
  {
    forall u | Pair(s, d, u) && Observes(u, s.conns[d], s.channel, Owed(s, u), Truth(s, u))
      ensures Observes(u, s'.conns[d], s.channel, Owed(s, u), Truth(s, u))
    {
      VisitView(s, s', d, a, u);
    }
    QuietStep(s, s', d);
  }

  /** After the login response only its snapshot counts. */
  lemma ResponseExpected(k: Conn, response: Packet, rest: seq<Action>, u: u64)
    requires response.LoginResponse? && k.handler.todo == [Reply(response)] + rest
    requires forall i :: 0 <= i < |rest| && rest[i].Reply? ==> !Concerns(rest[i].packet, u)
    ensures Expected(k, u) == Lookup(ById(response.participants), u)
  {
    var e := Lookup(k.client.participants, u);
    assert k.handler.todo[1..] == rest;
    assert OwedReplies(k.handler.todo) == [response] + OwedReplies(rest);
    ReplayAppend(u, e, k.down, [response] + OwedReplies(rest));
    ReplayAppend(u, Replay(u, e, k.down), [response], OwedReplies(rest));
    assert [response][1..] == [];
    InertReplies(u, Lookup(ById(response.participants), u), rest);
  }

  /** At the end of the listing every other user's entry is settled: by the visit, by being new, or by
      having gone. */
  lemma FinishView(s: State, s': State, d: u64, u: u64)
    requires EntriesOwned(s) && HistoryInv(s) && FinishSnapshot(s, s', d) && u != d
    requires TodoInv(d, s.conns[d].handler) && HearsOthers(s.channel, d, s.conns[d].handler)
    requires Observes(u, s.conns[d], s.channel, Owed(s, u), Truth(s, u))
    ensures Observes(u, s'.conns[d], s.channel, Owed(s, u), Truth(s, u))
  {
    var h := s.conns[d].handler;
    var t, rest := h.todo[0], h.todo[1..];
    assert ActionOk(d, h, t);
    forall i | 0 <= i < |rest| && rest[i].Reply?
      ensures !Concerns(rest[i].packet, u)
    {
      assert rest[i] == h.todo[i + 1] && ActionOk(d, h, h.todo[i + 1]);
    }
    ResponseExpected(s'.conns[d], LoginResponse(t.requestId, t.id, t.token, t.found), rest, u);
    if u in t.due {
      AbsentFromList(t.found, u);
      SettledEntry(s, s'.conns[d], u, None);
    }
  }

  lemma FinishSnapshotPresence(s: State, s': State, d: u64)
    requires ActsKnown(s, s', d) && FinishSnapshot(s, s', d)
    ensures PresenceInv(s')
  {
    forall u | Pair(s, d, u) && Observes(u, s.conns[d], s.channel, Owed(s, u), Truth(s, u))
      ensures Observes(u, s'.conns[d], s.channel, Owed(s, u), Truth(s, u))
    {
      FinishView(s, s', d, u);
    }
    QuietStep(s, s', d);
  }
}
