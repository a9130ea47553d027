/** Handlers that panic: what they can be in the middle of, what is lost, and which users' entries are
    left behind for ever. */
module Crashes {
  import opened Bytes
  import opened Packets
  import opened Codec
  import opened Replica
  import opened Management
  import opened System
  import opened Registration
  import opened Link
  import opened Progress
  import opened Invariants
  import opened Presence
  import opened PresenceSteps

  // The work lists on which a handler can panic

  /** A step that neither lists users nor overflows a packet. */
  predicate Plain(x: Action)
  {
    match x
    case Reply(p) => Encodable(p)
    case Emit(_) => true
    case Broadcast(m) => Encodable(m.packet)
    case _ => false
  }

  predicate AllPlain(todo: seq<Action>)
  {
    forall i :: 0 <= i < |todo| ==> Plain(todo[i])
  }

  /** What is left of a login: the listing or its response, then the announcement. */
  predicate LoginWork(todo: seq<Action>)
  {
    && |todo| == 2
    && (IsSnapshot(todo[0]) || (todo[0].Reply? && todo[0].packet.LoginResponse?))
    && todo[1].Broadcast? && todo[1].message.packet.UserJoinedServer? && Encodable(todo[1].message.packet)
  }

  /** What is left of a chat message: perhaps its reply, then its broadcast. */
  predicate ChatWork(todo: seq<Action>)
  {
    && todo != [] && AllPlain(todo[..|todo| - 1])
    && todo[|todo| - 1].Broadcast? && todo[|todo| - 1].message.packet.UserSentMessage?
  }

  predicate WorkOk(h: Handler)
  {
    && (AllPlain(h.todo) || ((h.phase.Serving? || h.phase.Crashed?) && (LoginWork(h.todo) || ChatWork(h.todo))))
    && (h.phase.Crashed? ==> Overflows(h.todo))
  }

  // Users that nobody has heard of

  /** Until the user's login is announced, nothing else about the user is broadcast. */
  ghost predicate NewcomerOk(c: u64, owed: seq<Packet>, me: Option<User>, channel: seq<BroadcastMessage>)
  {
    me.Some? ==>
      && (me.value.username.None? ==>
            Silent(c, channel) && forall i :: 0 <= i < |owed| ==> !Concerns(owed[i], c))
      && (forall i :: 0 <= i < |owed| && owed[i].UserJoinedServer? ==> Silent(c, channel) && |owed| == 1)
  }

  ghost predicate CrashOk(s: State, c: u64)
    requires InPlaceRegistered(s) && c in s.conns
  {
    WorkOk(s.conns[c].handler) && NewcomerOk(c, Owed(s, c), Me(s, c), s.channel)
  }

  ghost predicate CrashInv(s: State)
    requires InPlaceRegistered(s)
  {
    forall c {:trigger Here(s, c)} :: Here(s, c) ==> CrashOk(s, c)
  }

  // Steps keep this

  predicate IsSmall(p: Packet)
  {
    && !p.LoginResponse? && !p.VoiceData? && !p.LoginRequest? && !p.ChatMessageRequest? && !p.UserSentMessage?
    && (p.UserJoinedServer? ==> ValidUsername(p.participant.username))
  }

  lemma SmallFits(p: Packet)
    requires IsSmall(p)
    ensures Encodable(p)
  {
  }

  predicate AddsSmall(x: Action)
  {
    (x.Reply? && IsSmall(x.packet)) || x.Emit? || (x.Broadcast? && IsSmall(x.message.packet))
  }

  lemma SmallIsPlain(x: Action)
    requires AddsSmall(x)
    ensures Plain(x)
  {
    if x.Reply? {
      SmallFits(x.packet);
    } else if x.Broadcast? {
      SmallFits(x.message.packet);
    }
  }

  lemma AllSmallPlain(todo: seq<Action>)
    requires forall i :: 0 <= i < |todo| ==> AddsSmall(todo[i])
    ensures AllPlain(todo)
  {
    forall i | 0 <= i < |todo|
      ensures Plain(todo[i])
    {
      SmallIsPlain(todo[i]);
    }
  }

  /** A packet that a client sends gives rise to work of one of these forms. */
  lemma BeginWork(users: Users, a: Address, p: Packet, now: u64)
    requires a in users && IsClientPacket(p) && (p.LoginRequest? ==> ValidUsername(p.username))
    ensures var todo := Begin(users, a, p, now).todo;
      AllPlain(todo) || LoginWork(todo) || ChatWork(todo)
  {
    var todo := Begin(users, a, p, now).todo;
    if p.LoginRequest? {
      SmallIsPlain(todo[1]);
    } else if p.ChatMessageRequest? {
      SmallIsPlain(todo[0]);
    } else {
      AllSmallPlain(todo);
    }
  }

  lemma RestWork(todo: seq<Action>)
    requires todo != [] && (AllPlain(todo) || LoginWork(todo) || ChatWork(todo))
    ensures AllPlain(todo[1..]) || ChatWork(todo[1..])
  {
    if ChatWork(todo) && |todo| > 1 {
      assert todo[1..][..|todo| - 2] == todo[..|todo| - 1][1..];
    }
  }

  lemma ReadWork(s: State, s': State, d: u64, now: u64)
    requires InPlaceRegistered(s) && Read(s, s', d, now) && ConnOk(d, s.conns[d], Me(s, d))
    ensures WorkOk(s'.conns[d].handler)
  {
    assert Registered(s, d);
    assert MayBeUp(d, s.conns[d].client, s.conns[d].up[0]);
    BeginWork(s.users, s.conns[d].handler.address, s.conns[d].up[0], now);
  }

  lemma HangupWork(s: State, s': State, d: u64)
    requires Hangup(s, s', d)
    ensures WorkOk(s'.conns[d].handler)
  {
    AllSmallPlain(s'.conns[d].handler.todo);
  }

  predicate Lists(step: Step)
  {
    step.StartSnapshotStep? || step.VisitStep? || step.FinishSnapshotStep?
  }

  lemma ListingWork(s: State, s': State, step: Step)
    requires NextBy(s, s', step) && Lists(step) && step.c in s.conns && WorkOk(s.conns[step.c].handler)
    ensures step.c in s'.conns && WorkOk(s'.conns[step.c].handler)
  {
    var todo, todo' := s.conns[step.c].handler.todo, s'.conns[step.c].handler.todo;
    ListingFront(s, s', step);
    assert !Plain(todo[0]);
    StillLogin(todo, todo'[0]);
  }

  /** The step replaces the front of the work list. */
  lemma ListingFront(s: State, s': State, step: Step)
    requires NextBy(s, s', step) && Lists(step) && step.c in s.conns
    ensures step.c in s'.conns
    ensures var h, h' := s.conns[step.c].handler, s'.conns[step.c].handler;
      && h.todo != [] && IsSnapshot(h.todo[0]) && h'.todo != [] && h'.todo == [h'.todo[0]] + h.todo[1..]
      && (h'.todo[0].Collecting? || (h'.todo[0].Reply? && h'.todo[0].packet.LoginResponse?))
      && h'.phase == h.phase
  {
  }

  lemma StillLogin(todo: seq<Action>, x: Action)
    requires AllPlain(todo) || LoginWork(todo) || ChatWork(todo)
    requires todo != [] && IsSnapshot(todo[0]) && (x.Collecting? || (x.Reply? && x.packet.LoginResponse?))
    ensures LoginWork(todo) && LoginWork([x] + todo[1..])
  {
    if ChatWork(todo) {
      SnapshotsAreNotChats(todo);
    }
  }

  lemma SnapshotsAreNotChats(todo: seq<Action>)
    requires todo != [] && IsSnapshot(todo[0])
    ensures !ChatWork(todo)
  {
    assert |todo| > 1 ==> todo[..|todo| - 1][0] == todo[0];
  }

  lemma OwnWork(s: State, s': State, step: Step)
    requires NextBy(s, s', step) && OwnerOf(step).Some? && OwnerOf(step).value in s.conns
    requires !step.ReadStep? && !step.HangupStep? && !Lists(step)
    requires WorkOk(s.conns[OwnerOf(step).value].handler)
    ensures OwnerOf(step).value in s'.conns && WorkOk(s'.conns[OwnerOf(step).value].handler)
  {
    var todo := s.conns[OwnerOf(step).value].handler.todo;
    if step.PerformStep? {
      RestWork(todo);
    } else if !step.WriteFailsStep? {
      assert s'.conns[OwnerOf(step).value].handler.todo == todo;
    }
  }

  lemma WorkStep(s: State, s': State, step: Step)
    requires Base(s) && NextBy(s, s', step) && OwnerOf(step).Some?
    requires OwnerOf(step).value in s.conns && WorkOk(s.conns[OwnerOf(step).value].handler)
    ensures OwnerOf(step).value in s'.conns && WorkOk(s'.conns[OwnerOf(step).value].handler)
  {
    if step.ReadStep? {
      OwnFacts(s, step.c);
      ReadWork(s, s', step.c, step.now);
    } else if step.HangupStep? {
      HangupWork(s, s', step.c);
    } else if Lists(step) {
      ListingWork(s, s', step);
    } else {
      OwnWork(s, s', step);
    }
  }

  // Newcomers

  lemma BeginNewcomer(users: Users, a: Address, p: Packet, now: u64, channel: seq<BroadcastMessage>)
    requires a in users && IsClientPacket(p)
    requires users[a].username.None? ==> Silent(users[a].id, channel)
    requires p.LoginRequest? ==> users[a].username.None? && ValidUsername(p.username)
    requires p.JoinVoiceChannelRequest? || p.LeaveVoiceChannelRequest? || p.UserMuteState? ==> users[a].username.Some?
    ensures var b := Begin(users, a, p, now);
      a in b.users && NewcomerOk(users[a].id, OwedPackets(b.todo), Some(b.users[a]), channel)
  {
    BeginOwes(users, a, p, now);
  }

  lemma ReadNewcomer(s: State, s': State, d: u64, now: u64)
    requires InPlaceRegistered(s) && InPlaceRegistered(s') && Read(s, s', d, now)
    requires ConnOk(d, s.conns[d], Me(s, d)) && NewcomerOk(d, Owed(s, d), Me(s, d), s.channel)
    ensures NewcomerOk(d, Owed(s', d), Me(s', d), s'.channel)
  {
    assert Registered(s, d);
    assert MayBeUp(d, s.conns[d].client, s.conns[d].up[0]);
    assert Registered(s', d);
    BeginNewcomer(s.users, s.conns[d].handler.address, s.conns[d].up[0], now, s.channel);
  }

  lemma BroadcastNewcomer(d: u64, m: BroadcastMessage, owed: seq<Packet>, me: Option<User>,
                          channel: seq<BroadcastMessage>)
    requires NewcomerOk(d, [m.packet] + owed, me, channel)
    ensures NewcomerOk(d, owed, me, channel + [m])
  {
    var all := [m.packet] + owed;
    assert all[0] == m.packet;
    assert forall i :: 0 <= i < |owed| ==> owed[i] == all[i + 1];
  }

  lemma OthersNewcomer(c: u64, d: u64, owed: seq<Packet>, me: Option<User>,
                       channel: seq<BroadcastMessage>, m: BroadcastMessage)
    requires NewcomerOk(c, owed, me, channel) && AboutOnly(m.packet, d) && c != d
    ensures NewcomerOk(c, owed, me, channel + [m])
  {
  }

  predicate Announcing(s: State, step: Step)
  {
    && step.PerformStep? && step.c in s.conns && s.conns[step.c].handler.todo != []
    && s.conns[step.c].handler.todo[0].Broadcast?
  }

  lemma QuietOwned(s: State, s': State, step: Step)
    requires NextBy(s, s', step) && OwnerOf(step).Some? && OwnerOf(step).value in s.conns
    requires !step.ReadStep? && !step.HangupStep? && !step.WriteFailsStep? && !Announcing(s, step)
    ensures var d := OwnerOf(step).value;
      && d in s'.conns && Owed(s', d) == Owed(s, d) && s'.channel == s.channel && s'.users == s.users
      && InPlace(s'.conns[d].handler.phase) == InPlace(s.conns[d].handler.phase)
  {
  }

  lemma AnnouncingNewcomer(s: State, s': State, d: u64)
    requires Acts(s, s', d) && TodoInv(d, s.conns[d].handler) && NewcomerOk(d, Owed(s, d), Me(s, d), s.channel)
    requires Perform(s, s', d) && s.conns[d].handler.todo[0].Broadcast?
    ensures NewcomerOk(d, Owed(s', d), Me(s', d), s'.channel)
  {
    SameEntry(s, s', d);
    BroadcastStep(s, s', d);
    BroadcastNewcomer(d, s.conns[d].handler.todo[0].message, Owed(s', d), Me(s, d), s.channel);
  }

  lemma QuietNewcomer(s: State, s': State, d: u64)
    requires Acts(s, s', d) && NewcomerOk(d, Owed(s, d), Me(s, d), s.channel)
    requires s'.channel == s.channel && s'.users == s.users && Owed(s', d) == Owed(s, d)
    requires InPlace(s'.conns[d].handler.phase) == InPlace(s.conns[d].handler.phase)
    ensures NewcomerOk(d, Owed(s', d), Me(s', d), s'.channel)
  {
    SameEntry(s, s', d);
  }

  lemma StillNewcomer(s: State, s': State, step: Step, d: u64)
    requires NextBy(s, s', step) && OwnerOf(step) == Some(d) && Acts(s, s', d)
    requires !step.ReadStep? && !step.HangupStep? && !step.WriteFailsStep? && !Announcing(s, step)
    requires NewcomerOk(d, Owed(s, d), Me(s, d), s.channel)
    ensures NewcomerOk(d, Owed(s', d), Me(s', d), s'.channel)
  {
    QuietOwned(s, s', step);
    QuietNewcomer(s, s', d);
  }

  lemma LeavingNewcomer(s: State, s': State, d: u64)
    requires InPlaceRegistered(s') && (Hangup(s, s', d) || WriteFails(s, s', d))
    ensures NewcomerOk(d, Owed(s', d), Me(s', d), s'.channel)
  {
  }

  lemma OwnNewcomer(s: State, s': State, step: Step, d: u64)
    requires NextBy(s, s', step) && OwnerOf(step) == Some(d) && !step.ReadStep?
    requires Acts(s, s', d) && TodoInv(d, s.conns[d].handler)
    requires NewcomerOk(d, Owed(s, d), Me(s, d), s.channel)
    ensures NewcomerOk(d, Owed(s', d), Me(s', d), s'.channel)
  {
    if Announcing(s, step) {
      AnnouncingNewcomer(s, s', d);
    } else if step.HangupStep? || step.WriteFailsStep? {
      LeavingNewcomer(s, s', d);
    } else {
      StillNewcomer(s, s', step, d);
    }
  }

  lemma ChannelAfter(s: State, s': State, step: Step)
    requires NextBy(s, s', step)
    ensures if Announcing(s, step) then s'.channel == s.channel + [s.conns[step.c].handler.todo[0].message]
      else s'.channel == s.channel
  {
  }

  lemma OtherCrashOk(s: State, s': State, step: Step, c: u64)
    requires NextBy(s, s', step) && OwnerOf(step).Some? && Acts(s, s', OwnerOf(step).value)
    requires TodoInv(OwnerOf(step).value, s.conns[OwnerOf(step).value].handler)
    requires c in s.conns && c != OwnerOf(step).value && CrashOk(s, c)
    ensures CrashOk(s', c)
  {
    var d := OwnerOf(step).value;
    OthersKeepEntry(s, s', d, c);
    ChannelAfter(s, s', step);
    if Announcing(s, step) {
      assert ActionOk(d, s.conns[d].handler, s.conns[d].handler.todo[0]);
      OthersNewcomer(c, d, Owed(s, c), Me(s, c), s.channel, s.conns[d].handler.todo[0].message);
    }
  }

  lemma NewIsSilent(s: State, c: u64)
    requires ChannelInv(s) && c !in s.conns
    ensures Silent(c, s.channel)
  {
    assert forall i :: 0 <= i < |s.channel| ==> SubjectKnown(s, s.channel[i].packet);
  }

  lemma AcceptCrashOk(s: State, s': State, a: Address, token: u64, c: u64)
    requires RegistrationInv(s) && InPlaceRegistered(s') && Accept(s, s', a, token) && c in s'.conns
    requires if c in s.conns then CrashOk(s, c) else Silent(c, s.channel)
    ensures CrashOk(s', c)
  {
    if c in s.conns {
      AcceptKeepsConn(s, s', a, token, c);
    } else {
      UnrollOwed(s'.conns[c].handler.todo);
    }
  }

  lemma OwnCrashOk(s: State, s': State, step: Step, d: u64)
    requires Base(s) && InPlaceRegistered(s') && NextBy(s, s', step) && OwnerOf(step) == Some(d)
    requires d in s.conns && CrashOk(s, d)
    ensures d in s'.conns && CrashOk(s', d)
  {
    StepIsLocal(s, s', step);
    OwnFacts(s, d);
    WorkStep(s, s', step);
    if step.ReadStep? {
      ReadNewcomer(s, s', d, step.now);
    } else {
      OwnNewcomer(s, s', step, d);
    }
  }

  lemma ElsewhereCrashOk(s: State, s': State, step: Step, d: u64, c: u64)
    requires Base(s) && InPlaceRegistered(s') && NextBy(s, s', step) && OwnerOf(step) == Some(d)
    requires c in s.conns && c != d && CrashOk(s, c)
    ensures c in s'.conns && CrashOk(s', c)
  {
    StepIsLocal(s, s', step);
    OwnFacts(s, d);
    OtherCrashOk(s, s', step, c);
  }

  lemma CrashStep(s: State, s': State, step: Step)
    requires Base(s) && Base(s') && CrashInv(s) && NextBy(s, s', step)
    ensures CrashInv(s')
  {
    if OwnerOf(step).Some? {
      StepIsLocal(s, s', step);
    }
    forall c | Here(s', c)
      ensures CrashOk(s', c)
    {
      if c !in s.conns {
        NewIsSilent(s, c);
      } else {
        assert Here(s, c);
      }
      if step.AcceptStep? {
        AcceptCrashOk(s, s', step.a, step.token, c);
      } else if OwnerOf(step) == Some(c) {
        OwnCrashOk(s, s', step, c);
      } else if OwnerOf(step).Some? {
        ElsewhereCrashOk(s, s', step, OwnerOf(step).value, c);
      }
    }
  }

  ghost predicate CrashBase(s: State)
  {
    Base(s) && CrashInv(s)
  }

  lemma ReachableCrashes(s: State)
    requires Reachable(s)
    ensures CrashBase(s)
  {
    forall x, y, step | CrashBase(x) && NextBy(x, y, step)
      ensures CrashBase(y)
    {
      BaseStep(x, y, step);
      CrashStep(x, y, step);
    }
    HoldsWhenReachable(s, CrashBase);
  }

  lemma OverflowingWork(todo: seq<Action>)
    requires Overflows(todo) && (AllPlain(todo) || LoginWork(todo) || ChatWork(todo))
    ensures LoginWork(todo) || (|todo| == 1 && todo[0].Broadcast? && todo[0].message.packet.UserSentMessage?)
  {
    assert !Plain(todo[0]);
  }

  /** A packet that cannot be encoded comes up in the main loop only, where `Panic` covers it, and is a login
      response, with its announcement still to come, or the broadcast of a chat message. */
  lemma OnlyServingOverflows(s: State, c: u64)
    requires Reachable(s) && c in s.conns && Overflows(s.conns[c].handler.todo)
    ensures var h := s.conns[c].handler;
      && (h.phase.Serving? || h.phase.Crashed?)
      && (LoginWork(h.todo) ||
            (|h.todo| == 1 && h.todo[0].Broadcast? && h.todo[0].message.packet.UserSentMessage?))
  {
    ReachableCrashes(s);
    assert Here(s, c);
    assert WorkOk(s.conns[c].handler);
    OverflowingWork(s.conns[c].handler.todo);
  }

  // Entries left behind

  /** The handler of user `u` does not run any more, but the user's entry is still in the users map. */
  ghost predicate Abandoned(s: State, u: u64)
  {
    Registered(s, u) && !Running(s.conns[u].handler.phase)
  }

  lemma LocalKeepsAbandoned(s: State, s': State, d: u64, u: u64)
    requires InPlaceRegistered(s) && Local(s, s', d) && Abandoned(s, u)
    ensures Abandoned(s', u) && Truth(s', u) == Truth(s, u)
  {
    if s'.users != s.users {
      assert Registered(s, d);
    }
  }

  lemma AbandonedStaysOneStep(s: State, s': State, step: Step, u: u64)
    requires RegistrationInv(s) && NextBy(s, s', step) && Abandoned(s, u)
    ensures Abandoned(s', u) && Truth(s', u) == Truth(s, u)
  {
    if OwnerOf(step).Some? {
      StepIsLocal(s, s', step);
      LocalKeepsAbandoned(s, s', OwnerOf(step).value, u);
    }
  }

  /** An abandoned user is never removed: the entry stays in the users map, unchanged, for the rest of every
      run. */
  lemma {:induction false} AbandonedStays(run: seq<State>, u: u64)
    requires IsRun(run) && RegistrationInv(run[0]) && Abandoned(run[0], u)
    ensures var last := run[|run| - 1]; Abandoned(last, u) && Truth(last, u) == Truth(run[0], u)
    decreases |run|
  {
    if |run| > 1 {
      assert Next(run[0], run[1]);
      var step :| NextBy(run[0], run[1], step);
      RegistrationStep(run[0], run[1], step);
      AbandonedStaysOneStep(run[0], run[1], step, u);
      AbandonedStays(run[1..], u);
    }
  }

  /** Entries are abandoned in exactly two ways: a broadcast cannot be written to the user's own client, or
      the user's handler panics. A client that hangs up is removed at once. */
  lemma HowEntriesAreAbandoned(s: State, s': State, step: Step, u: u64)
    requires RegistrationInv(s) && NextBy(s, s', step) && !Abandoned(s, u)
    ensures Abandoned(s', u) <==> step == WriteFailsStep(u) || step == PanicStep(u)
  {
    if OwnerOf(step).Some? {
      StepIsLocal(s, s', step);
      if OwnerOf(step).value == u {
        OwnAbandoned(s, s', step, u);
      } else {
        LocalKeepsOthers(s, s', OwnerOf(step).value, u);
      }
    }
  }

  lemma OwnAbandoned(s: State, s': State, step: Step, u: u64)
    requires InPlaceRegistered(s) && NextBy(s, s', step) && OwnerOf(step) == Some(u) && !Abandoned(s, u)
    ensures Abandoned(s', u) <==> step == WriteFailsStep(u) || step == PanicStep(u)
  {
    assert Running(s.conns[u].handler.phase) ==> Registered(s, u);
  }

  lemma LocalKeepsOthers(s: State, s': State, d: u64, u: u64)
    requires InPlaceRegistered(s) && Local(s, s', d) && d != u && !Abandoned(s, u)
    ensures !Abandoned(s', u)
  {
    if s'.users != s.users {
      assert Registered(s, d);
    }
  }
}
