/** The invariants of `Registration`, `Link` and `Progress` hold in every reachable state. */
module Invariants {
  import opened Bytes
  import opened Packets
  import opened Management
  import opened System
  import opened Registration
  import opened Progress

  /** Names a connection of `s`; the invariants below are looked up by this name. */
  predicate Here(s: State, c: u64)
  {
    c in s.conns
  }

  ghost predicate ConnInv(s: State)
    requires InPlaceRegistered(s)
  {
    forall c {:trigger Here(s, c)} :: Here(s, c) ==> ConnOk(c, s.conns[c], Me(s, c))
  }

  /** A serving handler will hear every broadcast about other users: those it skips are its own. */
  ghost predicate HearsOthers(channel: seq<BroadcastMessage>, c: u64, h: Handler)
  {
    && h.cursor <= |channel|
    && (h.phase.Serving? ==> forall i :: h.cursor <= i < |channel| && !channel[i].ShouldSendTo(h.address) ==>
          AboutOnly(channel[i].packet, c))
  }

  /** Events are about users that exist or have existed. */
  predicate SubjectKnown(s: State, p: Packet)
  {
    Subject(p).Some? ==> Subject(p).value in s.conns
  }

  ghost predicate ChannelInv(s: State)
  {
    && (forall i :: 0 <= i < |s.channel| ==> IsEvent(s.channel[i].packet) && SubjectKnown(s, s.channel[i].packet))
    && (forall c {:trigger Here(s, c)} :: Here(s, c) ==> HearsOthers(s.channel, c, s.conns[c].handler))
  }

  ghost predicate Base(s: State)
  {
    RegistrationInv(s) && ConnInv(s) && ChannelInv(s)
  }

  /** A local step keeps the connection invariant if it keeps that of its own connection. */
  lemma LocalKeepsConns(s: State, s': State, c: u64)
    requires Base(s) && InPlaceRegistered(s') && Local(s, s', c) && ConnOk(c, s'.conns[c], Me(s', c))
    ensures ConnInv(s')
  {
    forall d | Here(s', d)
      ensures ConnOk(d, s'.conns[d], Me(s', d))
    {
      assert Here(s, d);
      if d != c {
        OthersKeepEntry(s, s', c, d);
      }
    }
  }

  /** What a step of connection `c` may assume about its own connection. */
  ghost predicate OwnOk(s: State, c: u64)
  {
    InPlaceRegistered(s) && c in s.conns && ConnOk(c, s.conns[c], Me(s, c))
  }

  lemma SameEntry(s: State, s': State, c: u64)
    requires InPlaceRegistered(s) && InPlaceRegistered(s') && Local(s, s', c) && s'.users == s.users
    requires InPlace(s'.conns[c].handler.phase) == InPlace(s.conns[c].handler.phase)
    ensures Me(s', c) == Me(s, c)
  {
    if InPlace(s.conns[c].handler.phase) {
      assert Registered(s, c) && Registered(s', c);
    }
  }

  lemma PerformOk(s: State, s': State, c: u64)
    requires OwnOk(s, c) && Perform(s, s', c)
    ensures c in s'.conns && ConnOk(c, s'.conns[c], Me(s, c))
  {
    if s.conns[c].handler.todo[0].Reply? {
      ReplyOk(c, s.conns[c], Me(s, c));
    } else {
      MessageOk(c, s.conns[c], Me(s, c));
    }
  }

  lemma ReadStepOk(s: State, s': State, c: u64, now: u64)
    requires OwnOk(s, c) && InPlaceRegistered(s') && Read(s, s', c, now)
    ensures c in s'.conns && ConnOk(c, s'.conns[c], Me(s', c))
  {
    assert Registered(s, c);
    ReadOk(c, s.conns[c], s.users, now);
    assert InPlace(s'.conns[c].handler.phase);
  }

  lemma StartSnapshotOk(s: State, s': State, c: u64)
    requires OwnOk(s, c) && StartSnapshot(s, s', c)
    ensures c in s'.conns && ConnOk(c, s'.conns[c], Me(s, c))
  {
    var h := s.conns[c].handler;
    assert ActionOk(c, h, h.todo[0]);
    SnapshotOk(c, s.conns[c], Me(s, c), s'.conns[c].handler.todo[0]);
  }

  lemma VisitOk(s: State, s': State, c: u64, a: Address)
    requires OwnOk(s, c) && Visit(s, s', c, a)
    ensures c in s'.conns && ConnOk(c, s'.conns[c], Me(s, c))
  {
    var h := s.conns[c].handler;
    assert ActionOk(c, h, h.todo[0]);
    SnapshotOk(c, s.conns[c], Me(s, c), s'.conns[c].handler.todo[0]);
  }

  lemma FinishSnapshotStepOk(s: State, s': State, c: u64)
    requires OwnOk(s, c) && FinishSnapshot(s, s', c)
    ensures c in s'.conns && ConnOk(c, s'.conns[c], Me(s, c))
  {
    var t := s.conns[c].handler.todo[0];
    assert ActionOk(c, s.conns[c].handler, t);
    FinishSnapshotOk(c, s.conns[c], Me(s, c), LoginResponse(t.requestId, t.id, t.token, t.found));
  }

  lemma ForwardStepOk(s: State, s': State, c: u64)
    requires OwnOk(s, c) && Forward(s, s', c) && IsEvent(s.channel[s.conns[c].handler.cursor].packet)
    ensures c in s'.conns && ConnOk(c, s'.conns[c], Me(s, c))
  {
    var h := s.conns[c].handler;
    var m := s.channel[h.cursor];
    ForwardOk(c, s.conns[c], Me(s, c), m.packet, m.ShouldSendTo(h.address), h.cursor + 1);
  }

  lemma HangupActions(s: State, s': State, c: u64)
    requires OwnOk(s, c) && Hangup(s, s', c)
    ensures forall x :: x in s'.conns[c].handler.todo ==>
      (x.Emit? || x.Broadcast?) && ActionOk(c, s.conns[c].handler, x)
  {
    assert Registered(s, c);
    DisconnectActions(c, s.conns[c].handler, s.users);
  }

  lemma DisconnectActions(c: u64, h: Handler, users: Users)
    requires h.address in users && users[h.address].id == c
    ensures forall x :: x in BeginDisconnect(users, h.address).todo ==> x.Broadcast? && ActionOk(c, h, x)
  {
  }

  lemma HangupOk(s: State, s': State, c: u64)
    requires OwnOk(s, c) && Hangup(s, s', c)
    ensures c in s'.conns && ConnOk(c, s'.conns[c], None)
  {
    HangupActions(s, s', c);
    LeaveOk(c, s.conns[c], Me(s, c), s'.conns[c].handler.todo);
  }

  lemma SendStepOk(s: State, s': State, c: u64, p: Packet)
    requires OwnOk(s, c) && Send(s, s', c, p)
    ensures c in s'.conns && ConnOk(c, s'.conns[c], Me(s, c))
    ensures s'.users == s.users && s'.channel == s.channel && s'.conns[c].handler == s.conns[c].handler
  {
    SendOk(c, s.conns[c], Me(s, c), p);
  }

  // From one connection to the whole state

  /** A local step that broadcasts nothing keeps all these invariants if it keeps its own connection's. */
  lemma LocalKeepsBase(s: State, s': State, c: u64)
    requires Base(s) && Local(s, s', c) && s'.channel == s.channel && RegistrationInv(s')
    requires ConnOk(c, s'.conns[c], Me(s', c)) && HearsOthers(s.channel, c, s'.conns[c].handler)
    ensures Base(s')
  {
    LocalKeepsConns(s, s', c);
    LocalKeepsChannel(s, s', c);
  }

  lemma LocalKeepsChannel(s: State, s': State, c: u64)
    requires ChannelInv(s) && Local(s, s', c) && s'.channel == s.channel
    requires HearsOthers(s.channel, c, s'.conns[c].handler)
    ensures ChannelInv(s')
  {
    forall d | Here(s', d)
      ensures HearsOthers(s'.channel, d, s'.conns[d].handler)
    {
      assert Here(s, d);
    }
  }

  lemma OwnFacts(s: State, c: u64)
    requires Base(s) && c in s.conns
    ensures OwnOk(s, c) && HearsOthers(s.channel, c, s.conns[c].handler)
  {
    assert Here(s, c);
  }

  /** The same, for a step that leaves the user's entry alone. */
  lemma QuietKeepsBase(s: State, s': State, c: u64)
    requires Base(s) && Local(s, s', c) && s'.channel == s.channel && s'.users == s.users
    requires InPlace(s'.conns[c].handler.phase) == InPlace(s.conns[c].handler.phase)
    requires ConnOk(c, s'.conns[c], Me(s, c)) && HearsOthers(s.channel, c, s'.conns[c].handler)
    ensures Base(s')
  {
    LocalKeepsRegistration(s, s', c);
    SameEntry(s, s', c);
    LocalKeepsBase(s, s', c);
  }

  lemma SubscribeKeepsBase(s: State, s': State, c: u64)
    requires Base(s) && Subscribe(s, s', c)
    ensures Base(s')
  {
    OwnFacts(s, c);
    PhaseOk(c, s.conns[c], Me(s, c), s'.conns[c].handler);
    QuietKeepsBase(s, s', c);
  }

  lemma FinishKeepsBase(s: State, s': State, c: u64)
    requires Base(s) && Finish(s, s', c)
    ensures Base(s')
  {
    OwnFacts(s, c);
    PhaseOk(c, s.conns[c], Me(s, c), s'.conns[c].handler);
    QuietKeepsBase(s, s', c);
  }

  lemma PerformKeepsChannel(s: State, s': State, c: u64)
    requires ChannelInv(s) && Perform(s, s', c) && AddressesDistinct(s)
    requires TodoInv(c, s.conns[c].handler)
    ensures ChannelInv(s')
  {
    var h := s.conns[c].handler;
    assert ActionOk(c, h, h.todo[0]);
    forall d | Here(s', d)
      ensures HearsOthers(s'.channel, d, s'.conns[d].handler)
    {
      assert Here(s, d);
      if d != c && s.conns[d].handler.phase.Serving? {
        assert Unfinished(s, d) && Unfinished(s, c);
      }
    }
  }

  lemma PerformKeepsBase(s: State, s': State, c: u64)
    requires Base(s) && Perform(s, s', c)
    ensures Base(s')
  {
    OwnFacts(s, c);
    PerformOk(s, s', c);
    LocalKeepsRegistration(s, s', c);
    SameEntry(s, s', c);
    LocalKeepsConns(s, s', c);
    PerformKeepsChannel(s, s', c);
  }

  lemma ReadKeepsBase(s: State, s': State, c: u64, now: u64)
    requires Base(s) && Read(s, s', c, now)
    ensures Base(s')
  {
    OwnFacts(s, c);
    ReadIsLocal(s, s', c, now);
    LocalKeepsRegistration(s, s', c);
    ReadStepOk(s, s', c, now);
    LocalKeepsBase(s, s', c);
  }

  lemma StartSnapshotKeepsBase(s: State, s': State, c: u64)
    requires Base(s) && StartSnapshot(s, s', c)
    ensures Base(s')
  {
    OwnFacts(s, c);
    StartSnapshotOk(s, s', c);
    QuietKeepsBase(s, s', c);
  }

  lemma VisitKeepsBase(s: State, s': State, c: u64, a: Address)
    requires Base(s) && Visit(s, s', c, a)
    ensures Base(s')
  {
    OwnFacts(s, c);
    VisitOk(s, s', c, a);
    QuietKeepsBase(s, s', c);
  }

  lemma FinishSnapshotKeepsBase(s: State, s': State, c: u64)
    requires Base(s) && FinishSnapshot(s, s', c)
    ensures Base(s')
  {
    OwnFacts(s, c);
    FinishSnapshotStepOk(s, s', c);
    QuietKeepsBase(s, s', c);
  }

  lemma ForwardKeepsBase(s: State, s': State, c: u64)
    requires Base(s) && Forward(s, s', c)
    ensures Base(s')
  {
    OwnFacts(s, c);
    ForwardStepOk(s, s', c);
    QuietKeepsBase(s, s', c);
  }

  lemma HangupKeepsBase(s: State, s': State, c: u64)
    requires Base(s) && Hangup(s, s', c)
    ensures Base(s')
  {
    OwnFacts(s, c);
    assert Local(s, s', c);
    LocalKeepsRegistration(s, s', c);
    HangupOk(s, s', c);
    LocalKeepsBase(s, s', c);
  }

  lemma WriteFailsKeepsBase(s: State, s': State, c: u64)
    requires Base(s) && WriteFails(s, s', c)
    ensures Base(s')
  {
    OwnFacts(s, c);
    assert Local(s, s', c);
    LocalKeepsRegistration(s, s', c);
    LeaveOk(c, s.conns[c], Me(s, c), [Emit(UserDisconnected(c))]);
    LocalKeepsBase(s, s', c);
  }

  lemma PanicKeepsBase(s: State, s': State, c: u64)
    requires Base(s) && Panic(s, s', c)
    ensures Base(s')
  {
    OwnFacts(s, c);
    CrashOk(c, s.conns[c], Me(s, c));
    QuietKeepsBase(s, s', c);
  }

  lemma DrawKeepsBase(s: State, s': State, c: u64)
    requires Base(s) && Draw(s, s', c)
    ensures Base(s')
  {
    OwnFacts(s, c);
    DrawOk(c, s.conns[c], Me(s, c), s'.conns[c]);
    QuietKeepsBase(s, s', c);
  }

  lemma SendKeepsBase(s: State, s': State, c: u64, p: Packet)
    requires Base(s) && Send(s, s', c, p)
    ensures Base(s')
  {
    OwnFacts(s, c);
    SendStepOk(s, s', c, p);
    QuietKeepsBase(s, s', c);
  }

  lemma ReceiveKeepsBase(s: State, s': State, c: u64)
    requires Base(s) && Receive(s, s', c)
    ensures Base(s')
  {
    OwnFacts(s, c);
    ReceiveOk(c, s.conns[c], Me(s, c));
    QuietKeepsBase(s, s', c);
  }

  lemma LearnVoiceKeepsBase(s: State, s': State, c: u64, a: Address)
    requires Base(s) && LearnVoice(s, s', c, a)
    ensures Base(s')
  {
    OwnFacts(s, c);
    LearnVoiceOk(c, s.conns[c], Me(s, c));
    QuietKeepsBase(s, s', c);
  }

  lemma AcceptKeepsConn(s: State, s': State, a: Address, token: u64, d: u64)
    requires RegistrationInv(s) && InPlaceRegistered(s') && Accept(s, s', a, token) && d in s.conns
    ensures s'.conns[d] == s.conns[d] && Me(s', d) == Me(s, d)
  {
    if InPlace(s.conns[d].handler.phase) {
      assert Registered(s, d) && Registered(s', d);
    }
  }

  lemma AcceptKeepsBase(s: State, s': State, a: Address, token: u64)
    requires Base(s) && Accept(s, s', a, token)
    ensures Base(s')
  {
    AcceptKeepsRegistration(s, s', a, token);
    forall d | Here(s', d)
      ensures ConnOk(d, s'.conns[d], Me(s', d)) && HearsOthers(s'.channel, d, s'.conns[d].handler)
    {
      if d in s.conns {
        OwnFacts(s, d);
        AcceptKeepsConn(s, s', a, token, d);
      } else {
        NewConnOk(d, a, token);
      }
    }
  }

  /** The relay touches neither the users nor the connections. */
  lemma RelayKeepsBase(s: State, s': State)
    requires Base(s) && s'.users == s.users && s'.conns == s.conns && s'.nextId == s.nextId && s'.channel == s.channel
    ensures Base(s')
  {
    assert forall c :: c in s.conns ==> (Registered(s, c) <==> Registered(s', c));
    assert InPlaceRegistered(s') && AddressesDistinct(s') && RegistrationInv(s');
    forall c | Here(s', c)
      ensures ConnOk(c, s'.conns[c], Me(s', c)) && HearsOthers(s'.channel, c, s'.conns[c].handler)
    {
      OwnFacts(s, c);
    }
  }

  lemma WorkKeepsBase(s: State, s': State, step: Step)
    requires Base(s) && NextBy(s, s', step) && Works(step)
    ensures Base(s')
  {
    match step
    case PerformStep(c) => PerformKeepsBase(s, s', c);
    case ReadStep(c, now) => ReadKeepsBase(s, s', c, now);
    case StartSnapshotStep(c) => StartSnapshotKeepsBase(s, s', c);
    case VisitStep(c, a) => VisitKeepsBase(s, s', c, a);
    case FinishSnapshotStep(c) => FinishSnapshotKeepsBase(s, s', c);
  }

  lemma MoveKeepsBase(s: State, s': State, step: Step)
    requires Base(s) && NextBy(s, s', step) && Moves(step)
    ensures Base(s')
  {
    match step
    case SubscribeStep(c) => SubscribeKeepsBase(s, s', c);
    case ForwardStep(c) => ForwardKeepsBase(s, s', c);
    case HangupStep(c) => HangupKeepsBase(s, s', c);
    case WriteFailsStep(c) => WriteFailsKeepsBase(s, s', c);
    case FinishStep(c) => FinishKeepsBase(s, s', c);
    case PanicStep(c) => PanicKeepsBase(s, s', c);
  }

  lemma BaseStep(s: State, s': State, step: Step)
    requires Base(s) && NextBy(s, s', step)
    ensures Base(s')
  {
    if Works(step) {
      WorkKeepsBase(s, s', step);
      return;
    }
    if Moves(step) {
      MoveKeepsBase(s, s', step);
      return;
    }
    match step
    case AcceptStep(a, token) => AcceptKeepsBase(s, s', a, token);
    case DrawStep(c) => DrawKeepsBase(s, s', c);
    case SendStep(c, p) => SendKeepsBase(s, s', c, p);
    case ReceiveStep(c) => ReceiveKeepsBase(s, s', c);
    case LearnVoiceStep(c, a) => LearnVoiceKeepsBase(s, s', c, a);
    case RelayEventStep => RelayKeepsBase(s, s');
    case RelayAuthStep(_, _) => RelayKeepsBase(s, s');
  }

  lemma BaseKept()
    ensures Kept(Base)
  {
    forall s, s', step | Base(s) && NextBy(s, s', step)
      ensures Base(s')
    {
      BaseStep(s, s', step);
    }
  }

  lemma ReachableBase(s: State)
    requires Reachable(s)
    ensures Base(s)
  {
    BaseKept();
    HoldsWhenReachable(s, Base);
  }
}
