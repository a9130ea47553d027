/** What the relay is told: the events about each user follow the life of that user's connection. */
module Lifecycle {
  import opened Bytes
  import opened Sequences
  import opened Packets
  import opened Management
  import opened System
  import opened Registration
  import opened Link
  import opened Progress
  import opened Invariants
  import opened Presence
  import opened PresenceSteps

  /** The life of a user as its events tell it. Broken: the events came in an impossible order. */
  datatype Life = Unborn | Live(token: u64, inVoice: bool) | Dead(token: u64) | Broken

  function LifeStep(u: u64, l: Life, e: Event): Life
  {
    if e.id != u then l
    else
      match e
      case UserConnected(_, token) => if l.Unborn? then Live(token, false) else Broken
      case VoiceJoined(_) => if l.Live? then Live(l.token, true) else Broken
      case VoiceLeft(_) => if l.Live? then Live(l.token, false) else Broken
      case UserDisconnected(_) => if l.Live? then Dead(l.token) else Broken
  }

  function LifeOf(u: u64, l: Life, events: seq<Event>): Life
    decreases |events|
  {
    if events == [] then l else LifeOf(u, LifeStep(u, l, events[0]), events[1..])
  }

  lemma {:induction false} LifeAppend(u: u64, l: Life, a: seq<Event>, b: seq<Event>)
    ensures LifeOf(u, l, a + b) == LifeOf(u, LifeOf(u, l, a), b)
    decreases |a|
  {
    if a == [] {
      assert a + b == b;
    } else {
      assert (a + b)[1..] == a[1..] + b;
      LifeAppend(u, LifeStep(u, l, a[0]), a[1..], b);
    }
  }

  lemma LifeOfOne(u: u64, l: Life, e: Event)
    ensures LifeOf(u, l, [e]) == LifeStep(u, l, e)
  {
    assert [e][1..] == [];
  }

  // Order

  /** The events about user `u`. */
  function About(u: u64, events: seq<Event>): seq<Event>
  {
    if events == [] then []
    else (if events[0].id == u then [events[0]] else []) + About(u, events[1..])
  }

  lemma {:induction false} LifeOfAbout(u: u64, l: Life, events: seq<Event>)
    ensures LifeOf(u, l, About(u, events)) == LifeOf(u, l, events)
    decreases |events|
  {
    if events != [] {
      var first := if events[0].id == u then [events[0]] else [];
      LifeAppend(u, l, first, About(u, events[1..]));
      if events[0].id == u {
        LifeOfOne(u, l, events[0]);
      }
      LifeOfAbout(u, LifeStep(u, l, events[0]), events[1..]);
    }
  }

  /** A connection, then joins and leaves, then at most one disconnection. */
  predicate Disciplined(log: seq<Event>)
  {
    && (log != [] ==> log[0].UserConnected?)
    && (forall i :: 0 < i < |log| ==> !log[i].UserConnected?)
    && (forall i :: 0 <= i < |log| - 1 ==> !log[i].UserDisconnected?)
  }

  /** What is left of a disciplined log once the user's connection has been reported. */
  predicate Continues(log: seq<Event>)
  {
    && (forall i :: 0 <= i < |log| ==> !log[i].UserConnected?)
    && (forall i :: 0 <= i < |log| - 1 ==> !log[i].UserDisconnected?)
  }

  lemma {:induction false} NeverMended(u: u64, events: seq<Event>)
    ensures LifeOf(u, Broken, events) == Broken
    decreases |events|
  {
    if events != [] {
      NeverMended(u, events[1..]);
    }
  }

  lemma {:induction false} LiveContinues(u: u64, l: Life, log: seq<Event>)
    requires l.Live? && forall i :: 0 <= i < |log| ==> log[i].id == u
    ensures LifeOf(u, l, log) != Broken <==> Continues(log)
    decreases |log|
  {
    if log != [] {
      var rest := log[1..];
      var next := LifeStep(u, l, log[0]);
      assert forall i :: 0 <= i < |rest| ==> rest[i] == log[i + 1];
      if next.Live? {
        LiveContinues(u, next, rest);
        assert Continues(log) <==> Continues(rest) by {
          assert forall i :: 0 < i < |log| ==> log[i] == rest[i - 1];
        }
      } else if rest != [] {
        assert LifeStep(u, next, rest[0]) == Broken;
        NeverMended(u, rest[1..]);
        if next == Broken {
          NeverMended(u, rest);
        }
      }
    }
  }

  /** A user's events make sense to the relay if and only if they are disciplined. */
  lemma UnbrokenMeansDisciplined(u: u64, log: seq<Event>)
    requires forall i :: 0 <= i < |log| ==> log[i].id == u
    ensures LifeOf(u, Unborn, log) != Broken <==> Disciplined(log)
  {
    if log != [] {
      var rest := log[1..];
      assert forall i :: 0 <= i < |rest| ==> rest[i] == log[i + 1];
      if log[0].UserConnected? {
        LiveContinues(u, Live(log[0].token, false), rest);
        assert Continues(rest) <==> Disciplined(log) by {
          assert forall i :: 0 < i < |log| ==> log[i] == rest[i - 1];
        }
      } else {
        NeverMended(u, rest);
      }
    }
  }

  lemma {:induction false} StaysBorn(u: u64, l: Life, events: seq<Event>)
    requires l != Unborn
    ensures LifeOf(u, l, events) != Unborn
    decreases |events|
  {
    if events != [] {
      StaysBorn(u, LifeStep(u, l, events[0]), events[1..]);
    }
  }

  // The life of a connection

  /** Where connection `u` stands. */
  ghost function Now(s: State, u: u64): Life
    requires InPlaceRegistered(s)
  {
    if u !in s.conns then Unborn
    else if Me(s, u).Some? then Live(s.conns[u].handler.token, Me(s, u).value.inVoice)
    else Dead(s.conns[u].handler.token)
  }

  /** The events that the handler of user `u` has yet to send for the request in progress. */
  function OwedToRelay(s: State, u: u64): seq<Event>
  {
    if u in s.conns then OwedEvents(s.conns[u].handler.todo) else []
  }

  /** The events, sent and owed, tell every user's life as it is. */
  ghost predicate LifeInv(s: State)
    requires InPlaceRegistered(s)
  {
    forall u {:trigger Whom(s, u)} :: Whom(s, u) ==>
      LifeOf(u, Unborn, s.events + OwedToRelay(s, u)) == Now(s, u)
  }

  lemma OthersKeepLife(s: State, s': State, d: u64, u: u64)
    requires Acts(s, s', d) && u != d
    ensures Now(s', u) == Now(s, u) && OwedToRelay(s', u) == OwedToRelay(s, u)
  {
    if u in s.conns {
      OthersKeepEntry(s, s', d, u);
    }
  }

  /** What the lemma about a step of connection `d` may use. */
  ghost predicate ActsAlive(s: State, s': State, d: u64)
  {
    && Acts(s, s', d) && LifeInv(s) && TodoInv(d, s.conns[d].handler)
    && (s.conns[d].up != [] ==> IsClientPacket(s.conns[d].up[0]))
  }

  /** A step of connection `d` that sends no event. */
  lemma SilentKeepsLife(s: State, s': State, d: u64)
    requires Acts(s, s', d) && LifeInv(s) && s'.events == s.events
    requires LifeOf(d, Unborn, s.events + OwedToRelay(s, d)) == Now(s, d) ==>
      LifeOf(d, Unborn, s.events + OwedToRelay(s', d)) == Now(s', d)
    ensures LifeInv(s')
  {
    forall u | Whom(s', u)
      ensures LifeOf(u, Unborn, s'.events + OwedToRelay(s', u)) == Now(s', u)
    {
      assert Whom(s, u);
      if u != d {
        OthersKeepLife(s, s', d, u);
      }
    }
  }

  /** A step that neither changes what is owed nor the life of its connection. */
  lemma SameLife(s: State, s': State, d: u64)
    requires Acts(s, s', d) && LifeInv(s) && s'.events == s.events && s'.users == s.users
    requires InPlace(s'.conns[d].handler.phase) == InPlace(s.conns[d].handler.phase)
    requires OwedToRelay(s', d) == OwedToRelay(s, d)
    ensures LifeInv(s')
  {
    SameEntry(s, s', d);
    SilentKeepsLife(s, s', d);
  }

  /** A step that begins work: what becomes owed tells how the life of its connection changes. */
  lemma NewWorkKeepsLife(s: State, s': State, d: u64)
    requires Acts(s, s', d) && LifeInv(s) && s'.events == s.events && OwedToRelay(s, d) == []
    requires LifeOf(d, Now(s, d), OwedToRelay(s', d)) == Now(s', d)
    ensures LifeInv(s')
  {
    LifeAppend(d, Unborn, s.events, OwedToRelay(s', d));
    assert s.events + [] == s.events;
    SilentKeepsLife(s, s', d);
  }

  lemma EmitKeepsLife(s: State, s': State, d: u64)
    requires Acts(s, s', d) && LifeInv(s) && TodoInv(d, s.conns[d].handler)
    requires Perform(s, s', d) && s.conns[d].handler.todo[0].Emit?
    ensures LifeInv(s')
  {
    var e := s.conns[d].handler.todo[0].event;
    assert ActionOk(d, s.conns[d].handler, s.conns[d].handler.todo[0]);
    SameEntry(s, s', d);
    forall u | Whom(s', u)
      ensures LifeOf(u, Unborn, s'.events + OwedToRelay(s', u)) == Now(s', u)
    {
      assert Whom(s, u);
      if u != d {
        OthersKeepLife(s, s', d, u);
        SkipsEvent(u, s.events, e, OwedToRelay(s, u));
      } else {
        assert s.events + OwedToRelay(s, d) == s'.events + OwedToRelay(s', d);
      }
    }
  }

  lemma SkipsEvent(u: u64, a: seq<Event>, e: Event, b: seq<Event>)
    requires e.id != u
    ensures LifeOf(u, Unborn, a + [e] + b) == LifeOf(u, Unborn, a + b)
  {
    LifeAppend(u, Unborn, a + [e], b);
    LifeAppend(u, Unborn, a, [e]);
    LifeAppend(u, Unborn, a, b);
    LifeOfOne(u, LifeOf(u, Unborn, a), e);
  }

  lemma PerformKeepsLife(s: State, s': State, d: u64)
    requires ActsAlive(s, s', d) && Perform(s, s', d)
    ensures LifeInv(s')
  {
    if s.conns[d].handler.todo[0].Emit? {
      EmitKeepsLife(s, s', d);
    } else {
      SameLife(s, s', d);
    }
  }

  lemma UnrollEvents(todo: seq<Action>)
    requires |todo| <= 3
    ensures |todo| == 1 ==> OwedEvents(todo) == EventsOfOne(todo[0])
    ensures |todo| == 2 ==> OwedEvents(todo) == EventsOfOne(todo[0]) + EventsOfOne(todo[1])
    ensures |todo| == 3 ==> OwedEvents(todo) == EventsOfOne(todo[0]) + EventsOfOne(todo[1]) + EventsOfOne(todo[2])
  {
    if |todo| >= 2 {
      var rest := todo[1..];
      assert rest[0] == todo[1];
      if |todo| == 3 {
        var last := rest[1..];
        assert last[0] == todo[2] && last[1..] == [];
        Assoc(EventsOfOne(todo[0]), EventsOfOne(todo[1]), EventsOfOne(todo[2]));
      }
    }
  }

  function EventsOfOne(x: Action): seq<Event>
  {
    if x.Emit? then [x.event] else []
  }

  /** The event that packet `p` of `user` causes. */
  function Reported(user: User, p: Packet): seq<Event>
  {
    match p
    case JoinVoiceChannelRequest(_) => [VoiceJoined(user.id)]
    case LeaveVoiceChannelRequest(_) => [VoiceLeft(user.id)]
    case _ => []
  }

  lemma BeginReports(users: Users, a: Address, p: Packet, now: u64)
    requires a in users
    ensures OwedEvents(Begin(users, a, p, now).todo) == Reported(users[a], p)
  {
    UnrollEvents(Begin(users, a, p, now).todo);
  }

  /** The event of a request is exactly what its change of the voice flag needs. */
  lemma BeginTells(users: Users, a: Address, p: Packet, now: u64, token: u64)
    requires a in users && IsClientPacket(p)
    ensures var b := Begin(users, a, p, now);
      && a in b.users
      && LifeOf(users[a].id, Live(token, users[a].inVoice), OwedEvents(b.todo)) == Live(token, b.users[a].inVoice)
  {
    BeginReports(users, a, p, now);
    BeginChanges(users, a, p, now);
    if Reported(users[a], p) != [] {
      LifeOfOne(users[a].id, Live(token, users[a].inVoice), Reported(users[a], p)[0]);
    }
  }

  lemma ReadKeepsLife(s: State, s': State, d: u64, now: u64)
    requires ActsAlive(s, s', d) && Read(s, s', d, now)
    ensures LifeInv(s')
  {
    var k := s.conns[d];
    assert Registered(s', d);
    BeginTells(s.users, k.handler.address, k.up[0], now, k.handler.token);
    NewWorkKeepsLife(s, s', d);
  }

  lemma HangupKeepsLife(s: State, s': State, d: u64)
    requires Acts(s, s', d) && LifeInv(s) && Hangup(s, s', d)
    ensures LifeInv(s')
  {
    assert Registered(s, d);
    UnrollEvents(s'.conns[d].handler.todo);
    NewWorkKeepsLife(s, s', d);
  }

  lemma WriteFailsKeepsLife(s: State, s': State, d: u64)
    requires Acts(s, s', d) && LifeInv(s) && WriteFails(s, s', d)
    ensures LifeInv(s')
  {
    UnrollEvents(s'.conns[d].handler.todo);
    NewWorkKeepsLife(s, s', d);
  }

  lemma AcceptKeepsLife(s: State, s': State, a: Address, token: u64)
    requires RegistrationInv(s) && InPlaceRegistered(s') && LifeInv(s) && Accept(s, s', a, token)
    ensures LifeInv(s')
  {
    forall u | Whom(s', u)
      ensures LifeOf(u, Unborn, s'.events + OwedToRelay(s', u)) == Now(s', u)
    {
      assert Whom(s, u);
      AcceptTells(s, s', a, token, u);
    }
  }

  lemma AcceptTells(s: State, s': State, a: Address, token: u64, u: u64)
    requires RegistrationInv(s) && InPlaceRegistered(s') && Accept(s, s', a, token)
    requires LifeOf(u, Unborn, s.events + OwedToRelay(s, u)) == Now(s, u)
    ensures LifeOf(u, Unborn, s'.events + OwedToRelay(s', u)) == Now(s', u)
  {
    if u == s.nextId {
      UnrollEvents(s'.conns[u].handler.todo);
      assert s.events + [] == s.events;
      LifeAppend(u, Unborn, s.events, [UserConnected(u, token)]);
      LifeOfOne(u, Unborn, UserConnected(u, token));
    } else if u in s.conns {
      AcceptKeepsEntries(s, s', a, token, u);
    }
  }

  lemma AcceptKeepsEntries(s: State, s': State, a: Address, token: u64, u: u64)
    requires RegistrationInv(s) && InPlaceRegistered(s') && Accept(s, s', a, token) && u in s.conns
    ensures u in s'.conns && s'.conns[u] == s.conns[u] && Me(s', u) == Me(s, u)
  {
    if InPlace(s.conns[u].handler.phase) {
      assert Registered(s, u) && Registered(s', u);
    }
  }

  lemma SnapshotKeepsLife(s: State, s': State, d: u64)
    requires Acts(s, s', d) && LifeInv(s) && s'.events == s.events && s'.users == s.users
    requires s'.conns[d].handler.phase == s.conns[d].handler.phase
    requires s.conns[d].handler.todo != [] && !s.conns[d].handler.todo[0].Emit?
    requires s'.conns[d].handler.todo != [] && !s'.conns[d].handler.todo[0].Emit?
    requires s'.conns[d].handler.todo[1..] == s.conns[d].handler.todo[1..]
    ensures LifeInv(s')
  {
    SameLife(s, s', d);
  }

  lemma StartSnapshotKeepsLife(s: State, s': State, d: u64)
    requires ActsAlive(s, s', d) && StartSnapshot(s, s', d)
    ensures LifeInv(s')
  {
    SnapshotKeepsLife(s, s', d);
  }

  lemma VisitKeepsLife(s: State, s': State, d: u64, a: Address)
    requires ActsAlive(s, s', d) && Visit(s, s', d, a)
    ensures LifeInv(s')
  {
    SnapshotKeepsLife(s, s', d);
  }

  lemma FinishSnapshotKeepsLife(s: State, s': State, d: u64)
    requires ActsAlive(s, s', d) && FinishSnapshot(s, s', d)
    ensures LifeInv(s')
  {
    SnapshotKeepsLife(s, s', d);
  }

  /** Steps that leave the handler's work alone. */
  lemma IdleKeepsLife(s: State, s': State, d: u64)
    requires Acts(s, s', d) && LifeInv(s) && s'.events == s.events && s'.users == s.users
    requires s'.conns[d].handler.todo == s.conns[d].handler.todo
    requires InPlace(s'.conns[d].handler.phase) == InPlace(s.conns[d].handler.phase)
    ensures LifeInv(s')
  {
    SameLife(s, s', d);
  }

  /** The step leaves the handler's work list alone. */
  predicate LeavesWork(step: Step)
  {
    || step.SubscribeStep? || step.ForwardStep? || step.FinishStep? || step.SendStep? || step.ReceiveStep?
    || step.LearnVoiceStep? || step.PanicStep? || step.DrawStep?
  }

  lemma LeavesWorkAlone(s: State, s': State, step: Step)
    requires NextBy(s, s', step) && LeavesWork(step)
    ensures OwnerOf(step).Some?
    ensures var d := OwnerOf(step).value;
      && d in s.conns && d in s'.conns && s'.events == s.events && s'.users == s.users
      && s'.conns[d].handler.todo == s.conns[d].handler.todo
      && InPlace(s'.conns[d].handler.phase) == InPlace(s.conns[d].handler.phase)
  {
  }

  lemma OwnStepLife(s: State, s': State, step: Step)
    requires NextBy(s, s', step) && OwnerOf(step).Some? && !LeavesWork(step)
    requires ActsAlive(s, s', OwnerOf(step).value)
    ensures LifeInv(s')
  {
    match step
    case PerformStep(d) => PerformKeepsLife(s, s', d);
    case ReadStep(d, now) => ReadKeepsLife(s, s', d, now);
    case StartSnapshotStep(d) => StartSnapshotKeepsLife(s, s', d);
    case VisitStep(d, a) => VisitKeepsLife(s, s', d, a);
    case FinishSnapshotStep(d) => FinishSnapshotKeepsLife(s, s', d);
    case HangupStep(d) => HangupKeepsLife(s, s', d);
    case WriteFailsStep(d) => WriteFailsKeepsLife(s, s', d);
  }

  lemma RelayKeepsLife(s: State, s': State)
    requires InPlaceRegistered(s) && InPlaceRegistered(s') && LifeInv(s)
    requires s'.users == s.users && s'.conns == s.conns && s'.events == s.events
    ensures LifeInv(s')
  {
    forall u | Whom(s', u)
      ensures LifeOf(u, Unborn, s'.events + OwedToRelay(s', u)) == Now(s', u)
    {
      assert Whom(s, u);
    }
  }

  lemma LifeInvStep(s: State, s': State, step: Step)
    requires Base(s) && Base(s') && LifeInv(s) && NextBy(s, s', step)
    ensures LifeInv(s')
  {
    if OwnerOf(step).Some? {
      var d := OwnerOf(step).value;
      StepIsLocal(s, s', step);
      OwnFacts(s, d);
      if LeavesWork(step) {
        LeavesWorkAlone(s, s', step);
        IdleKeepsLife(s, s', d);
      } else {
        OwnStepLife(s, s', step);
      }
    } else if step.AcceptStep? {
      AcceptKeepsLife(s, s', step.a, step.token);
    } else {
      RelayKeepsLife(s, s');
    }
  }
}
