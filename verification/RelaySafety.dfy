/** The relay's sessions in every reachable state: they follow the connections' lives, and those that have
    been authenticated have an address. */
module RelaySafety {
  import opened Bytes
  import opened Packets
  import opened Management
  import opened RelayState
  import opened System
  import opened Registration
  import opened Invariants
  import opened Presence
  import opened Lifecycle

  // Sessions and lives

  /** The session of user `u`, or its absence, is what the user's life calls for. */
  predicate SessionMatches(sessions: map<u64, Session>, u: u64, l: Life)
  {
    if l.Live? then u in sessions && sessions[u].token == l.token && sessions[u].inVoice == l.inVoice
    else u !in sessions
  }

  /** What an event does to the sessions. */
  function OnEvent(sessions: map<u64, Session>, e: Event): map<u64, Session>
  {
    match e
    case UserConnected(id, token) => sessions[id := Session(token, false, None)]
    case VoiceJoined(id) => SetVoice(Relay(sessions, map[]), id, true).sessions
    case VoiceLeft(id) => SetVoice(Relay(sessions, map[]), id, false).sessions
    case UserDisconnected(id) => sessions - {id}
  }

  function OnEvents(sessions: map<u64, Session>, events: seq<Event>): map<u64, Session>
    decreases |events|
  {
    if events == [] then sessions else OnEvents(OnEvent(sessions, events[0]), events[1..])
  }

  /** Sessions keep following a life that stays unbroken. */
  lemma {:induction false} OnEventsMatch(sessions: map<u64, Session>, u: u64, l: Life, events: seq<Event>)
    requires SessionMatches(sessions, u, l) && LifeOf(u, l, events) != Broken
    ensures SessionMatches(OnEvents(sessions, events), u, LifeOf(u, l, events))
    decreases |events|
  {
    if events != [] {
      if LifeStep(u, l, events[0]) == Broken {
        NeverMended(u, events[1..]);
      }
      OnEventsMatch(OnEvent(sessions, events[0]), u, LifeStep(u, l, events[0]), events[1..]);
    }
  }

  /** The life that the relay has heard of. */
  function Heard(s: State, u: u64): Life
  {
    if s.handled <= |s.events| then LifeOf(u, Unborn, s.events[..s.handled]) else Broken
  }

  ghost predicate SessionInv(s: State)
  {
    && s.handled <= |s.events|
    && forall u {:trigger Whom(s, u)} :: Whom(s, u) ==> SessionMatches(s.relay.sessions, u, Heard(s, u))
  }

  ghost predicate LivesInv(s: State)
    requires InPlaceRegistered(s)
  {
    LifeInv(s) && SessionInv(s)
  }

  /** What the relay has heard continues to the connection's present life. */
  lemma HeardContinues(s: State, u: u64)
    requires InPlaceRegistered(s) && LivesInv(s)
    ensures LifeOf(u, Heard(s, u), s.events[s.handled..] + OwedToRelay(s, u)) == Now(s, u)
    ensures Heard(s, u) != Broken
  {
    assert Whom(s, u);
    var rest := s.events[s.handled..] + OwedToRelay(s, u);
    assert s.events + OwedToRelay(s, u) == s.events[..s.handled] + rest;
    LifeAppend(u, Unborn, s.events[..s.handled], rest);
    if Heard(s, u) == Broken {
      NeverMended(u, rest);
    }
  }

  predicate Born(l: Life)
  {
    l.Live? || l.Dead?
  }

  lemma {:induction false} TokenKept(u: u64, l: Life, events: seq<Event>)
    requires Born(l) && LifeOf(u, l, events) != Broken
    ensures Born(LifeOf(u, l, events)) && LifeOf(u, l, events).token == l.token
    decreases |events|
  {
    if events != [] {
      if LifeStep(u, l, events[0]) == Broken {
        NeverMended(u, events[1..]);
      }
      TokenKept(u, LifeStep(u, l, events[0]), events[1..]);
    }
  }

  /** Sessions belong to connections and hold their tokens. */
  lemma SessionToken(s: State, u: u64)
    requires InPlaceRegistered(s) && LivesInv(s) && Born(Heard(s, u))
    ensures u in s.conns && s.conns[u].handler.token == Heard(s, u).token
  {
    HeardContinues(s, u);
    TokenKept(u, Heard(s, u), s.events[s.handled..] + OwedToRelay(s, u));
  }

  lemma SessionKnown(s: State, u: u64)
    requires InPlaceRegistered(s) && LivesInv(s) && u in s.relay.sessions
    ensures Heard(s, u).Live? && u in s.conns && s.conns[u].handler.token == s.relay.sessions[u].token
  {
    assert Whom(s, u);
    SessionToken(s, u);
  }

  // Steps keep the sessions in line

  lemma HeardNext(s: State, s': State, u: u64)
    requires s.handled < |s.events| && s'.events == s.events && s'.handled == s.handled + 1
    ensures Heard(s', u) == LifeStep(u, Heard(s, u), s.events[s.handled])
  {
    assert s.events[..s.handled + 1] == s.events[..s.handled] + [s.events[s.handled]];
    LifeAppend(u, Unborn, s.events[..s.handled], [s.events[s.handled]]);
    LifeOfOne(u, Heard(s, u), s.events[s.handled]);
  }

  lemma RelayEventKeepsSessions(s: State, s': State)
    requires InPlaceRegistered(s) && InPlaceRegistered(s') && LivesInv(s) && LifeInv(s') && RelayEvent(s, s')
    ensures SessionInv(s')
  {
    forall u | Whom(s', u)
      ensures SessionMatches(s'.relay.sessions, u, Heard(s', u))
    {
      assert Whom(s, u);
      HeardNext(s, s', u);
      NextUnbroken(s, s', u);
    }
  }

  lemma NextUnbroken(s: State, s': State, u: u64)
    requires InPlaceRegistered(s') && LifeInv(s') && s'.handled <= |s'.events|
    ensures Heard(s', u) != Broken
  {
    assert Whom(s', u);
    var rest := s'.events[s'.handled..] + OwedToRelay(s', u);
    assert s'.events + OwedToRelay(s', u) == s'.events[..s'.handled] + rest;
    LifeAppend(u, Unborn, s'.events[..s'.handled], rest);
    if Heard(s', u) == Broken {
      NeverMended(u, rest);
    }
  }

  /** A log that only grows at its end leaves what has been heard alone. */
  lemma HeardSame(s: State, s': State, u: u64)
    requires s.handled <= |s.events| <= |s'.events| && s'.events[..|s.events|] == s.events && s'.handled == s.handled
    ensures Heard(s', u) == Heard(s, u)
  {
    assert s'.events[..s.handled] == s'.events[..|s.events|][..s.handled];
  }

  lemma OtherStepKeepsSessions(s: State, s': State)
    requires SessionInv(s) && s'.handled == s.handled && s'.relay.sessions == s.relay.sessions
    requires |s.events| <= |s'.events| && s'.events[..|s.events|] == s.events
    ensures SessionInv(s')
  {
    forall u | Whom(s', u)
      ensures SessionMatches(s'.relay.sessions, u, Heard(s', u))
    {
      assert Whom(s, u);
      HeardSame(s, s', u);
    }
  }

  lemma RelayAuthKeepsSessions(s: State, s': State, src: Address, id: u64)
    requires SessionInv(s) && RelayAuth(s, s', src, id)
    ensures SessionInv(s')
  {
    forall u | Whom(s', u)
      ensures SessionMatches(s'.relay.sessions, u, Heard(s', u))
    {
      assert Whom(s, u);
    }
  }

  predicate ByRelay(step: Step)
  {
    step.RelayEventStep? || step.RelayAuthStep?
  }

  /** Steps outside the relay only add to the end of its event queue. */
  lemma EventsGrow(s: State, s': State, step: Step)
    requires NextBy(s, s', step) && !ByRelay(step)
    ensures s'.relay == s.relay && s'.handled == s.handled && s'.auths == s.auths
    ensures |s.events| <= |s'.events| && s'.events[..|s.events|] == s.events
    ensures s'.events == s.events || exists e :: s'.events == s.events + [e]
  {
    if s'.events != s.events {
      assert step.PerformStep? && s.conns[step.c].handler.todo[0].Emit?;
      assert s'.events == s.events + [s.conns[step.c].handler.todo[0].event];
    }
  }

  lemma LivesStep(s: State, s': State, step: Step)
    requires Base(s) && Base(s') && LivesInv(s) && NextBy(s, s', step)
    ensures LivesInv(s')
  {
    LifeInvStep(s, s', step);
    if step.RelayEventStep? {
      RelayEventKeepsSessions(s, s');
    } else if step.RelayAuthStep? {
      RelayAuthKeepsSessions(s, s', step.a, step.id);
    } else {
      EventsGrow(s, s', step);
      OtherStepKeepsSessions(s, s');
    }
  }

  // Voice authentication

  ghost predicate Authenticated(s: State, token: u64)
  {
    exists a :: (a, token) in s.auths
  }

  /** The token belongs to a connection that the relay has heard of. */
  ghost predicate HeldByHeard(s: State, token: u64)
  {
    exists c :: c in s.conns && s.conns[c].handler.token == token && Heard(s, c) != Unborn
  }

  ghost predicate AuthInv(s: State)
  {
    && (forall x :: x in s.auths ==> HeldByHeard(s, x.1))
    && (forall c {:trigger Here(s, c)} :: Here(s, c) && s.conns[c].client.voiceReady ==>
          Authenticated(s, s.conns[c].handler.token))
  }

  /** Authenticated sessions have an address, and index entries come from authentications. */
  ghost predicate AddressInv(s: State)
  {
    && (forall id :: id in s.relay.sessions && Authenticated(s, s.relay.sessions[id].token) ==>
          s.relay.sessions[id].udpAddress.Some?)
    && (forall a :: a in s.relay.index ==>
          s.relay.index[a] in s.conns && (a, s.conns[s.relay.index[a]].handler.token) in s.auths)
  }

  lemma RelayAuthKeepsAuths(s: State, s': State, src: Address, id: u64)
    requires InPlaceRegistered(s) && LivesInv(s) && AuthInv(s) && RelayAuth(s, s', src, id)
    ensures AuthInv(s')
  {
    SessionKnown(s, id);
    assert forall c :: Heard(s', c) == Heard(s, c);
    forall x | x in s'.auths
      ensures HeldByHeard(s', x.1)
    {
      if x in s.auths {
        assert HeldByHeard(s, x.1);
      }
    }
    forall c | Here(s', c) && s'.conns[c].client.voiceReady
      ensures Authenticated(s', s'.conns[c].handler.token)
    {
      assert Here(s, c);
    }
  }

  lemma RelayAuthKeepsAddresses(s: State, s': State, src: Address, id: u64)
    requires RegistrationInv(s) && LivesInv(s) && AddressInv(s) && RelayAuth(s, s', src, id)
    ensures AddressInv(s')
  {
    SessionKnown(s, id);
    forall i | i in s'.relay.sessions && Authenticated(s', s'.relay.sessions[i].token)
      ensures s'.relay.sessions[i].udpAddress.Some?
    {
      if i != id {
        SessionKnown(s, i);
        var a :| (a, s'.relay.sessions[i].token) in s'.auths;
        assert (a, s.relay.sessions[i].token) in s.auths;
      }
    }
  }

  lemma RelayEventKeepsAuths(s: State, s': State)
    requires SessionInv(s) && AuthInv(s) && RelayEvent(s, s')
    ensures AuthInv(s')
  {
    forall x | x in s'.auths
      ensures HeldByHeard(s', x.1)
    {
      assert HeldByHeard(s, x.1);
      var c :| c in s.conns && s.conns[c].handler.token == x.1 && Heard(s, c) != Unborn;
      HeardNext(s, s', c);
    }
    forall c | Here(s', c) && s'.conns[c].client.voiceReady
      ensures Authenticated(s', s'.conns[c].handler.token)
    {
      assert Here(s, c);
    }
  }

  /** A connection that the relay hears of for the first time is not authenticated yet. */
  lemma NewIsUnauthenticated(s: State, s': State)
    requires RegistrationInv(s) && RegistrationInv(s') && LivesInv(s) && LivesInv(s') && AuthInv(s) && RelayEvent(s, s')
    requires s.events[s.handled].UserConnected?
    ensures !Authenticated(s, s.events[s.handled].token)
  {
    var e := s.events[s.handled];
    HeardNext(s, s', e.id);
    HeardContinues(s', e.id);
    SessionToken(s', e.id);
    assert !HeldByHeard(s, e.token);
  }

  lemma RelayEventKeepsAddresses(s: State, s': State)
    requires RegistrationInv(s) && RegistrationInv(s') && LivesInv(s) && LivesInv(s') && AuthInv(s)
    requires AddressInv(s) && RelayEvent(s, s')
    ensures AddressInv(s')
  {
    var e := s.events[s.handled];
    if e.UserConnected? {
      NewIsUnauthenticated(s, s');
    }
    forall i | i in s'.relay.sessions && Authenticated(s', s'.relay.sessions[i].token)
      ensures s'.relay.sessions[i].udpAddress.Some?
    {
      assert Authenticated(s, s'.relay.sessions[i].token);
    }
  }

  /** The relay's address book when others act. */
  lemma OtherStepKeepsAuths(s: State, s': State, step: Step)
    requires RegistrationInv(s) && SessionInv(s) && AuthInv(s) && AddressInv(s) && NextBy(s, s', step) && !ByRelay(step)
    ensures AuthInv(s') && AddressInv(s')
  {
    EventsGrow(s, s', step);
    ConnsKeepTokens(s, s', step);
    forall x | x in s'.auths
      ensures HeldByHeard(s', x.1)
    {
      assert HeldByHeard(s, x.1);
      var c :| c in s.conns && s.conns[c].handler.token == x.1 && Heard(s, c) != Unborn;
      HeardSame(s, s', c);
    }
    forall c | Here(s', c) && s'.conns[c].client.voiceReady
      ensures Authenticated(s', s'.conns[c].handler.token)
    {
      ReadyIsAuthenticated(s, s', step, c);
    }
    assert forall t :: Authenticated(s', t) <==> Authenticated(s, t);
  }

  lemma ConnsKeepTokens(s: State, s': State, step: Step)
    requires RegistrationInv(s) && NextBy(s, s', step)
    ensures forall c :: c in s.conns ==> c in s'.conns && s'.conns[c].handler.token == s.conns[c].handler.token
  {
    if OwnerOf(step).Some? {
      StepIsLocal(s, s', step);
    }
  }

  lemma ReadyIsAuthenticated(s: State, s': State, step: Step, c: u64)
    requires AuthInv(s) && NextBy(s, s', step) && !ByRelay(step) && c in s'.conns && s'.conns[c].client.voiceReady
    ensures Authenticated(s, s'.conns[c].handler.token)
  {
    if c in s.conns && s.conns[c].client.voiceReady {
      assert Here(s, c);
      if OwnerOf(step).Some? {
        StepIsLocal(s, s', step);
      }
    }
  }

  // All together

  ghost predicate RelayInv(s: State)
    requires InPlaceRegistered(s)
  {
    LivesInv(s) && AuthInv(s) && AddressInv(s)
  }

  lemma RelayInit(s: State)
    requires Init(s)
    ensures RegistrationInv(s) && RelayInv(s)
  {
  }

  lemma RelayInvStep(s: State, s': State, step: Step)
    requires Base(s) && Base(s') && RelayInv(s) && NextBy(s, s', step)
    ensures RelayInv(s')
  {
    LivesStep(s, s', step);
    if step.RelayEventStep? {
      RelayEventKeepsAuths(s, s');
      RelayEventKeepsAddresses(s, s');
    } else if step.RelayAuthStep? {
      RelayAuthKeepsAuths(s, s', step.a, step.id);
      RelayAuthKeepsAddresses(s, s', step.a, step.id);
    } else {
      OtherStepKeepsAuths(s, s', step);
    }
  }
}
