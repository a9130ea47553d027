/** What holds between the relay and the management server in every reachable state. */
module RelayTheorems {
  import opened Bytes
  import opened Management
  import opened RelayState
  import opened System
  import opened Registration
  import opened Invariants
  import opened Presence
  import opened Lifecycle
  import opened RelaySafety

  ghost predicate RelayBase(s: State)
  {
    Base(s) && RelayInv(s)
  }

  lemma RelayBaseKept()
    ensures Kept(RelayBase) && forall s :: Init(s) ==> RelayBase(s)
  {
    forall s | Init(s)
      ensures RelayBase(s)
    {
      RelayInit(s);
    }
    forall s, s', step | RelayBase(s) && NextBy(s, s', step)
      ensures RelayBase(s')
    {
      BaseStep(s, s', step);
      RelayInvStep(s, s', step);
    }
  }

  lemma RunInvariant(run: seq<State>, i: nat)
    requires IsRun(run) && Init(run[0]) && i < |run|
    ensures RelayBase(run[i])
  {
    RelayBaseKept();
    KeptAlong(run, i, RelayBase);
  }

  lemma ReachableInvariant(s: State)
    requires Reachable(s)
    ensures RelayBase(s)
  {
    RelayBaseKept();
    HoldsWhenReachable(s, RelayBase);
  }

  // The sessions follow the connections

  /** `pending` holds the events that the handlers still owe, each handler's in its own order. */
  ghost predicate EventsPending(s: State, pending: seq<Event>)
  {
    forall u {:trigger OwedToRelay(s, u)} :: About(u, pending) == About(u, OwedToRelay(s, u))
  }

  /** The sessions are the connections that nobody has begun to tear down, with their tokens and voice flags.
      Those of handlers that have panicked are among them. */
  ghost predicate Mirrors(sessions: map<u64, Session>, s: State)
  {
    && (forall u :: u in sessions <==> u in s.conns && InPlace(s.conns[u].handler.phase))
    && (forall u :: u in sessions ==>
          && s.conns[u].handler.address in s.users
          && sessions[u].token == s.conns[u].handler.token
          && sessions[u].inVoice == s.users[s.conns[u].handler.address].inVoice)
  }

  lemma SessionFollows(s: State, pending: seq<Event>, u: u64)
    requires InPlaceRegistered(s) && LivesInv(s) && EventsPending(s, pending)
    ensures SessionMatches(OnEvents(s.relay.sessions, s.events[s.handled..] + pending), u, Now(s, u))
  {
    assert Whom(s, u);
    var queue, owed := s.events[s.handled..], OwedToRelay(s, u);
    LifeAppend(u, Heard(s, u), queue, pending);
    LifeAppend(u, Heard(s, u), queue, owed);
    LifeOfAbout(u, LifeOf(u, Heard(s, u), queue), pending);
    LifeOfAbout(u, LifeOf(u, Heard(s, u), queue), owed);
    HeardContinues(s, u);
    OnEventsMatch(s.relay.sessions, u, Heard(s, u), queue + pending);
  }

  /** Relay simulation. In every reachable state, handling the queued events and then those owed by
      handlers in the middle of a request makes the relay's sessions mirror the management server. */
  lemma RelaySimulation(s: State, pending: seq<Event>)
    requires Reachable(s) && EventsPending(s, pending)
    ensures s.handled <= |s.events|
    ensures Mirrors(OnEvents(s.relay.sessions, s.events[s.handled..] + pending), s)
  {
    ReachableInvariant(s);
    var m := OnEvents(s.relay.sessions, s.events[s.handled..] + pending);
    forall u: u64
      ensures u in m <==> u in s.conns && InPlace(s.conns[u].handler.phase)
      ensures u in m ==>
        && s.conns[u].handler.address in s.users && m[u].token == s.conns[u].handler.token
        && m[u].inVoice == s.users[s.conns[u].handler.address].inVoice
    {
      SessionFollows(s, pending, u);
      if u in s.conns && InPlace(s.conns[u].handler.phase) {
        assert Registered(s, u);
      }
    }
  }

  /** With nothing queued and nothing owed, the sessions are right as they stand. */
  lemma IdleRelayIsRight(s: State)
    requires Reachable(s) && s.handled == |s.events|
    requires forall u :: u in s.conns ==> OwedToRelay(s, u) == []
    ensures Mirrors(s.relay.sessions, s)
  {
    RelaySimulation(s, []);
  }

  // Sessions that leak

  ghost predicate HasCrashed(s: State, u: u64)
  {
    RegistrationInv(s) && u in s.conns && s.conns[u].handler.phase.Crashed?
  }

  lemma CrashedStep(s: State, s': State, step: Step, u: u64)
    requires HasCrashed(s, u) && NextBy(s, s', step)
    ensures HasCrashed(s', u)
  {
    RegistrationStep(s, s', step);
    if OwnerOf(step).Some? {
      StepIsLocal(s, s', step);
    }
  }

  lemma CrashedStays(run: seq<State>, i: nat, j: nat, u: u64)
    requires IsRun(run) && i <= j < |run| && HasCrashed(run[i], u)
    ensures HasCrashed(run[j], u)
  {
    forall s, s', step | HasCrashed(s, u) && NextBy(s, s', step)
      ensures HasCrashed(s', u)
    {
      CrashedStep(s, s', step, u);
    }
    KeptAlong(run[i..], j - i, s => HasCrashed(s, u));
  }

  /** The relay never hears of the end of a handler that has panicked. */
  lemma CrashedIsLive(s: State, u: u64)
    requires RelayBase(s) && u in s.conns && s.conns[u].handler.phase.Crashed?
    ensures UserDisconnected(u) !in s.events
    ensures Heard(s, u).Live? || Heard(s, u) == Unborn
  {
    HeardContinues(s, u);
    if Heard(s, u).Dead? {
      DeadStays(u, Heard(s, u), s.events[s.handled..] + OwedToRelay(s, u));
    }
    if UserDisconnected(u) in s.events {
      assert Whom(s, u);
      var k :| 0 <= k < |s.events| && s.events[k] == UserDisconnected(u);
      DisconnectIsFinal(u, s.events + OwedToRelay(s, u), k);
    }
  }

  lemma HeardLater(s: State, t: State, u: u64)
    requires Grows(s, t) && s.handled <= |s.events| && t.handled <= |t.events|
    ensures Heard(t, u) == LifeOf(u, Heard(s, u), t.events[s.handled..t.handled])
  {
    var before, more := s.events[..s.handled], t.events[s.handled..t.handled];
    assert before == t.events[..|s.events|][..s.handled];
    assert t.events[..t.handled] == before + more;
    LifeAppend(u, Unborn, before, more);
  }

  /** The session of a handler that has panicked is there in every later state of every run, and its end is
      never reported. */
  lemma SessionLeaks(run: seq<State>, i: nat, j: nat, u: u64)
    requires IsRun(run) && Init(run[0]) && i <= j < |run|
    requires u in run[i].conns && run[i].conns[u].handler.phase.Crashed? && u in run[i].relay.sessions
    ensures u in run[j].relay.sessions && UserDisconnected(u) !in run[j].events
  {
    RunInvariant(run, i);
    RunInvariant(run, j);
    CrashedStays(run, i, j, u);
    LogGrows(run, i, j - i);
    SessionKnown(run[i], u);
    HeardLater(run[i], run[j], u);
    StaysBorn(u, Heard(run[i], u), run[j].events[run[i].handled..run[j].handled]);
    CrashedIsLive(run[j], u);
    assert Whom(run[j], u);
  }

  /** With nothing queued or owed, the sessions without a running handler are exactly those of handlers that
      have panicked. */
  lemma WhichSessionsLeak(s: State, u: u64)
    requires Reachable(s) && s.handled == |s.events|
    requires forall c :: c in s.conns ==> OwedToRelay(s, c) == []
    ensures u in s.relay.sessions && !(u in s.conns && Running(s.conns[u].handler.phase))
       <==> u in s.conns && s.conns[u].handler.phase.Crashed?
  {
    IdleRelayIsRight(s);
  }

  // The order of events

  lemma {:induction false} AboutIsAbout(u: u64, events: seq<Event>)
    ensures forall i :: 0 <= i < |About(u, events)| ==> About(u, events)[i].id == u && About(u, events)[i] in events
    decreases |events|
  {
    if events != [] {
      AboutIsAbout(u, events[1..]);
    }
  }

  /** The events of each user: one connection with the connection's token, then joins and leaves, then at
      most one disconnection, and that only when the connection is being torn down. */
  lemma EventDiscipline(s: State, u: u64)
    requires Reachable(s)
    ensures Disciplined(About(u, s.events))
    ensures About(u, s.events) != [] ==>
      u in s.conns && About(u, s.events)[0] == UserConnected(u, s.conns[u].handler.token)
    ensures UserDisconnected(u) in s.events ==> u in s.conns && !InPlace(s.conns[u].handler.phase)
  {
    ReachableInvariant(s);
    assert Whom(s, u);
    var log := About(u, s.events);
    AboutIsAbout(u, s.events);
    LifeOfAbout(u, Unborn, s.events);
    LifeAppend(u, Unborn, s.events, OwedToRelay(s, u));
    if LifeOf(u, Unborn, s.events) == Broken {
      NeverMended(u, OwedToRelay(s, u));
    }
    UnbrokenMeansDisciplined(u, log);
    if log != [] {
      var first := LifeStep(u, Unborn, log[0]);
      if LifeOf(u, first, log[1..]) != Broken {
        TokenKept(u, first, log[1..]);
        TokenKept(u, LifeOf(u, Unborn, s.events), OwedToRelay(s, u));
      }
    }
    if UserDisconnected(u) in s.events {
      var k :| 0 <= k < |s.events| && s.events[k] == UserDisconnected(u);
      DisconnectIsFinal(u, s.events + OwedToRelay(s, u), k);
    }
  }

  lemma {:induction false} DeadStays(u: u64, l: Life, events: seq<Event>)
    requires l.Dead? || l == Broken
    ensures LifeOf(u, l, events) == l || LifeOf(u, l, events) == Broken
    decreases |events|
  {
    if events != [] {
      DeadStays(u, LifeStep(u, l, events[0]), events[1..]);
    }
  }

  lemma DisconnectIsFinal(u: u64, log: seq<Event>, k: nat)
    requires k < |log| && log[k] == UserDisconnected(u) && LifeOf(u, Unborn, log) != Broken
    ensures LifeOf(u, Unborn, log).Dead?
  {
    assert log == log[..k] + log[k..];
    LifeAppend(u, Unborn, log[..k], log[k..]);
    DeadStays(u, LifeStep(u, LifeOf(u, Unborn, log[..k]), log[k]), log[k..][1..]);
  }

  /** From `s` to `s'` the relay's queue only grows at its end, and the relay moves on in it. */
  ghost predicate Grows(s: State, s': State)
  {
    s.handled <= s'.handled && |s.events| <= |s'.events| && s'.events[..|s.events|] == s.events
  }

  lemma StepGrows(s: State, s': State, step: Step)
    requires NextBy(s, s', step)
    ensures Grows(s, s')
  {
    if !ByRelay(step) {
      EventsGrow(s, s', step);
    }
  }

  lemma RunGrows(run: seq<State>, i: nat)
    requires IsRun(run) && i + 1 < |run|
    ensures Grows(run[i], run[i + 1])
  {
    var step :| NextBy(run[i], run[i + 1], step);
    StepGrows(run[i], run[i + 1], step);
  }

  lemma GrowsOn(s: State, s': State, s'': State)
    requires Grows(s, s') && Grows(s', s'')
    ensures Grows(s, s'')
  {
    assert s''.events[..|s.events|] == s''.events[..|s'.events|][..|s.events|];
  }

  lemma {:induction false} LogGrows(run: seq<State>, i: nat, n: nat)
    requires IsRun(run) && i + n < |run|
    ensures Grows(run[i], run[i + n])
    decreases n
  {
    if n > 0 {
      RunGrows(run, i);
      LogGrows(run, i + 1, n - 1);
      GrowsOn(run[i], run[i + 1], run[i + n]);
    }
  }

  /** No resurrection. Once the relay has handled the disconnection of user `u`, then in every later state
      of the run `u` has no session and is among the recipients of nobody's voice. */
  lemma NoResurrection(run: seq<State>, i: nat, k: nat, j: nat, u: u64)
    requires IsRun(run) && Init(run[0]) && i <= j < |run|
    requires k < run[i].handled && run[i].handled <= |run[i].events| && run[i].events[k] == UserDisconnected(u)
    ensures u !in run[j].relay.sessions
    ensures forall sender :: u !in Recipients(run[j].relay, sender)
  {
    RunInvariant(run, j);
    LogGrows(run, i, j - i);
    var s := run[j];
    assert s.events[k] == run[i].events[k] by {
      assert s.events[..|run[i].events|][k] == run[i].events[k];
    }
    assert Whom(s, u);
    HeardContinues(s, u);
    DisconnectIsFinal(u, s.events[..s.handled], k);
  }

  // Addresses

  /** Every index entry was made by an authentication from that address with that user's own token. */
  lemma IndexIsAuthenticated(s: State, a: Address)
    requires Reachable(s) && a in s.relay.index
    ensures var id := s.relay.index[a]; id in s.conns && (a, s.conns[id].handler.token) in s.auths
  {
    ReachableInvariant(s);
  }

  // The address index over whole runs

  predicate IsRegular(s: State, step: Step)
  {
    step.RelayAuthStep? && step.id in s.relay.sessions ==> Regular(s.relay, step.a, step.id)
  }

  /** Users authenticate from one address each, and no address serves two users at a time. */
  ghost predicate AllRegular(run: seq<State>, steps: seq<Step>)
    requires RunBy(run, steps)
  {
    forall i :: 0 <= i < |steps| ==> IsRegular(run[i], steps[i])
  }

  lemma EventStepKeepsIndex(s: State, s': State)
    requires InPlaceRegistered(s) && InPlaceRegistered(s') && LivesInv(s) && LivesInv(s')
    requires RelayEvent(s, s') && IndexExact(s.relay)
    ensures IndexExact(s'.relay)
  {
    var e := s.events[s.handled];
    assert Whom(s, e.id);
    HeardNext(s, s', e.id);
    HeardContinues(s', e.id);
    EventKeepsIndex(s.relay, e, s'.relay);
  }

  lemma StepKeepsIndex(s: State, s': State, step: Step)
    requires Base(s) && Base(s') && RelayInv(s) && RelayInv(s') && NextBy(s, s', step)
    requires IndexExact(s.relay) && IsRegular(s, step)
    ensures IndexExact(s'.relay)
  {
    if step.RelayEventStep? {
      EventStepKeepsIndex(s, s');
    } else if step.RelayAuthStep? {
      AuthenticateKeepsIndex(s.relay, step.a, step.id);
    } else {
      EventsGrow(s, s', step);
    }
  }

  lemma IndexStaysExact(run: seq<State>, steps: seq<Step>, i: nat)
    requires RunBy(run, steps) && Init(run[0]) && i < |steps|
    requires IndexExact(run[i].relay) && IsRegular(run[i], steps[i])
    ensures IndexExact(run[i + 1].relay)
  {
    RunByIsRun(run, steps);
    RunInvariant(run, i);
    RunInvariant(run, i + 1);
    assert Taken(run, steps, i);
    StepKeepsIndex(run[i], run[i + 1], steps[i]);
  }

  lemma {:induction false} RegularKeepsIndex(run: seq<State>, steps: seq<Step>, i: nat)
    requires RunBy(run, steps) && Init(run[0]) && AllRegular(run, steps) && i < |run|
    ensures IndexExact(run[i].relay)
    decreases i
  {
    if i > 0 {
      RegularKeepsIndex(run, steps, i - 1);
      IndexStaysExact(run, steps, i - 1);
    }
  }

  /** Address index agreement. Throughout a run the index is exactly the inverse of the sessions'
      addresses if and only if all authentications in the run are regular. */
  lemma IndexAgreement(run: seq<State>, steps: seq<Step>)
    requires RunBy(run, steps) && Init(run[0])
    ensures (forall i :: 0 <= i < |run| ==> IndexExact(run[i].relay)) <==> AllRegular(run, steps)
  {
    if AllRegular(run, steps) {
      forall i | 0 <= i < |run|
        ensures IndexExact(run[i].relay)
      {
        RegularKeepsIndex(run, steps, i);
      }
    } else {
      var i :| 0 <= i < |steps| && !IsRegular(run[i], steps[i]);
      assert Taken(run, steps, i);
      IrregularBreaksIndex(run[i], run[i + 1], steps[i]);
    }
  }

  lemma IrregularBreaksIndex(s: State, s': State, step: Step)
    requires NextBy(s, s', step) && !IsRegular(s, step)
    ensures !IndexExact(s.relay) || !IndexExact(s'.relay)
  {
    if IndexExact(s.relay) {
      AuthenticateKeepsIndex(s.relay, step.a, step.id);
    }
  }
}
