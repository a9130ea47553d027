/** When every user in voice has an address to send to: exactly as long as the relay handles no joining of a
    user without one, and so whenever clients join only after voice authentication. */
module VoiceAddresses {
  import opened Bytes
  import opened Sequences
  import opened Packets
  import opened Management
  import opened RelayState
  import opened System
  import opened Registration
  import opened Progress
  import opened Invariants
  import opened Presence
  import opened Lifecycle
  import opened RelaySafety
  import opened RelayTheorems

  // Exactly when

  /** If the step handles the joining of a user, the user has an address. */
  predicate StepFindsAddress(s: State, step: Step)
  {
    step.RelayEventStep? && s.handled < |s.events| ==> FindsAddress(s.relay, s.events[s.handled])
  }

  ghost predicate JoinsFindAddresses(run: seq<State>, steps: seq<Step>)
    requires RunBy(run, steps)
  {
    forall i :: 0 <= i < |steps| ==> StepFindsAddress(run[i], steps[i])
  }

  lemma StepKeepsAddressed(s: State, s': State, step: Step)
    requires NextBy(s, s', step) && Addressed(s.relay)
    ensures Addressed(s'.relay) <==> StepFindsAddress(s, step)
  {
    if step.RelayEventStep? {
      EventKeepsAddressed(s.relay, s.events[s.handled], s'.relay);
    } else if !step.RelayAuthStep? {
      EventsGrow(s, s', step);
    }
  }

  lemma {:induction false} AddressedSoFar(run: seq<State>, steps: seq<Step>, i: nat)
    requires RunBy(run, steps) && Init(run[0]) && JoinsFindAddresses(run, steps) && i < |run|
    ensures Addressed(run[i].relay)
    decreases i
  {
    if i > 0 {
      AddressedSoFar(run, steps, i - 1);
      assert Taken(run, steps, i - 1);
      StepKeepsAddressed(run[i - 1], run[i], steps[i - 1]);
    }
  }

  /** Throughout a run every user in voice has an address if and only if every joining that the relay handles
      is that of a user with an address. */
  lemma AddressAgreement(run: seq<State>, steps: seq<Step>)
    requires RunBy(run, steps) && Init(run[0])
    ensures (forall i :: 0 <= i < |run| ==> Addressed(run[i].relay)) <==> JoinsFindAddresses(run, steps)
  {
    if JoinsFindAddresses(run, steps) {
      forall i | 0 <= i < |run|
        ensures Addressed(run[i].relay)
      {
        AddressedSoFar(run, steps, i);
      }
    } else {
      var i :| 0 <= i < |steps| && !StepFindsAddress(run[i], steps[i]);
      assert Taken(run, steps, i);
      if Addressed(run[i].relay) {
        StepKeepsAddressed(run[i], run[i + 1], steps[i]);
      }
    }
  }

  // Clients that authenticate first

  predicate NoJoin(ps: seq<Packet>)
  {
    forall i :: 0 <= i < |ps| ==> !ps[i].JoinVoiceChannelRequest?
  }

  /** Nothing of a join is under way before the client is authenticated for voice. */
  predicate JoinsReady(c: u64, k: Conn, events: seq<Event>)
  {
    k.client.voiceReady || (NoJoin(k.up) && VoiceJoined(c) !in events + OwedEvents(k.handler.todo))
  }

  ghost predicate JoinInv(s: State)
  {
    forall c {:trigger Here(s, c)} :: Here(s, c) ==> JoinsReady(c, s.conns[c], s.events)
  }

  /** Only a join request leads to a join event. */
  lemma BeginJoins(users: Users, a: Address, p: Packet, now: u64, c: u64)
    requires !p.JoinVoiceChannelRequest?
    ensures VoiceJoined(c) !in OwedEvents(Begin(users, a, p, now).todo)
  {
    UnrollEvents(Begin(users, a, p, now).todo);
  }

  lemma ReadJoins(s: State, s': State, d: u64, now: u64)
    requires Read(s, s', d, now) && JoinsReady(d, s.conns[d], s.events)
    ensures JoinsReady(d, s'.conns[d], s'.events)
  {
    if !s.conns[d].client.voiceReady {
      BeginJoins(s.users, s.conns[d].handler.address, s.conns[d].up[0], now, d);
    }
  }

  lemma PerformJoins(s: State, s': State, d: u64)
    requires Perform(s, s', d) && JoinsReady(d, s.conns[d], s.events)
    ensures JoinsReady(d, s'.conns[d], s'.events)
  {
    var todo := s.conns[d].handler.todo;
    if todo[0].Emit? {
      Assoc(s.events, [todo[0].event], OwedEvents(todo[1..]));
    }
    assert s'.events + OwedEvents(todo[1..]) == s.events + OwedEvents(todo);
  }

  lemma LeavingJoins(s: State, s': State, d: u64)
    requires Hangup(s, s', d) || WriteFails(s, s', d)
    requires JoinsReady(d, s.conns[d], s.events)
    ensures d in s'.conns && JoinsReady(d, s'.conns[d], s'.events)
  {
    UnrollEvents(s'.conns[d].handler.todo);
  }

  /** A client sends join requests only once it is authenticated with the relay. */
  predicate AuthenticatesFirst(s: State, step: Step)
  {
    step.SendStep? && step.p.JoinVoiceChannelRequest? && step.c in s.conns ==> s.conns[step.c].client.voiceReady
  }

  lemma OwnJoins(s: State, s': State, step: Step)
    requires NextBy(s, s', step) && OwnerOf(step).Some? && AuthenticatesFirst(s, step)
    requires OwnerOf(step).value in s.conns && JoinsReady(OwnerOf(step).value, s.conns[OwnerOf(step).value], s.events)
    ensures var d := OwnerOf(step).value; d in s'.conns && JoinsReady(d, s'.conns[d], s'.events)
  {
    var d := OwnerOf(step).value;
    if step.ReadStep? {
      ReadJoins(s, s', d, step.now);
    } else if step.PerformStep? {
      PerformJoins(s, s', d);
    } else if step.HangupStep? || step.WriteFailsStep? {
      LeavingJoins(s, s', d);
    }
  }

  lemma OthersJoins(c: u64, k: Conn, events: seq<Event>, e: Event)
    requires JoinsReady(c, k, events) && e.id != c
    ensures JoinsReady(c, k, events + [e])
  {
  }

  lemma EventsOfOwner(s: State, s': State, step: Step)
    requires NextBy(s, s', step) && OwnerOf(step).Some? && OwnerOf(step).value in s.conns
    requires TodoInv(OwnerOf(step).value, s.conns[OwnerOf(step).value].handler)
    ensures s'.events == s.events || exists e: Event :: e.id == OwnerOf(step).value && s'.events == s.events + [e]
  {
    var h := s.conns[OwnerOf(step).value].handler;
    if s'.events != s.events {
      assert step.PerformStep? && h.todo[0].Emit?;
      assert ActionOk(OwnerOf(step).value, h, h.todo[0]);
      assert s'.events == s.events + [h.todo[0].event];
    }
  }

  lemma LocalKeepsJoins(s: State, s': State, step: Step)
    requires Base(s) && JoinInv(s) && NextBy(s, s', step) && OwnerOf(step).Some? && AuthenticatesFirst(s, step)
    ensures JoinInv(s')
  {
    var d := OwnerOf(step).value;
    StepIsLocal(s, s', step);
    OwnFacts(s, d);
    EventsOfOwner(s, s', step);
    forall c | Here(s', c)
      ensures JoinsReady(c, s'.conns[c], s'.events)
    {
      assert Here(s, c);
      if c == d {
        OwnJoins(s, s', step);
      } else if s'.events != s.events {
        var e: Event :| e.id == d && s'.events == s.events + [e];
        OthersJoins(c, s.conns[c], s.events, e);
      }
    }
  }

  /** No event is about a connection that does not exist yet. */
  lemma NoEarlyEvents(s: State, u: u64)
    requires InPlaceRegistered(s) && LifeInv(s) && u !in s.conns
    ensures VoiceJoined(u) !in s.events
  {
    assert Whom(s, u);
    assert s.events + [] == s.events;
    UnbornIsSilent(u, s.events);
  }

  lemma {:induction false} UnbornIsSilent(u: u64, events: seq<Event>)
    requires LifeOf(u, Unborn, events) == Unborn
    ensures forall e :: e in events ==> e.id != u
    decreases |events|
  {
    if events != [] {
      var next := LifeStep(u, Unborn, events[0]);
      if next == Broken {
        NeverMended(u, events[1..]);
      } else if next.Live? {
        StaysBorn(u, next, events[1..]);
      }
      UnbornIsSilent(u, events[1..]);
    }
  }

  lemma AcceptKeepsJoins(s: State, s': State, a: Address, token: u64)
    requires RegistrationInv(s) && LifeInv(s) && JoinInv(s) && Accept(s, s', a, token)
    ensures JoinInv(s')
  {
    forall c | Here(s', c)
      ensures JoinsReady(c, s'.conns[c], s'.events)
    {
      if c == s.nextId {
        NoEarlyEvents(s, c);
        UnrollEvents(s'.conns[c].handler.todo);
      } else {
        assert Here(s, c);
      }
    }
  }

  lemma JoinStep(s: State, s': State, step: Step)
    requires Base(s) && LifeInv(s) && JoinInv(s) && NextBy(s, s', step) && AuthenticatesFirst(s, step)
    ensures JoinInv(s')
  {
    if OwnerOf(step).Some? {
      LocalKeepsJoins(s, s', step);
    } else if step.AcceptStep? {
      AcceptKeepsJoins(s, s', step.a, step.token);
    } else {
      forall c | Here(s', c)
        ensures JoinsReady(c, s'.conns[c], s'.events)
      {
        assert Here(s, c);
      }
    }
  }

  /** The clients follow the SDK and the desktop client in the order of authenticating and joining. */
  ghost predicate Ordered(run: seq<State>, steps: seq<Step>)
    requires RunBy(run, steps)
  {
    forall i :: 0 <= i < |steps| ==> AuthenticatesFirst(run[i], steps[i])
  }

  lemma {:induction false} OrderedKeepsJoins(run: seq<State>, steps: seq<Step>, i: nat)
    requires RunBy(run, steps) && Init(run[0]) && Ordered(run, steps) && i < |run|
    ensures JoinInv(run[i])
    decreases i
  {
    if i > 0 {
      OrderedKeepsJoins(run, steps, i - 1);
      RunByIsRun(run, steps);
      RunInvariant(run, i - 1);
      assert Taken(run, steps, i - 1);
      JoinStep(run[i - 1], run[i], steps[i - 1]);
    }
  }

  /** A user whose joining the relay is about to handle has been authenticated. */
  lemma JoinFindsAddress(s: State, step: Step)
    requires Base(s) && RelayInv(s) && JoinInv(s)
    ensures StepFindsAddress(s, step)
  {
    if step.RelayEventStep? && s.handled < |s.events| {
      var e := s.events[s.handled];
      if e.VoiceJoined? && e.id in s.relay.sessions {
        SessionKnown(s, e.id);
        assert Here(s, e.id);
        assert JoinsReady(e.id, s.conns[e.id], s.events);
        assert e in s.events + OwedEvents(s.conns[e.id].handler.todo);
      }
    }
  }

  /** If clients join voice only after voice authentication, every joining finds its user's address. */
  lemma OrderedJoinsFindAddresses(run: seq<State>, steps: seq<Step>)
    requires RunBy(run, steps) && Init(run[0]) && Ordered(run, steps)
    ensures JoinsFindAddresses(run, steps)
  {
    forall i | 0 <= i < |steps|
      ensures StepFindsAddress(run[i], steps[i])
    {
      OrderedKeepsJoins(run, steps, i);
      RunByIsRun(run, steps);
      RunInvariant(run, i);
      JoinFindsAddress(run[i], steps[i]);
    }
  }

  /** Voice data can always be sent: in a run with authentication before joining, every user who is in voice has an
      address in every state. */
  lemma RecipientsHaveAddresses(run: seq<State>, steps: seq<Step>, i: nat, id: u64)
    requires RunBy(run, steps) && Init(run[0]) && Ordered(run, steps) && i < |run|
    requires id in run[i].relay.sessions && run[i].relay.sessions[id].inVoice
    ensures run[i].relay.sessions[id].udpAddress.Some?
  {
    OrderedJoinsFindAddresses(run, steps);
    AddressedSoFar(run, steps, i);
  }
}
