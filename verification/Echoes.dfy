/** Nobody is told about their own doings: a client receives no event that is about its own user. */
module Echoes {
  import opened Bytes
  import opened Packets
  import opened Replica
  import opened Management
  import opened System
  import opened Registration
  import opened Progress
  import opened Invariants

  /** A message that concerns user `c` is not passed on to the address `a`. */
  predicate Spares(c: u64, a: Address, m: BroadcastMessage)
  {
    Concerns(m.packet, c) ==> m.exclude == Some(a)
  }

  ghost predicate NoEcho(c: u64, k: Conn, channel: seq<BroadcastMessage>)
  {
    var h := k.handler;
    && (forall i :: 0 <= i < |k.down| && Concerns(k.down[i], c) ==> k.down[i].LoginResponse?)
    && (h.phase.Serving? ==>
          && (forall i :: h.cursor <= i < |channel| ==> Spares(c, h.address, channel[i]))
          && forall i :: 0 <= i < |h.todo| && h.todo[i].Broadcast? ==> Spares(c, h.address, h.todo[i].message))
    && forall i :: 0 <= i < |h.todo| && h.todo[i].Reply? && Concerns(h.todo[i].packet, c) ==>
         h.todo[i].packet.LoginResponse?
  }

  lemma BeginSpares(users: Users, a: Address, p: Packet, now: u64, c: u64)
    requires a in users
    ensures forall x :: x in Begin(users, a, p, now).todo ==>
      && (x.Broadcast? ==> Spares(c, a, x.message))
      && (x.Reply? && Concerns(x.packet, c) ==> x.packet.LoginResponse?)
  {
  }

  lemma ReadNoEcho(s: State, s': State, c: u64, now: u64)
    requires Base(s) && Read(s, s', c, now) && NoEcho(c, s.conns[c], s.channel)
    ensures c in s'.conns && NoEcho(c, s'.conns[c], s'.channel)
  {
    assert EntryInPlace(s, c);
    BeginSpares(s.users, s.conns[c].handler.address, s.conns[c].up[0], now, c);
  }

  lemma PerformNoEcho(s: State, s': State, c: u64)
    requires Perform(s, s', c) && NoEcho(c, s.conns[c], s.channel)
    ensures c in s'.conns && NoEcho(c, s'.conns[c], s'.channel)
  {
  }

  /** What another handler broadcasts is not about `c`. */
  lemma OthersNoEcho(s: State, s': State, step: Step, c: u64)
    requires Base(s) && NextBy(s, s', step) && OwnerOf(step) != Some(c) && c in s.conns && c in s'.conns
    requires s'.conns[c] == s.conns[c] && NoEcho(c, s.conns[c], s.channel)
    ensures NoEcho(c, s'.conns[c], s'.channel)
  {
    if step.PerformStep? && s.conns[step.c].handler.todo[0].Broadcast? {
      var m := s.conns[step.c].handler.todo[0].message;
      OwnFacts(s, step.c);
      assert ActionOk(step.c, s.conns[step.c].handler, s.conns[step.c].handler.todo[0]);
      MoreNoEcho(c, s.conns[c], s.channel, m);
      return;
    }
    SameChannel(s, s', step);
  }

  lemma MoreNoEcho(c: u64, k: Conn, channel: seq<BroadcastMessage>, m: BroadcastMessage)
    requires NoEcho(c, k, channel) && !Concerns(m.packet, c)
    ensures NoEcho(c, k, channel + [m])
  {
  }

  lemma SameChannel(s: State, s': State, step: Step)
    requires NextBy(s, s', step) && !(step.PerformStep? && s.conns[step.c].handler.todo[0].Broadcast?)
    ensures s'.channel == s.channel
  {
  }

  lemma ForwardNoEcho(s: State, s': State, c: u64)
    requires Forward(s, s', c) && NoEcho(c, s.conns[c], s.channel)
    ensures c in s'.conns && NoEcho(c, s'.conns[c], s'.channel)
  {
    var h := s.conns[c].handler;
    assert Spares(c, h.address, s.channel[h.cursor]);
  }

  lemma OtherNoEcho(s: State, s': State, step: Step, c: u64)
    requires NextBy(s, s', step) && OwnerOf(step) == Some(c) && c in s.conns && NoEcho(c, s.conns[c], s.channel)
    requires !step.ReadStep? && !step.PerformStep? && !step.ForwardStep?
    ensures c in s'.conns && NoEcho(c, s'.conns[c], s'.channel)
  {
  }

  lemma OwnNoEcho(s: State, s': State, step: Step, c: u64)
    requires Base(s) && NextBy(s, s', step) && OwnerOf(step) == Some(c) && c in s.conns
    requires NoEcho(c, s.conns[c], s.channel)
    ensures c in s'.conns && NoEcho(c, s'.conns[c], s'.channel)
  {
    if step.ReadStep? {
      ReadNoEcho(s, s', c, step.now);
      return;
    }
    if step.PerformStep? {
      PerformNoEcho(s, s', c);
      return;
    }
    if step.ForwardStep? {
      ForwardNoEcho(s, s', c);
      return;
    }
    OtherNoEcho(s, s', step, c);
  }

  ghost predicate EchoBase(s: State)
  {
    && Base(s)
    && forall c {:trigger Here(s, c)} :: Here(s, c) ==> NoEcho(c, s.conns[c], s.channel)
  }

  lemma StaysQuiet(s: State, s': State, step: Step, c: u64)
    requires EchoBase(s) && NextBy(s, s', step) && c in s.conns
    ensures c in s'.conns && NoEcho(c, s'.conns[c], s'.channel)
  {
    assert Here(s, c);
    if OwnerOf(step) == Some(c) {
      OwnNoEcho(s, s', step, c);
      return;
    }
    if OwnerOf(step).Some? {
      StepIsLocal(s, s', step);
    }
    OthersNoEcho(s, s', step, c);
  }

  lemma EchoStep(s: State, s': State, step: Step)
    requires EchoBase(s) && NextBy(s, s', step)
    ensures EchoBase(s')
  {
    BaseStep(s, s', step);
    forall c | Here(s', c)
      ensures NoEcho(c, s'.conns[c], s'.channel)
    {
      if c in s.conns {
        StaysQuiet(s, s', step, c);
      } else {
        NewIsQuiet(s, s', step, c);
      }
    }
  }

  lemma NewIsQuiet(s: State, s': State, step: Step, c: u64)
    requires NextBy(s, s', step) && c in s'.conns && c !in s.conns
    ensures NoEcho(c, s'.conns[c], s'.channel)
  {
  }

  lemma ReachableEcho(s: State)
    requires Reachable(s)
    ensures EchoBase(s)
  {
    forall x, y, step | EchoBase(x) && NextBy(x, y, step)
      ensures EchoBase(y)
    {
      EchoStep(x, y, step);
    }
    HoldsWhenReachable(s, EchoBase);
  }

  /** No echo. In every reachable state nothing on its way to a client tells of its own user's login, joining, leaving,
      muting or departure. */
  lemma NobodyIsToldOfThemselves(s: State, c: u64, i: nat)
    requires Reachable(s) && c in s.conns && i < |s.conns[c].down|
    ensures var p := s.conns[c].down[i];
      && (p.UserJoinedServer? ==> p.participant.userId != c)
      && (p.UserJoinedVoice? || p.UserLeftVoice? || p.UserLeftServer? || p.UserMuteState? ==> p.userId != c)
  {
    StaysUntold(s, c);
    NotAbout(c, s.conns[c], s.channel, i);
  }

  lemma StaysUntold(s: State, c: u64)
    requires Reachable(s) && c in s.conns
    ensures NoEcho(c, s.conns[c], s.channel)
  {
    ReachableEcho(s);
    assert Here(s, c);
  }

  lemma NotAbout(c: u64, k: Conn, channel: seq<BroadcastMessage>, i: nat)
    requires NoEcho(c, k, channel) && i < |k.down|
    ensures k.down[i].LoginResponse? || !Concerns(k.down[i], c)
  {
  }
}
