/** Which connection owns which user entry, and the shape of the work a handler has in progress. */
module Registration {
  import opened Bytes
  import opened Packets
  import opened Management
  import opened System

  /** The handler's task is running and has not begun to clean up. */
  predicate Running(p: Phase)
  {
    p.Starting? || p.Serving?
  }

  /** The user's entry and relay session are meant to be in place; a panic leaves them behind. */
  predicate InPlace(p: Phase)
  {
    Running(p) || p.Crashed?
  }

  /** The users map holds the entry of connection `c`. */
  ghost predicate Registered(s: State, c: u64)
  {
    && c in s.conns
    && s.conns[c].handler.address in s.users
    && s.users[s.conns[c].handler.address].id == c
  }

  predicate Unfinished(s: State, c: u64)
    requires c in s.conns
  {
    !s.conns[c].handler.phase.Gone?
  }

  ghost predicate IdsUsed(s: State)
  {
    1 <= s.nextId <= ID_LIMIT && forall c :: c in s.conns ==> c < s.nextId
  }

  /** Every user entry belongs to the connection at its address. */
  ghost predicate EntriesOwned(s: State)
  {
    forall a :: a in s.users ==> s.users[a].id in s.conns && s.conns[s.users[a].id].handler.address == a
  }

  /** The entry of connection `d` is in place, with the connection's token. */
  ghost predicate EntryInPlace(s: State, d: u64)
  {
    Registered(s, d) && s.users[s.conns[d].handler.address].token == s.conns[d].handler.token
  }

  ghost predicate InPlaceRegistered(s: State)
  {
    forall c :: c in s.conns && InPlace(s.conns[c].handler.phase) ==> EntryInPlace(s, c)
  }

  ghost predicate AddressesDistinct(s: State)
  {
    forall c, d :: c in s.conns && d in s.conns && c != d && Unfinished(s, c) && Unfinished(s, d) ==>
      s.conns[c].handler.address != s.conns[d].handler.address
  }

  ghost predicate TokensDistinct(s: State)
  {
    forall c, d :: c in s.conns && d in s.conns && c != d ==>
      s.conns[c].handler.token != s.conns[d].handler.token
  }

  /** Active connections are registered; addresses of unfinished handlers and tokens are distinct. */
  ghost predicate RegistrationInv(s: State)
  {
    IdsUsed(s) && EntriesOwned(s) && InPlaceRegistered(s) && AddressesDistinct(s) && TokensDistinct(s)
  }

  /** A step that touches only connection `c` and its user entry. */
  ghost predicate Local(s: State, s': State, c: u64)
  {
    && c in s.conns
    && s'.conns.Keys == s.conns.Keys
    && s'.nextId == s.nextId
    && (forall d :: d in s.conns && d != c ==> s'.conns[d] == s.conns[d])
    && var h, h' := s.conns[c].handler, s'.conns[c].handler;
       && h'.address == h.address && h'.token == h.token
       && (InPlace(h'.phase) ==> InPlace(h.phase))
       && (Running(h'.phase) ==> Running(h.phase))
       && (h.phase.Crashed? ==> h'.phase.Crashed?)
       && (h.phase.Gone? ==> h'.phase.Gone?)
       && (s'.users == s.users || h.phase.Serving?)
       && (forall b :: b != h.address ==>
             && (b in s'.users <==> b in s.users)
             && (b in s.users ==> s'.users[b] == s.users[b]))
       && (h.address in s'.users ==>
             && h.address in s.users
             && s'.users[h.address].id == s.users[h.address].id
             && s'.users[h.address].token == s.users[h.address].token)
       && (h.address in s.users && h.address !in s'.users ==> h.phase.Serving? && h'.phase.Leaving?)
  }

  /** The connection that a step belongs to, if any. */
  function OwnerOf(step: Step): Option<u64>
  {
    match step
    case AcceptStep(_, _) => None
    case RelayEventStep => None
    case RelayAuthStep(_, _) => None
    case SubscribeStep(c) => Some(c)
    case PerformStep(c) => Some(c)
    case ReadStep(c, _) => Some(c)
    case StartSnapshotStep(c) => Some(c)
    case VisitStep(c, _) => Some(c)
    case FinishSnapshotStep(c) => Some(c)
    case ForwardStep(c) => Some(c)
    case HangupStep(c) => Some(c)
    case WriteFailsStep(c) => Some(c)
    case FinishStep(c) => Some(c)
    case PanicStep(c) => Some(c)
    case DrawStep(c) => Some(c)
    case SendStep(c, _) => Some(c)
    case ReceiveStep(c) => Some(c)
    case LearnVoiceStep(c, _) => Some(c)
  }

  /** Steps of handlers on their work lists. */
  predicate Works(step: Step)
  {
    || step.PerformStep? || step.ReadStep? || step.StartSnapshotStep? || step.VisitStep? || step.FinishSnapshotStep?
  }

  lemma WorkIsLocal(s: State, s': State, step: Step)
    requires NextBy(s, s', step) && Works(step)
    ensures Local(s, s', step.c)
  {
    match step
    case PerformStep(c) =>
    case ReadStep(c, now) => ReadIsLocal(s, s', c, now);
    case StartSnapshotStep(c) =>
    case VisitStep(c, a) =>
    case FinishSnapshotStep(c) =>
  }

  /** Other steps of handlers. */
  predicate Moves(step: Step)
  {
    || step.SubscribeStep? || step.ForwardStep? || step.HangupStep? || step.WriteFailsStep? || step.FinishStep?
    || step.PanicStep?
  }

  lemma MoveIsLocal(s: State, s': State, step: Step)
    requires NextBy(s, s', step) && Moves(step)
    ensures Local(s, s', step.c)
  {
  }

  lemma StepIsLocal(s: State, s': State, step: Step)
    requires NextBy(s, s', step) && OwnerOf(step).Some?
    ensures Local(s, s', OwnerOf(step).value)
  {
    if Works(step) {
      WorkIsLocal(s, s', step);
    } else if Moves(step) {
      MoveIsLocal(s, s', step);
    }
  }

  lemma ReadIsLocal(s: State, s': State, c: u64, now: u64)
    requires Read(s, s', c, now)
    ensures Local(s, s', c)
  {
  }

  lemma OtherStaysInPlace(s: State, s': State, c: u64, d: u64)
    requires InPlaceRegistered(s) && AddressesDistinct(s) && Local(s, s', c) && d in s.conns && d != c
    requires InPlace(s.conns[d].handler.phase)
    ensures EntryInPlace(s', d)
  {
    assert EntryInPlace(s, d);
    if s'.users != s.users {
      assert Unfinished(s, c) && Unfinished(s, d);
    }
  }

  lemma LocalKeepsInPlace(s: State, s': State, c: u64)
    requires InPlaceRegistered(s) && AddressesDistinct(s) && Local(s, s', c)
    ensures InPlaceRegistered(s')
  {
    forall d | d in s'.conns && InPlace(s'.conns[d].handler.phase)
      ensures EntryInPlace(s', d)
    {
      if d == c {
        assert EntryInPlace(s, c);
      } else {
        OtherStaysInPlace(s, s', c, d);
      }
    }
  }

  lemma LocalKeepsOwners(s: State, s': State, c: u64)
    requires EntriesOwned(s) && Local(s, s', c)
    ensures EntriesOwned(s')
  {
  }

  lemma LocalKeepsDistinct(s: State, s': State, c: u64)
    requires AddressesDistinct(s) && TokensDistinct(s) && Local(s, s', c)
    ensures AddressesDistinct(s') && TokensDistinct(s')
  {
    forall d, e | d in s'.conns && e in s'.conns && d != e
      ensures s'.conns[d].handler.token != s'.conns[e].handler.token
      ensures Unfinished(s', d) && Unfinished(s', e) ==> s'.conns[d].handler.address != s'.conns[e].handler.address
    {
      assert Unfinished(s', d) ==> Unfinished(s, d);
      assert Unfinished(s', e) ==> Unfinished(s, e);
    }
  }

  lemma LocalKeepsRegistration(s: State, s': State, c: u64)
    requires RegistrationInv(s) && Local(s, s', c)
    ensures RegistrationInv(s')
  {
    LocalKeepsInPlace(s, s', c);
    LocalKeepsOwners(s, s', c);
    LocalKeepsDistinct(s, s', c);
  }

  lemma AcceptKeepsRegistration(s: State, s': State, a: Address, token: u64)
    requires RegistrationInv(s) && Accept(s, s', a, token)
    ensures RegistrationInv(s')
  {
    AcceptKeepsInPlace(s, s', a, token);
    assert forall d :: d in s.conns && Unfinished(s', d) ==> Unfinished(s, d);
  }

  lemma AcceptKeepsInPlace(s: State, s': State, a: Address, token: u64)
    requires RegistrationInv(s) && Accept(s, s', a, token)
    ensures InPlaceRegistered(s')
  {
    forall d | d in s'.conns && InPlace(s'.conns[d].handler.phase)
      ensures Registered(s', d) && s'.users[s'.conns[d].handler.address].token == s'.conns[d].handler.token
    {
      assert d in s.conns ==> Registered(s, d);
    }
  }

  lemma RegistrationStep(s: State, s': State, step: Step)
    requires RegistrationInv(s) && NextBy(s, s', step)
    ensures RegistrationInv(s')
  {
    if OwnerOf(step).Some? {
      StepIsLocal(s, s', step);
      LocalKeepsRegistration(s, s', OwnerOf(step).value);
    } else if step.AcceptStep? {
      AcceptKeepsRegistration(s, s', step.a, step.token);
    }
  }

  /** The user entry of an active connection. */
  ghost function Me(s: State, c: u64): Option<User>
    requires InPlaceRegistered(s) && c in s.conns
  {
    if InPlace(s.conns[c].handler.phase) then
      assert Registered(s, c);
      Some(s.users[s.conns[c].handler.address])
    else None
  }

  lemma OthersKeepEntry(s: State, s': State, c: u64, d: u64)
    requires InPlaceRegistered(s) && InPlaceRegistered(s') && Local(s, s', c) && d in s.conns && d != c
    ensures d in s'.conns && Me(s', d) == Me(s, d)
  {
    if InPlace(s.conns[d].handler.phase) {
      assert Registered(s, d) && Registered(s', d);
    }
  }
}
