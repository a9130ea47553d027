/** Presence convergence: in every reachable state, a logged-in client's participants list and the packets
    under way together give exactly the users that are logged in at the server. */
module Convergence {
  import opened Bytes
  import opened Sequences
  import opened Packets
  import opened Replica
  import opened Management
  import opened System
  import opened Registration
  import opened Progress
  import opened Invariants
  import opened Presence
  import opened PresenceSteps
  import opened Crashes
  import opened Listings

  // The presence invariant holds in every reachable state

  lemma StepActsWell(s: State, s': State, step: Step)
    requires Base(s) && InPlaceRegistered(s') && PresenceInv(s) && NextBy(s, s', step) && OwnerOf(step).Some?
    ensures ActsWell(s, s', OwnerOf(step).value)
  {
    StepIsLocal(s, s', step);
    OwnFacts(s, OwnerOf(step).value);
  }

  lemma PerformPresence(s: State, s': State, d: u64)
    requires ActsWell(s, s', d) && Perform(s, s', d)
    ensures PresenceInv(s')
  {
    if s.conns[d].handler.todo[0].Reply? {
      ReplyPresence(s, s', d);
    } else if s.conns[d].handler.todo[0].Emit? {
      EmitPresence(s, s', d);
    } else {
      BroadcastPresence(s, s', d);
    }
  }

  /** The step touches only the client's bookkeeping or the phase of a handler that stays out of the loop. */
  predicate KeepsBooks(step: Step)
  {
    || step.SendStep? || step.DrawStep? || step.LearnVoiceStep? || step.FinishStep? || step.PanicStep?
  }

  lemma BooksKept(s: State, s': State, step: Step, d: u64)
    requires NextBy(s, s', step) && KeepsBooks(step) && OwnerOf(step) == Some(d)
    ensures d in s.conns && d in s'.conns && s'.channel == s.channel && s'.users == s.users
    ensures var k, k' := s.conns[d], s'.conns[d];
      && k'.handler.todo == k.handler.todo && (k'.handler.phase.Serving? ==> k'.handler == k.handler)
      && k'.client.participants == k.client.participants && k'.down == k.down
  {
  }

  lemma BookkeepingPresence(s: State, s': State, step: Step, d: u64)
    requires NextBy(s, s', step) && KeepsBooks(step) && OwnerOf(step) == Some(d)
    requires Acts(s, s', d) && PresenceInv(s)
    ensures PresenceInv(s')
  {
    BooksKept(s, s', step, d);
    BookkeepingStep(s, s', d);
  }

  lemma ListingPresence(s: State, s': State, step: Step)
    requires NextBy(s, s', step) && Lists(step) && ActsKnown(s, s', step.c)
    ensures PresenceInv(s')
  {
    match step
    case StartSnapshotStep(d) => StartSnapshotPresence(s, s', d);
    case VisitStep(d, a) => VisitPresence(s, s', d, a);
    case FinishSnapshotStep(d) => FinishSnapshotPresence(s, s', d);
  }

  lemma ReceivePresence(s: State, s': State, d: u64)
    requires Acts(s, s', d) && PresenceInv(s) && Receive(s, s', d)
    ensures PresenceInv(s')
  {
    forall u
      ensures Expected(s'.conns[d], u) == Expected(s.conns[d], u)
    {
      ReceiveExpected(s.conns[d], u);
    }
    BookkeepingStep(s, s', d);
  }

  lemma RelayPresence(s: State, s': State)
    requires PresenceInv(s) && s'.users == s.users && s'.conns == s.conns && s'.channel == s.channel
    ensures PresenceInv(s')
  {
    forall u
      ensures Truth(s', u) == Truth(s, u) && Owed(s', u) == Owed(s, u)
    {
    }
    QuietKeepsHistory(s, s');
    forall c, u | Pair(s', c, u)
      ensures Observes(u, s'.conns[c], s'.channel, Owed(s', u), Truth(s', u))
    {
      assert Pair(s, c, u);
    }
  }

  /** The other steps of connections. */
  lemma OwnStepPresence(s: State, s': State, step: Step)
    requires NextBy(s, s', step) && OwnerOf(step).Some?
    requires !KeepsBooks(step) && !Lists(step) && !step.ReadStep? && !step.PerformStep?
    requires ActsKnown(s, s', OwnerOf(step).value)
    ensures PresenceInv(s')
  {
    if step.SubscribeStep? {
      SubscribePresence(s, s', step.c);
      return;
    }
    if step.ForwardStep? {
      ForwardPresence(s, s', step.c);
      return;
    }
    if step.ReceiveStep? {
      ReceivePresence(s, s', step.c);
      return;
    }
    EndPresence(s, s', step);
  }

  /** The steps by which handlers leave their loops. */
  lemma EndPresence(s: State, s': State, step: Step)
    requires NextBy(s, s', step) && (step.HangupStep? || step.WriteFailsStep?)
    requires ActsKnown(s, s', step.c)
    ensures PresenceInv(s')
  {
    if step.HangupStep? {
      HangupPresence(s, s', step.c);
      return;
    }
    WriteFailsPresence(s, s', step.c);
  }

  lemma ReadStepPresence(s: State, s': State, d: u64, now: u64)
    requires Base(s) && InPlaceRegistered(s') && PresenceInv(s) && Read(s, s', d, now)
    ensures PresenceInv(s')
  {
    ReadIsLocal(s, s', d, now);
    OwnFacts(s, d);
    ReadPresence(s, s', d, now);
  }

  lemma OwnPresence(s: State, s': State, step: Step)
    requires Base(s) && InPlaceRegistered(s') && PresenceInv(s) && NextBy(s, s', step) && OwnerOf(step).Some?
    ensures PresenceInv(s')
  {
    if step.ReadStep? {
      ReadStepPresence(s, s', step.c, step.now);
      return;
    }
    StepActsWell(s, s', step);
    if KeepsBooks(step) {
      BookkeepingPresence(s, s', step, OwnerOf(step).value);
      return;
    }
    if Lists(step) {
      ListingPresence(s, s', step);
      return;
    }
    if step.PerformStep? {
      PerformPresence(s, s', step.c);
      return;
    }
    OwnStepPresence(s, s', step);
  }

  lemma PresenceStep(s: State, s': State, step: Step)
    requires Base(s) && Base(s') && PresenceInv(s) && NextBy(s, s', step)
    ensures PresenceInv(s')
  {
    if OwnerOf(step).Some? {
      OwnPresence(s, s', step);
    } else if step.AcceptStep? {
      AcceptPresence(s, s', step.a, step.token);
    } else {
      RelayPresence(s, s');
    }
  }

  ghost predicate PresentBase(s: State)
  {
    CrashBase(s) && PresenceInv(s) && ListingInv(s)
  }

  lemma ReachablePresence(s: State)
    requires Reachable(s)
    ensures PresentBase(s)
  {
    forall x | Init(x)
      ensures PresentBase(x)
    {
      PresenceInit(x);
    }
    forall x, y, step | PresentBase(x) && NextBy(x, y, step)
      ensures PresentBase(y)
    {
      BaseStep(x, y, step);
      CrashStep(x, y, step);
      PresenceStep(x, y, step);
      ListingStep(x, y, step);
    }
    HoldsWhenReachable(s, PresentBase);
  }

  // What a client ends up with

  /** The broadcasts that the handler at address `a` passes on. */
  function Visible(messages: seq<BroadcastMessage>, a: Address): seq<Packet>
  {
    if messages == [] then []
    else (if messages[0].ShouldSendTo(a) then [messages[0].packet] else []) + Visible(messages[1..], a)
  }

  /** The broadcasts that are not passed on are without effect on other users. */
  lemma {:induction false} VisibleSuffices(u: u64, e: Entry, messages: seq<BroadcastMessage>, a: Address)
    requires forall i :: 0 <= i < |messages| && !messages[i].ShouldSendTo(a) ==> !Concerns(messages[i].packet, u)
    ensures Replay(u, e, Visible(messages, a)) == Replay(u, e, PacketsOf(messages))
    decreases |messages|
  {
    if messages != [] {
      var first := if messages[0].ShouldSendTo(a) then [messages[0].packet] else [];
      var rest := Visible(messages[1..], a);
      ReplayAppend(u, e, first, rest);
      ReplayIgnoresOne(u, e, first);
      assert PacketsOf(messages)[1..] == PacketsOf(messages[1..]);
      VisibleSuffices(u, Replay(u, e, first), messages[1..], a);
      assert Replay(u, e, first) == Apply(u, e, messages[0].packet);
    }
  }

  lemma ReplayIgnoresOne(u: u64, e: Entry, ps: seq<Packet>)
    requires |ps| <= 1
    ensures Replay(u, e, ps) == if ps == [] then e else Apply(u, e, ps[0])
  {
  }

  /** Everything that is still to come for client `c`: what is on its connection, the reply its handler
      is about to write, the broadcasts it will pass on, and `pending`. */
  function StillToCome(s: State, c: u64, pending: seq<Packet>): seq<Packet>
    requires c in s.conns && s.conns[c].handler.cursor <= |s.channel|
  {
    var k := s.conns[c];
    k.down + OwedReplies(k.handler.todo) + Visible(s.channel[k.handler.cursor..], k.handler.address) + pending
  }

  /** What the handler of user `u` still gets to broadcast; a handler that has panicked does not. */
  function Forthcoming(s: State, u: u64): seq<Packet>
  {
    if u in s.conns && s.conns[u].handler.phase.Crashed? then [] else Owed(s, u)
  }

  /** `pending` holds what the handlers of the other users still get to broadcast, each handler's packets in
      its own order, the handlers interleaved in any way. */
  ghost predicate IsPending(s: State, c: u64, pending: seq<Packet>)
  {
    forall u {:trigger Forthcoming(s, u)} :: u != c ==> Concerning(u, pending) == Concerning(u, Forthcoming(s, u))
  }

  /** The handler of user `u` died over a login response that does not fit a packet: the login is never
      announced. */
  predicate Unannounced(s: State, u: u64)
  {
    && u in s.conns && s.conns[u].handler.phase.Crashed?
    && s.conns[u].handler.todo != [] && s.conns[u].handler.todo[0].Reply?
  }

  /** What client `c` makes of everything still to come. */
  function ListOf(s: State, c: u64, pending: seq<Packet>): Participants
    requires c in s.conns && s.conns[c].handler.cursor <= |s.channel|
  {
    OnPackets(s.conns[c].client.participants, StillToCome(s, c, pending))
  }

  /** The entries other than the client's own are those of logged-in users, with their names and flags. */
  ghost predicate ListsOnlyUsers(s: State, c: u64, m: Participants)
  {
    forall u :: u in m && u != c ==>
      exists a :: a in s.users && s.users[a].id == u && s.users[a].username.Some? && m[u] == InfoOf(s.users[a])
  }

  /** The participants list agrees with the server about every user other than `c`: it holds exactly the
      users that are logged in, with their names and flags. */
  ghost predicate AgreesExceptFor(s: State, c: u64, m: Participants)
  {
    && ListsOnlyUsers(s, c, m)
    && forall a :: a in s.users && s.users[a].id != c && s.users[a].username.Some? ==>
         s.users[a].id in m && m[s.users[a].id] == InfoOf(s.users[a])
  }

  /** An entry that is there is right, and only users whose login was never announced may lack one. */
  ghost predicate EntriesRight(s: State, c: u64, m: Participants)
  {
    forall u :: u != c ==> Lookup(m, u) == Truth(s, u) || (Unannounced(s, u) && Lookup(m, u) == None)
  }

  lemma TruthOfEntry(s: State, a: Address)
    requires RegistrationInv(s) && a in s.users
    ensures Truth(s, s.users[a].id) == EntryOf(s.users[a])
  {
    assert Registered(s, s.users[a].id);
  }

  lemma EntriesAgree(s: State, c: u64, m: Participants)
    requires RegistrationInv(s) && EntriesRight(s, c, m)
    requires forall u :: Unannounced(s, u) ==> Truth(s, u).Some?
    ensures ListsOnlyUsers(s, c, m)
    ensures AgreesExceptFor(s, c, m) <==> forall u :: Unannounced(s, u) && u != c ==> u in m
  {
    forall u | u in m && u != c
      ensures exists a :: a in s.users && s.users[a].id == u && s.users[a].username.Some? && m[u] == InfoOf(s.users[a])
    {
      assert Lookup(m, u) == Truth(s, u);
      assert Registered(s, u);
      assert s.users[s.conns[u].handler.address].id == u;
    }
    if AgreesExceptFor(s, c, m) {
      forall u | Unannounced(s, u) && u != c
        ensures u in m
      {
        assert Truth(s, u).Some? && Registered(s, u);
      }
    } else {
      var a :| a in s.users && s.users[a].id != c && s.users[a].username.Some?
        && !(s.users[a].id in m && m[s.users[a].id] == InfoOf(s.users[a]));
      TruthOfEntry(s, a);
      assert Unannounced(s, s.users[a].id) && s.users[a].id !in m;
    }
  }

  // The fate of one user's entry

  lemma VisibleIsAll(u: u64, e: Entry, channel: seq<BroadcastMessage>, c: u64, h: Handler)
    requires u != c && HearsOthers(channel, c, h) && h.phase.Serving?
    ensures Replay(u, e, Visible(channel[h.cursor..], h.address)) == Replay(u, e, From(channel, h.cursor))
  {
    var messages := channel[h.cursor..];
    forall i | 0 <= i < |messages| && !messages[i].ShouldSendTo(h.address)
      ensures !Concerns(messages[i].packet, u)
    {
      assert messages[i] == channel[h.cursor + i];
    }
    VisibleSuffices(u, e, messages, h.address);
  }

  /** What one user's entry becomes. */
  lemma EntryBecomes(s: State, c: u64, pending: seq<Packet>, u: u64)
    requires c in s.conns && u != c && IsPending(s, c, pending)
    requires s.conns[c].handler.phase.Serving? && HearsOthers(s.channel, c, s.conns[c].handler)
    ensures Lookup(ListOf(s, c, pending), u)
         == Replay(u, Expected(s.conns[c], u), Coming(s.conns[c], s.channel, Forthcoming(s, u)))
  {
    var k := s.conns[c];
    var e := Lookup(k.client.participants, u);
    var written := k.down + OwedReplies(k.handler.todo);
    var visible := Visible(s.channel[k.handler.cursor..], k.handler.address);
    var messages := From(s.channel, k.handler.cursor);
    EntriesAreIndependent(k.client.participants, StillToCome(s, c, pending), u);
    ReplayAppend(u, e, written + visible, pending);
    ReplayAppend(u, e, written, visible);
    VisibleIsAll(u, Replay(u, e, written), s.channel, c, k.handler);
    var x := Replay(u, Replay(u, e, written), messages);
    ReplayConcerning(u, x, pending);
    ReplayConcerning(u, x, Forthcoming(s, u));
    ReplayAppend(u, Replay(u, e, written), messages, Forthcoming(s, u));
  }

  /** A handler that died over a chat message owed nothing else. */
  lemma CrashedOwed(s: State, u: u64)
    requires CrashBase(s) && u in s.conns && s.conns[u].handler.phase.Crashed?
    ensures Unannounced(s, u) ==> Silent(u, s.channel) && Truth(s, u).Some?
    ensures !Unannounced(s, u) ==> forall i :: 0 <= i < |Owed(s, u)| ==> !Concerns(Owed(s, u)[i], u)
  {
    assert Here(s, u);
    var h := s.conns[u].handler;
    assert WorkOk(h) && NewcomerOk(u, Owed(s, u), Me(s, u), s.channel);
    OwnTruth(s, u);
    OverflowingWork(h.todo);
    UnrollOwed(h.todo);
    if Unannounced(s, u) {
      assert Owed(s, u)[0].UserJoinedServer?;
      OwnFacts(s, u);
      assert ActionOk(u, h, h.todo[1]);
    }
  }

  /** Packets that are lost with a handler that died over a chat message do not count. */
  lemma LossCounts(s: State, u: u64, e: Entry, q: seq<Packet>)
    requires CrashBase(s) && !Unannounced(s, u)
    ensures Replay(u, e, q + Forthcoming(s, u)) == Replay(u, e, q + Owed(s, u))
  {
    ReplayAppend(u, e, q, Owed(s, u));
    ReplayAppend(u, e, q, Forthcoming(s, u));
    if u in s.conns && s.conns[u].handler.phase.Crashed? {
      CrashedOwed(s, u);
      ReplayIgnores(u, Replay(u, e, q), Owed(s, u));
    }
  }

  lemma SilentChannel(u: u64, e: Entry, channel: seq<BroadcastMessage>, cursor: nat)
    requires Silent(u, channel)
    ensures Replay(u, e, From(channel, cursor)) == e
  {
    ReplayIgnores(u, e, From(channel, cursor));
  }

  /** Nothing under way is about a user whose login is never announced. */
  lemma UnannouncedEntry(s: State, c: u64, pending: seq<Packet>, u: u64)
    requires CrashBase(s) && IsPending(s, c, pending) && u != c && Unannounced(s, u)
    requires c in s.conns && s.conns[c].handler.phase.Serving? && HearsOthers(s.channel, c, s.conns[c].handler)
    ensures Lookup(ListOf(s, c, pending), u) == Expected(s.conns[c], u)
  {
    var k := s.conns[c];
    CrashedOwed(s, u);
    EntryBecomes(s, c, pending, u);
    SilentChannel(u, Expected(k, u), s.channel, k.handler.cursor);
    assert From(s.channel, k.handler.cursor) + [] == From(s.channel, k.handler.cursor);
  }

  /** The fate of one user's entry at a logged-in client. */
  lemma EntryConverges(s: State, c: u64, pending: seq<Packet>, u: u64)
    requires PresentBase(s) && IsPending(s, c, pending) && u != c
    requires c in s.conns && s.conns[c].handler.phase.Serving? && s.conns[c].handler.answered
    requires s.conns[c].handler.cursor <= |s.channel|
    ensures var e := Lookup(ListOf(s, c, pending), u);
      e == Truth(s, u) || (Unannounced(s, u) && e == None)
  {
    assert Pair(s, c, u) && Here(s, c);
    if Unannounced(s, u) {
      CrashedOwed(s, u);
      UnannouncedEntry(s, c, pending, u);
      return;
    }
    EntryBecomes(s, c, pending, u);
    LossCounts(s, u, Expected(s.conns[c], u), From(s.channel, s.conns[c].handler.cursor));
  }

  /** A user whose login is never announced is known to those clients whose own listing has shown them the user. */
  lemma UnannouncedIsShown(s: State, c: u64, pending: seq<Packet>, u: u64)
    requires PresentBase(s) && IsPending(s, c, pending) && u != c && Unannounced(s, u)
    requires c in s.conns && s.conns[c].handler.phase.Serving? && s.conns[c].client.stage.LoggedIn?
    requires s.conns[c].handler.cursor <= |s.channel|
    ensures u in ListOf(s, c, pending) <==> ShownIn(s.conns[c].client, u)
  {
    assert Here(s, c);
    CrashedOwed(s, u);
    UnannouncedEntry(s, c, pending, u);
    ExpectsShown(c, s.conns[c], s.channel, u);
  }

  /** The client's own listing has shown it all other users whose logins are never announced. */
  ghost predicate HasSeenUnannounced(s: State, c: u64)
    requires c in s.conns
  {
    forall u :: Unannounced(s, u) && u != c ==> ShownIn(s.conns[c].client, u)
  }

  // There is something pending in every state

  /** What the handlers of users with ids below `n`, other than `c`, still get to broadcast, one after the other. */
  function PendingBelow(s: State, c: u64, n: nat): seq<Packet>
    requires n <= ID_LIMIT
  {
    if n == 0 then []
    else PendingBelow(s, c, n - 1) + if n - 1 != c then Forthcoming(s, n - 1) else []
  }

  lemma {:induction false} ConcerningAppend(u: u64, a: seq<Packet>, b: seq<Packet>)
    ensures Concerning(u, a + b) == Concerning(u, a) + Concerning(u, b)
    decreases |a|
  {
    if a == [] {
      assert a + b == b;
    } else {
      assert (a + b)[0] == a[0] && (a + b)[1..] == a[1..] + b;
      ConcerningAppend(u, a[1..], b);
      Assoc(if Concerns(a[0], u) then [a[0]] else [], Concerning(u, a[1..]), Concerning(u, b));
    }
  }

  lemma {:induction false} OwedToOthers(c: u64, h: Handler, todo: seq<Action>, u: u64)
    requires u != c && forall i :: 0 <= i < |todo| ==> ActionOk(c, h, todo[i])
    ensures Concerning(u, OwedPackets(todo)) == []
  {
    if todo != [] {
      var first := if todo[0].Broadcast? then [todo[0].message.packet] else [];
      assert ActionOk(c, h, todo[0]);
      ConcerningAppend(u, first, OwedPackets(todo[1..]));
      OwedToOthers(c, h, todo[1..], u);
    }
  }

  lemma ForthcomingIsOwn(s: State, d: u64, u: u64)
    requires Base(s) && u != d
    ensures Concerning(u, Forthcoming(s, d)) == []
  {
    if d in s.conns {
      OwnFacts(s, d);
      OwedToOthers(d, s.conns[d].handler, s.conns[d].handler.todo, u);
    }
  }

  /** Each handler's packets are about its own user only. */
  ghost predicate AboutThemselves(s: State)
  {
    forall d, u {:trigger Concerning(u, Forthcoming(s, d))} :: u != d ==> Concerning(u, Forthcoming(s, d)) == []
  }

  lemma {:induction false} PendingCollects(s: State, c: u64, n: nat, u: u64)
    requires AboutThemselves(s) && n <= ID_LIMIT && u != c
    ensures Concerning(u, PendingBelow(s, c, n)) == if u < n then Concerning(u, Forthcoming(s, u)) else []
  {
    if n > 0 {
      var d := n - 1;
      PendingCollects(s, c, d, u);
      ConcerningAppend(u, PendingBelow(s, c, d), if d != c then Forthcoming(s, d) else []);
      assert d != u ==> Concerning(u, Forthcoming(s, d)) == [];
    }
  }

  /** In every reachable state there are packets as `Converges` takes them. */
  lemma SomethingIsPending(s: State, c: u64) returns (pending: seq<Packet>)
    requires Reachable(s)
    ensures IsPending(s, c, pending)
  {
    ReachableBase(s);
    forall d, u {:trigger Concerning(u, Forthcoming(s, d))} | u != d
      ensures Concerning(u, Forthcoming(s, d)) == []
    {
      ForthcomingIsOwn(s, d, u);
    }
    pending := PendingBelow(s, c, ID_LIMIT);
    forall u {:trigger Forthcoming(s, u)} | u != c
      ensures Concerning(u, pending) == Concerning(u, Forthcoming(s, u))
    {
      PendingCollects(s, c, ID_LIMIT, u);
    }
  }

  /** Presence convergence. In every reachable state, take everything that is under way to a logged-in client
      or will still be broadcast by handlers in the middle of a request. Once it has arrived, every entry of
      the client's participants list is that of a logged-in user, with its name and flags; and the list is
      complete if and only if the response to the client's own login has shown it the users whose logins are
      never announced, because their handlers died over responses that did not fit. */
  lemma Converges(s: State, c: u64, pending: seq<Packet>)
    requires Reachable(s) && c in s.conns && s.conns[c].handler.phase.Serving? && s.conns[c].client.stage.LoggedIn?
    requires IsPending(s, c, pending)
    ensures s.conns[c].handler.cursor <= |s.channel|
    ensures var m := ListOf(s, c, pending);
      && ListsOnlyUsers(s, c, m)
      && (AgreesExceptFor(s, c, m) <==> HasSeenUnannounced(s, c))
  {
    ReachablePresence(s);
    OwnFacts(s, c);
    var m := ListOf(s, c, pending);
    forall u | u != c
      ensures Lookup(m, u) == Truth(s, u) || (Unannounced(s, u) && Lookup(m, u) == None)
    {
      EntryConverges(s, c, pending, u);
    }
    forall u | Unannounced(s, u)
      ensures Truth(s, u).Some?
    {
      CrashedOwed(s, u);
    }
    EntriesAgree(s, c, m);
    forall u | Unannounced(s, u) && u != c
      ensures u in m <==> ShownIn(s.conns[c].client, u)
    {
      UnannouncedIsShown(s, c, pending, u);
    }
  }

  /** Nothing is under way to client `c`, and no handler is in the middle of a request. */
  ghost predicate Quiescent(s: State, c: u64)
  {
    && c in s.conns && s.conns[c].down == [] && s.conns[c].handler.cursor == |s.channel|
    && s.conns[c].handler.todo == []
    && forall d :: d in s.conns ==> s.conns[d].handler.todo == [] || s.conns[d].handler.phase.Crashed?
  }

  /** When nothing is under way, the list a client shows is right as it stands. */
  lemma QuiescentClientIsRight(s: State, c: u64)
    requires Reachable(s) && Quiescent(s, c)
    requires s.conns[c].handler.phase.Serving? && s.conns[c].client.stage.LoggedIn?
    ensures var m := s.conns[c].client.participants;
      && ListsOnlyUsers(s, c, m)
      && (AgreesExceptFor(s, c, m) <==> HasSeenUnannounced(s, c))
  {
    assert IsPending(s, c, []);
    Converges(s, c, []);
    assert StillToCome(s, c, []) == [];
  }

  // Which announcements are right

  /** Observers who are right about the sender of `p` are right about it again after the announcement. */
  predicate RightAboutSender(sender: User, p: Packet)
  {
    match p
    case LoginRequest(_, name) => ValidUsername(name) ==> !sender.inVoice && !sender.isMuted
    case UserMuteState(claimed, isMuted) =>
      claimed == sender.id || sender.username.None? || sender.isMuted == isMuted
    case _ => true
  }

  /** Observers who have entry `e` for another user keep it. */
  predicate RightAboutOther(u: u64, e: Entry, p: Packet)
  {
    p.UserMuteState? && p.userId == u && e.Some? ==> e.value.isMuted == p.isMuted
  }

  lemma AnnouncedEntry(user: User, p: Packet, now: u64)
    ensures Replay(user.id, EntryOf(user), Announced(user, p, now)) == EntryOf(UserAfter(user, p))
       <==> RightAboutSender(user, p)
  {
    ReplayIgnoresOne(user.id, EntryOf(user), Announced(user, p, now));
  }

  /** For every packet that a client may send: an observer with entry `e` and packets `q` to come that is right
      about the sender is still right with the announcement appended if and only if `RightAboutSender`. So
      logins in voice or while muted and mute packets with another id mislead observers, and nothing else. */
  lemma AnnouncementIsRight(users: Users, a: Address, p: Packet, now: u64, e: Entry, q: seq<Packet>)
    requires a in users && Replay(users[a].id, e, q) == EntryOf(users[a])
    ensures var b := Begin(users, a, p, now);
      && a in b.users
      && (Replay(users[a].id, e, q + OwedPackets(b.todo)) == EntryOf(b.users[a]) <==> RightAboutSender(users[a], p))
  {
    BeginOwes(users, a, p, now);
    BeginChanges(users, a, p, now);
    ReplayAppend(users[a].id, e, q, Announced(users[a], p, now));
    AnnouncedEntry(users[a], p, now);
  }

  /** The same about every other user `u`, whose entry the packet does not change. */
  lemma AnnouncementAboutOthers(users: Users, a: Address, p: Packet, now: u64, u: u64, e: Entry, q: seq<Packet>)
    requires a in users && u != users[a].id
    ensures var owed := OwedPackets(Begin(users, a, p, now).todo);
      Replay(u, e, q + owed) == Replay(u, e, q) <==> RightAboutOther(u, Replay(u, e, q), p)
  {
    var es := Announced(users[a], p, now);
    BeginOwes(users, a, p, now);
    ReplayAppend(u, e, q, es);
    ReplayIgnoresOne(u, Replay(u, e, q), es);
    if es != [] && !p.UserMuteState? {
      assert !Concerns(es[0], u);
    }
  }
}
