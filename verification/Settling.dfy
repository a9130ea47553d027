/** When clients leave the system alone it comes to rest within a bounded number of steps, whatever the order of
    the steps; and at rest every request has been answered, every client is right and so is the relay. */
module Settling {
  import opened Bytes
  import opened Utf8Text
  import opened Packets
  import opened Management
  import opened RelayState
  import opened System
  import opened Link
  import opened Progress
  import opened Invariants
  import opened Crashes
  import opened Convergence
  import opened Lifecycle
  import opened RelayTheorems
  import opened RequestTheorems

  /** What goes on by itself: the handlers' work, deliveries, and the relay's handling of events. Nobody
      connects, sends, hangs up or authenticates, and no broadcast fails to be written. */
  predicate Internal(step: Step)
  {
    || step.SubscribeStep? || step.PerformStep? || step.ReadStep? || step.StartSnapshotStep? || step.VisitStep?
    || step.FinishSnapshotStep? || step.ForwardStep? || step.FinishStep? || step.PanicStep? || step.ReceiveStep?
    || step.RelayEventStep?
  }

  predicate AllInternal(steps: seq<Step>)
  {
    forall i :: 0 <= i < |steps| ==> Internal(steps[i])
  }

  // How much there is left to do

  /** Bounds the steps that an action takes, with the deliveries it leads to: `ids` are the users present, and
      `limit` bounds the number of connections. */
  function ActionLoad(x: Action, ids: set<u64>, limit: nat): nat
  {
    match x
    case Reply(_) => 2
    case Emit(_) => 2
    case Broadcast(_) => 2 * limit + 1
    case TakeSnapshot(_, _, _) => |ids| + 4
    case Collecting(_, _, _, _, seen, _) => |ids - seen| + 3
  }

  function TodoLoad(todo: seq<Action>, ids: set<u64>, limit: nat): nat
  {
    if todo == [] then 0 else ActionLoad(todo[0], ids, limit) + TodoLoad(todo[1..], ids, limit)
  }

  /** Bounds the steps that the packets on the way up take. */
  function UpLoad(n: nat, ids: set<u64>, limit: nat): nat
  {
    if n == 0 then 0 else |ids| + 2 * limit + 6 + UpLoad(n - 1, ids, limit)
  }

  function PhaseLoad(p: Phase): nat
  {
    match p
    case Starting => 3
    case Serving => 2
    case Leaving => 1
    case Gone => 0
    case Crashed => 0
  }

  function HandlerLoad(h: Handler, ids: set<u64>, limit: nat): nat
  {
    TodoLoad(h.todo, ids, limit) + PhaseLoad(h.phase)
  }

  /** The same for a connection, with the broadcasts it still has to pass on of the `n` on the channel. */
  function Load(k: Conn, n: nat, ids: set<u64>, limit: nat): int
  {
    HandlerLoad(k.handler, ids, limit) + UpLoad(|k.up|, ids, limit) + |k.down| + 2 * (n - k.handler.cursor)
  }

  /** The sum over the connections with ids below `i`. */
  function SumLoad(conns: map<u64, Conn>, n: nat, ids: set<u64>, limit: nat, i: nat): int
    requires i <= ID_LIMIT
  {
    if i == 0 then 0
    else SumLoad(conns, n, ids, limit, i - 1) + if i - 1 in conns then Load(conns[i - 1], n, ids, limit) else 0
  }

  lemma {:induction false} SumUpdate(
      conns: map<u64, Conn>, c: u64, k: Conn, n: nat, ids: set<u64>, limit: nat, i: nat)
    requires i <= ID_LIMIT && c in conns
    ensures SumLoad(conns[c := k], n, ids, limit, i)
         == SumLoad(conns, n, ids, limit, i)
          + if c < i then Load(k, n, ids, limit) - Load(conns[c], n, ids, limit) else 0
  {
    if i > 0 {
      SumUpdate(conns, c, k, n, ids, limit, i - 1);
    }
  }

  /** One more broadcast is passed on and delivered at most once on each connection. */
  lemma {:induction false} SumBroadcast(conns: map<u64, Conn>, n: nat, ids: set<u64>, limit: nat, i: nat)
    requires i <= ID_LIMIT
    ensures SumLoad(conns, n + 1, ids, limit, i) <= SumLoad(conns, n, ids, limit, i) + 2 * i
  {
    if i > 0 {
      SumBroadcast(conns, n, ids, limit, i - 1);
    }
  }

  lemma {:induction false} SumNonNegative(conns: map<u64, Conn>, n: nat, ids: set<u64>, limit: nat, i: nat)
    requires i <= ID_LIMIT && forall c :: c in conns ==> conns[c].handler.cursor <= n
    ensures SumLoad(conns, n, ids, limit, i) >= 0
  {
    if i > 0 {
      SumNonNegative(conns, n, ids, limit, i - 1);
    }
  }

  ghost predicate SettleBase(s: State)
  {
    CrashBase(s) && RelayBase(s)
  }

  lemma ReachableSettleBase(s: State)
    requires Reachable(s)
    ensures SettleBase(s)
  {
    ReachableCrashes(s);
    ReachableInvariant(s);
  }

  /** How much there is left to do in state `s`. */
  function Total(s: State): int
    requires s.nextId <= ID_LIMIT
  {
    SumLoad(s.conns, |s.channel|, PresentIds(s.users), s.nextId, s.nextId) + |s.events| - s.handled
  }

  lemma TotalNonNegative(s: State)
    requires SettleBase(s)
    ensures Total(s) >= 0
  {
    forall c | c in s.conns
      ensures s.conns[c].handler.cursor <= |s.channel|
    {
      OwnFacts(s, c);
    }
    SumNonNegative(s.conns, |s.channel|, PresentIds(s.users), s.nextId, s.nextId);
  }

  // Every such step leaves less to do

  lemma BeginKeepsPresent(users: Users, a: Address, p: Packet, now: u64)
    ensures PresentIds(Begin(users, a, p, now).users) == PresentIds(users)
  {
    var users' := Begin(users, a, p, now).users;
    forall b | b in users
      ensures b in users' && users'[b].id == users[b].id
    {
    }
    forall id | id in PresentIds(users)
      ensures id in PresentIds(users')
    {
      var b :| b in users && users[b].id == id;
      assert b in users';
    }
  }

  lemma UnrollLoad(todo: seq<Action>, ids: set<u64>, limit: nat)
    requires |todo| <= 3
    ensures |todo| == 1 ==> TodoLoad(todo, ids, limit) == ActionLoad(todo[0], ids, limit)
    ensures |todo| == 2 ==>
      TodoLoad(todo, ids, limit) == ActionLoad(todo[0], ids, limit) + ActionLoad(todo[1], ids, limit)
    ensures |todo| == 3 ==>
      TodoLoad(todo, ids, limit)
        == ActionLoad(todo[0], ids, limit) + ActionLoad(todo[1], ids, limit) + ActionLoad(todo[2], ids, limit)
  {
    if |todo| >= 2 {
      var rest := todo[1..];
      assert rest[0] == todo[1];
      if |todo| == 3 {
        var last := rest[1..];
        assert last[0] == todo[2] && last[1..] == [];
      }
    }
  }

  lemma LoginLoad(users: Users, a: Address, rid: u64, name: Text, ids: set<u64>, limit: nat)
    ensures TodoLoad(BeginLogin(users, a, rid, name).todo, ids, limit) < |ids| + 2 * limit + 6
  {
    UnrollLoad(BeginLogin(users, a, rid, name).todo, ids, limit);
  }

  /** Up to two replies and events, and one broadcast at most. */
  predicate IsBrief(todo: seq<Action>)
  {
    && |todo| <= 3
    && (|todo| == 3 ==> todo[2].Broadcast?)
    && forall i :: 0 <= i < |todo| ==> todo[i].Reply? || todo[i].Emit? || (i == |todo| - 1 && todo[i].Broadcast?)
  }

  lemma BriefLoad(todo: seq<Action>, ids: set<u64>, limit: nat)
    requires IsBrief(todo)
    ensures TodoLoad(todo, ids, limit) < |ids| + 2 * limit + 6
  {
    UnrollLoad(todo, ids, limit);
  }

  /** Reading a packet takes a step and leaves work worth at most the rest of what the packet counts for. */
  lemma BeginLoad(users: Users, a: Address, p: Packet, now: u64, ids: set<u64>, limit: nat)
    ensures TodoLoad(Begin(users, a, p, now).todo, ids, limit) < |ids| + 2 * limit + 6
  {
    if p.LoginRequest? {
      LoginLoad(users, a, p.requestId, p.username, ids, limit);
    } else {
      BriefLoad(Begin(users, a, p, now).todo, ids, limit);
    }
  }

  lemma FirstReplaced(todo: seq<Action>, x: Action, ids: set<u64>, limit: nat)
    requires todo != []
    ensures TodoLoad([x] + todo[1..], ids, limit)
         == TodoLoad(todo, ids, limit) - ActionLoad(todo[0], ids, limit) + ActionLoad(x, ids, limit)
  {
    assert ([x] + todo[1..])[1..] == todo[1..];
  }

  lemma VisitShrinks(ids: set<u64>, seen: set<u64>, id: u64)
    requires id in ids && id !in seen
    ensures |ids - (seen + {id})| < |ids - seen|
  {
    assert ids - seen == (ids - (seen + {id})) + {id};
  }

  /** From `todo` to `todo'` the front is replaced by something that takes less. */
  predicate LessInFront(todo: seq<Action>, todo': seq<Action>, ids: set<u64>, limit: nat)
  {
    && todo != [] && todo' != [] && todo' == [todo'[0]] + todo[1..]
    && ActionLoad(todo'[0], ids, limit) < ActionLoad(todo[0], ids, limit)
  }

  lemma StartSnapshotLoad(s: State, s': State, c: u64, limit: nat)
    requires StartSnapshot(s, s', c)
    ensures LessInFront(s.conns[c].handler.todo, s'.conns[c].handler.todo, PresentIds(s.users), limit)
  {
    assert PresentIds(s.users) - {} == PresentIds(s.users);
  }

  lemma VisitLoad(s: State, s': State, c: u64, a: Address, limit: nat)
    requires Visit(s, s', c, a)
    ensures LessInFront(s.conns[c].handler.todo, s'.conns[c].handler.todo, PresentIds(s.users), limit)
  {
    VisitShrinks(PresentIds(s.users), s.conns[c].handler.todo[0].seen, s.users[a].id);
  }

  lemma FinishSnapshotLoad(s: State, s': State, c: u64, limit: nat)
    requires FinishSnapshot(s, s', c)
    ensures LessInFront(s.conns[c].handler.todo, s'.conns[c].handler.todo, PresentIds(s.users), limit)
  {
  }

  lemma ListingLoad(s: State, s': State, step: Step, limit: nat)
    requires NextBy(s, s', step) && Lists(step)
    ensures var ids := PresentIds(s.users);
      && step.c in s.conns && step.c in s'.conns
      && TodoLoad(s'.conns[step.c].handler.todo, ids, limit) < TodoLoad(s.conns[step.c].handler.todo, ids, limit)
  {
    match step {
      case StartSnapshotStep(c) => StartSnapshotLoad(s, s', c, limit);
      case VisitStep(c, a) => VisitLoad(s, s', c, a, limit);
      case FinishSnapshotStep(c) => FinishSnapshotLoad(s, s', c, limit);
    }
    FirstReplaced(s.conns[step.c].handler.todo, s'.conns[step.c].handler.todo[0], PresentIds(s.users), limit);
  }

  predicate OnlyConn(step: Step)
  {
    || step.SubscribeStep? || step.ForwardStep? || step.FinishStep? || step.PanicStep? || step.ReceiveStep?
    || step.StartSnapshotStep? || step.VisitStep? || step.FinishSnapshotStep?
  }

  /** Steps that change one connection only leave less to do on it. */
  lemma ConnLoad(s: State, s': State, step: Step, limit: nat)
    requires NextBy(s, s', step) && OnlyConn(step) && s.conns[step.c].handler.cursor <= |s.channel|
    ensures step.c in s.conns && step.c in s'.conns && s' == s.(conns := s.conns[step.c := s'.conns[step.c]])
    ensures var ids, n := PresentIds(s.users), |s.channel|;
      Load(s'.conns[step.c], n, ids, limit) < Load(s.conns[step.c], n, ids, limit)
  {
    if Lists(step) {
      ListingLoad(s, s', step, limit);
    }
  }

  /** Such a step of connection `c` brings the total down by as much as the load of `c`. */
  lemma ConnTotal(s: State, s': State, c: u64)
    requires s.nextId <= ID_LIMIT && c in s.conns && c < s.nextId && c in s'.conns
    requires s'.conns == s.conns[c := s'.conns[c]] && s'.channel == s.channel && s'.nextId == s.nextId
    requires PresentIds(s'.users) == PresentIds(s.users)
    ensures var ids, n, limit := PresentIds(s.users), |s.channel|, s.nextId;
      Total(s') - (|s'.events| - s'.handled)
        == Total(s) - (|s.events| - s.handled)
         + Load(s'.conns[c], n, ids, limit) - Load(s.conns[c], n, ids, limit)
  {
    SumUpdate(s.conns, c, s'.conns[c], |s.channel|, PresentIds(s.users), s.nextId, s.nextId);
  }

  lemma ReadTotal(s: State, s': State, c: u64, now: u64)
    requires Read(s, s', c, now) && s.nextId <= ID_LIMIT && c < s.nextId
    ensures s'.nextId == s.nextId && Total(s') < Total(s)
  {
    var k := s.conns[c];
    BeginKeepsPresent(s.users, k.handler.address, k.up[0], now);
    BeginLoad(s.users, k.handler.address, k.up[0], now, PresentIds(s.users), s.nextId);
    ConnTotal(s, s', c);
  }

  lemma PerformTotal(s: State, s': State, c: u64)
    requires Perform(s, s', c) && s.nextId <= ID_LIMIT && c < s.nextId
    ensures s'.nextId == s.nextId && Total(s') < Total(s)
  {
    var ids, n, limit := PresentIds(s.users), |s.channel|, s.nextId;
    if s.conns[c].handler.todo[0].Broadcast? {
      SumUpdate(s.conns, c, s'.conns[c], n, ids, limit, limit);
      SumBroadcast(s'.conns, n, ids, limit, limit);
    } else {
      ConnTotal(s, s', c);
    }
  }

  lemma LessToDo(s: State, s': State, step: Step)
    requires SettleBase(s) && NextBy(s, s', step) && Internal(step)
    ensures s'.nextId == s.nextId && Total(s') < Total(s)
  {
    if step.RelayEventStep? {
      return;
    }
    OwnFacts(s, step.c);
    if step.ReadStep? {
      ReadTotal(s, s', step.c, step.now);
      return;
    }
    if step.PerformStep? {
      PerformTotal(s, s', step.c);
      return;
    }
    ConnLoad(s, s', step, s.nextId);
    ConnTotal(s, s', step.c);
  }

  /** How long that can go on: a run of internal steps is no longer than what there is to do at its start. */
  lemma {:induction false} RunIsBounded(run: seq<State>, steps: seq<Step>)
    requires RunBy(run, steps) && Reachable(run[0]) && AllInternal(steps)
    ensures Reachable(run[|steps|])
    ensures SettleBase(run[0]) && SettleBase(run[|steps|]) && |steps| + Total(run[|steps|]) <= Total(run[0])
    decreases |steps|
  {
    ReachableSettleBase(run[0]);
    if steps != [] {
      var n := |steps| - 1;
      var before, rest := run[..|run| - 1], steps[..n];
      forall i {:trigger Taken(before, rest, i)} | 0 <= i < |rest|
        ensures Taken(before, rest, i)
      {
        assert Taken(run, steps, i);
      }
      RunIsBounded(before, rest);
      assert Taken(run, steps, n);
      LessToDo(run[n], run[n + 1], steps[n]);
      ReachableNext(run[n], run[n + 1], steps[n]);
      ReachableSettleBase(run[n + 1]);
    }
  }

  // When it ends

  /** Some internal step is possible. */
  ghost predicate CanMove(s: State)
  {
    exists step, t :: Internal(step) && NextBy(s, t, step)
  }

  /** Nothing is left to be read, done, passed on or delivered on the connection. */
  predicate ConnAtRest(k: Conn, n: nat)
  {
    && k.down == [] && !k.handler.phase.Starting? && !k.handler.phase.Leaving?
    && (k.handler.phase.Serving? ==> k.handler.todo == [] && k.up == [] && k.handler.cursor == n)
  }

  ghost predicate AtRest(s: State)
  {
    s.handled == |s.events| && forall c :: c in s.conns ==> ConnAtRest(s.conns[c], |s.channel|)
  }

  /** The relay can handle any event. */
  lemma CanHandle(r: Relay, e: Event) returns (r': Relay)
    ensures Handles(r, e, r')
  {
    match e
    case UserConnected(id, token) => r' := r.(sessions := r.sessions[id := Session(token, false, None)]);
    case VoiceJoined(id) => r' := SetVoice(r, id, true);
    case VoiceLeft(id) => r' := SetVoice(r, id, false);
    case UserDisconnected(id) =>
      if a :| a in r.index && r.index[a] == id {
        r' := Relay(r.sessions - {id}, r.index - {a});
      } else {
        r' := Relay(r.sessions - {id}, r.index);
      }
  }

  lemma ListingMoves(s: State, c: u64)
    requires c in s.conns && s.conns[c].handler.todo != [] && s.conns[c].handler.todo[0].Collecting?
    requires s.conns[c].handler.todo[0].due !! s.conns[c].handler.todo[0].seen
    ensures CanMove(s)
  {
    var k := s.conns[c];
    var x := k.handler.todo[0];
    if a :| a in s.users && s.users[a].id in x.due {
      var u := s.users[a];
      var found := if u.username.Some? then x.found + [InfoOf(u)] else x.found;
      var action := Collecting(x.requestId, x.id, x.token, x.due - {u.id}, x.seen + {u.id}, found);
      var t := s.(conns := s.conns[c := WithTodo(k, [action] + k.handler.todo[1..])]);
      assert NextBy(s, t, VisitStep(c, a));
    } else {
      var response := LoginResponse(x.requestId, x.id, x.token, x.found);
      var t := s.(conns := s.conns[c :=
        k.(handler := k.handler.(todo := [Reply(response)] + k.handler.todo[1..], answered := true))]);
      assert NextBy(s, t, FinishSnapshotStep(c));
    }
  }

  lemma MessageMoves(s: State, c: u64)
    requires c in s.conns && s.conns[c].handler.todo != [] && !IsSnapshot(s.conns[c].handler.todo[0])
    requires Overflows(s.conns[c].handler.todo) ==> s.conns[c].handler.phase.Serving?
    ensures CanMove(s)
  {
    var k := s.conns[c];
    if Overflows(k.handler.todo) {
      var t := s.(conns := s.conns[c := k.(handler := k.handler.(phase := Crashed))]);
      assert NextBy(s, t, PanicStep(c));
      return;
    }
    var rest := WithTodo(k, k.handler.todo[1..]);
    var t := match k.handler.todo[0]
      case Reply(p) => s.(conns := s.conns[c := rest.(down := k.down + [p])])
      case Emit(e) => s.(conns := s.conns[c := rest], events := s.events + [e])
      case Broadcast(m) => s.(conns := s.conns[c := rest], channel := s.channel + [m])
      case _ => s;
    assert NextBy(s, t, PerformStep(c));
  }

  lemma WorkMoves(s: State, c: u64)
    requires SettleBase(s) && c in s.conns && s.conns[c].handler.todo != [] && !s.conns[c].handler.phase.Crashed?
    ensures CanMove(s)
  {
    OwnFacts(s, c);
    assert Here(s, c);
    var k := s.conns[c];
    assert WorkOk(k.handler) && ActionOk(c, k.handler, k.handler.todo[0]);
    if k.handler.todo[0].TakeSnapshot? {
      var x := k.handler.todo[0];
      var action := Collecting(x.requestId, x.id, x.token, PresentIds(s.users), {}, []);
      var t := s.(conns := s.conns[c := WithTodo(k, [action] + k.handler.todo[1..])]);
      assert NextBy(s, t, StartSnapshotStep(c));
    } else if k.handler.todo[0].Collecting? {
      ListingMoves(s, c);
    } else {
      MessageMoves(s, c);
    }
  }

  lemma IdleMoves(s: State, c: u64)
    requires c in s.conns && Idle(s.conns[c]) && s.conns[c].handler.cursor <= |s.channel|
    requires !ConnAtRest(s.conns[c], |s.channel|) && s.conns[c].down == []
    ensures CanMove(s)
  {
    var k := s.conns[c];
    if k.up != [] {
      var b := Begin(s.users, k.handler.address, k.up[0], 0);
      var t := s.(users := b.users, conns := s.conns[c := WithTodo(k, b.todo).(up := k.up[1..])]);
      assert NextBy(s, t, ReadStep(c, 0));
    } else {
      var m := s.channel[k.handler.cursor];
      var t := s.(conns := s.conns[c := Conn(k.handler.(cursor := k.handler.cursor + 1), k.client, k.up,
        if m.ShouldSendTo(k.handler.address) then k.down + [m.packet] else k.down)]);
      assert NextBy(s, t, ForwardStep(c));
    }
  }

  lemma DeliveryMoves(s: State, c: u64)
    requires c in s.conns && s.conns[c].down != []
    ensures CanMove(s)
  {
    var k := s.conns[c];
    var t := s.(conns := s.conns[c := k.(client := AfterReceiving(k.client, k.down[0]), down := k.down[1..])]);
    assert NextBy(s, t, ReceiveStep(c));
  }

  lemma PhaseMoves(s: State, c: u64)
    requires c in s.conns && s.conns[c].handler.todo == []
    requires s.conns[c].handler.phase.Starting? || s.conns[c].handler.phase.Leaving?
    ensures CanMove(s)
  {
    var k := s.conns[c];
    if k.handler.phase.Starting? {
      var t := s.(conns := s.conns[c := k.(handler := k.handler.(phase := Serving, cursor := |s.channel|))]);
      assert NextBy(s, t, SubscribeStep(c));
    } else {
      var t := s.(conns := s.conns[c := k.(handler := k.handler.(phase := Gone))]);
      assert NextBy(s, t, FinishStep(c));
    }
  }

  lemma ConnMoves(s: State, c: u64)
    requires SettleBase(s) && c in s.conns && !ConnAtRest(s.conns[c], |s.channel|)
    ensures CanMove(s)
  {
    var k := s.conns[c];
    if k.down != [] {
      DeliveryMoves(s, c);
      return;
    }
    if k.handler.todo != [] && !k.handler.phase.Crashed? {
      WorkMoves(s, c);
      return;
    }
    if k.handler.phase.Starting? || k.handler.phase.Leaving? {
      PhaseMoves(s, c);
      return;
    }
    OwnFacts(s, c);
    IdleMoves(s, c);
  }

  lemma MoveOfConn(s: State, t: State, step: Step)
    requires Internal(step) && !step.RelayEventStep? && NextBy(s, t, step)
    ensures step.c in s.conns
    ensures var h := s.conns[step.c].handler;
      WorkOk(h) && (h.phase.Gone? ==> h.todo == []) ==> !ConnAtRest(s.conns[step.c], |s.channel|)
  {
  }

  lemma MovesMeanUnrest(s: State, t: State, step: Step)
    requires CrashBase(s) && Internal(step) && NextBy(s, t, step)
    ensures if step.RelayEventStep? then s.handled < |s.events|
      else step.c in s.conns && !ConnAtRest(s.conns[step.c], |s.channel|)
  {
    if !step.RelayEventStep? {
      MoveOfConn(s, t, step);
      OwnFacts(s, step.c);
      assert Here(s, step.c);
      assert WorkOk(s.conns[step.c].handler);
    }
  }

  /** The system can go on by itself in exactly the states that are not at rest. */
  lemma MovesUntilRest(s: State)
    requires Reachable(s)
    ensures CanMove(s) <==> !AtRest(s)
  {
    ReachableSettleBase(s);
    if CanMove(s) {
      var step, t :| Internal(step) && NextBy(s, t, step);
      MovesMeanUnrest(s, t, step);
      return;
    }
    if s.handled != |s.events| {
      var r := CanHandle(s.relay, s.events[s.handled]);
      assert NextBy(s, s.(handled := s.handled + 1, relay := r), RelayEventStep);
    } else if c :| c in s.conns && !ConnAtRest(s.conns[c], |s.channel|) {
      ConnMoves(s, c);
    }
  }

  // What holds then

  /** Every logged-in client whose handler is in its main loop shows only users with their names and flags, and
      shows all of them if and only if the response to its own login has shown it the users whose logins are
      never announced. */
  ghost predicate AllAgree(s: State)
  {
    forall c :: c in s.conns && s.conns[c].handler.phase.Serving? && s.conns[c].client.stage.LoggedIn? ==>
      var m := s.conns[c].client.participants;
      && ListsOnlyUsers(s, c, m)
      && (AgreesExceptFor(s, c, m) <==> HasSeenUnannounced(s, c))
  }

  /** No client whose handler is in its main loop waits for an answer. */
  ghost predicate AllAnswered(s: State)
  {
    forall c :: c in s.conns && s.conns[c].handler.phase.Serving? ==> s.conns[c].client.waiting == map[]
  }

  lemma NothingOwedAtRest(s: State, c: u64)
    requires SettleBase(s) && AtRest(s) && c in s.conns
    ensures OwedToRelay(s, c) == []
    ensures s.conns[c].handler.todo == [] || s.conns[c].handler.phase.Crashed?
  {
    OwnFacts(s, c);
    assert Here(s, c);
    var h := s.conns[c].handler;
    assert WorkOk(h) && ConnAtRest(s.conns[c], |s.channel|);
    if h.phase.Crashed? {
      OverflowingWork(h.todo);
      UnrollEvents(h.todo);
    }
  }

  /** At rest the clients' lists and the relay's sessions are as right as they can be. */
  lemma RestIsRight(s: State)
    requires Reachable(s) && AtRest(s)
    ensures AllAgree(s) && AllAnswered(s) && Mirrors(s.relay.sessions, s)
  {
    ReachableSettleBase(s);
    forall c | c in s.conns
      ensures OwedToRelay(s, c) == [] && (s.conns[c].handler.todo == [] || s.conns[c].handler.phase.Crashed?)
    {
      NothingOwedAtRest(s, c);
    }
    IdleRelayIsRight(s);
    forall c | c in s.conns && s.conns[c].handler.phase.Serving?
      ensures s.conns[c].client.waiting == map[]
      ensures s.conns[c].client.stage.LoggedIn? ==> Quiescent(s, c)
    {
      assert ConnAtRest(s.conns[c], |s.channel|);
      NobodyIsLeftWaiting(s, c);
    }
    forall c | c in s.conns && s.conns[c].handler.phase.Serving? && s.conns[c].client.stage.LoggedIn?
      ensures var m := s.conns[c].client.participants;
        && ListsOnlyUsers(s, c, m)
        && (AgreesExceptFor(s, c, m) <==> HasSeenUnannounced(s, c))
    {
      QuiescentClientIsRight(s, c);
    }
  }

  /** Settling. From a reachable state, take internal steps in any order for as long as there are any. There are
      no more than `Total` counts at the start, and in the end every request on a connection that is served has
      been answered, clients show only logged-in users and lack none but those whose logins are never announced
      and whom their own login response has not shown them, and the relay's sessions mirror the server. */
  lemma ComesToRest(run: seq<State>, steps: seq<Step>)
    requires RunBy(run, steps) && Reachable(run[0]) && AllInternal(steps)
    ensures run[0].nextId <= ID_LIMIT && |steps| <= Total(run[0])
    ensures var last := run[|steps|];
      !CanMove(last) ==> AllAgree(last) && AllAnswered(last) && Mirrors(last.relay.sessions, last)
  {
    RunIsBounded(run, steps);
    TotalNonNegative(run[|steps|]);
    MovesUntilRest(run[|steps|]);
    if !CanMove(run[|steps|]) {
      RestIsRight(run[|steps|]);
    }
  }

  /** One internal step leaves less to do. */
  lemma OneMove(s: State) returns (step: Step, t: State)
    requires Reachable(s) && CanMove(s)
    ensures Internal(step) && NextBy(s, t, step) && Reachable(t)
    ensures s.nextId <= ID_LIMIT && t.nextId <= ID_LIMIT && 0 <= Total(t) < Total(s)
  {
    ReachableSettleBase(s);
    step, t :| Internal(step) && NextBy(s, t, step);
    LessToDo(s, t, step);
    ReachableNext(s, t, step);
    ReachableSettleBase(t);
    TotalNonNegative(t);
  }

  /** There is such an end: every run of internal steps can be continued to one. */
  lemma {:induction false} EndExists(s: State) returns (run: seq<State>, steps: seq<Step>)
    requires Reachable(s)
    ensures RunBy(run, steps) && run[0] == s && AllInternal(steps) && !CanMove(run[|steps|])
    decreases if s.nextId <= ID_LIMIT then Total(s) else 0
  {
    if !CanMove(s) {
      run, steps := [s], [];
    } else {
      var step, t := OneMove(s);
      var rest, later := EndExists(t);
      run, steps := [s] + rest, [step] + later;
      Prepended(s, step, rest, later);
    }
  }

  lemma Prepended(s: State, step: Step, rest: seq<State>, later: seq<Step>)
    requires RunBy(rest, later) && NextBy(s, rest[0], step)
    ensures RunBy([s] + rest, [step] + later)
  {
    var run, steps := [s] + rest, [step] + later;
    forall i {:trigger Taken(run, steps, i)} | 0 <= i < |steps|
      ensures Taken(run, steps, i)
    {
      assert i > 0 ==> Taken(rest, later, i - 1);
    }
  }
}
