/** What a handler does for a packet without interruption is a run of the system. */
module HandlerRefinement {
  import opened Bytes
  import opened Sequences
  import opened Packets
  import opened Codec
  import opened Framing
  import opened Management
  import opened System
  import opened Registration
  import opened ServerHandler

  ghost predicate RunsTo(s: State, t: State)
  {
    exists run :: IsRun(run) && run[0] == s && run[|run| - 1] == t
  }

  lemma RunsToItself(s: State)
    ensures RunsTo(s, s)
  {
    var run := [s];
    assert IsRun(run) && run[0] == s;
  }

  lemma OneStep(s: State, t: State, step: Step)
    requires NextBy(s, t, step)
    ensures RunsTo(s, t)
  {
    var run := [s, t];
    assert Next(run[0], run[1]);
    assert IsRun(run) && run[|run| - 1] == t;
  }

  lemma RunsOn(s: State, m: State, t: State)
    requires RunsTo(s, m) && RunsTo(m, t)
    ensures RunsTo(s, t)
  {
    var a :| IsRun(a) && a[0] == s && a[|a| - 1] == m;
    var b :| IsRun(b) && b[0] == m && b[|b| - 1] == t;
    var run := a + b[1..];
    JoinedRun(a, b);
    assert run[0] == s && run[|run| - 1] == t;
  }

  lemma JoinedRun(a: seq<State>, b: seq<State>)
    requires IsRun(a) && IsRun(b) && a[|a| - 1] == b[0]
    ensures IsRun(a + b[1..])
  {
    var run := a + b[1..];
    forall i | 0 <= i < |run| - 1
      ensures Next(run[i], run[i + 1])
    {
      if i < |a| - 1 {
        assert Next(a[i], a[i + 1]);
      } else {
        var k := i - (|a| - 1);
        assert run[i] == b[k] && run[i + 1] == b[k + 1];
        assert Next(b[k], b[k + 1]);
      }
    }
  }

  lemma StaysReachable(s: State, t: State)
    requires Reachable(s) && RunsTo(s, t)
    ensures Reachable(t)
  {
    var a :| IsRun(a) && Init(a[0]) && a[|a| - 1] == s;
    var b :| IsRun(b) && b[0] == s && b[|b| - 1] == t;
    var run := a + b[1..];
    JoinedRun(a, b);
    assert run[0] == a[0] && run[|run| - 1] == t;
  }

  /** The handler's view of state `s` once `written` bytes are on its connection. */
  function ViewOf(s: State, written: seq<byte>): View
  {
    View(s.users, written, s.events, s.channel)
  }

  /** From `s` to `t` the handler of connection `c` has written `replies` and either finished its work list or,
      if the outcome says so, panicked over it. */
  ghost predicate Ended(s: State, t: State, c: u64, replies: seq<Packet>, o: Outcome)
  {
    && c in s.conns && c in t.conns
    && t.users == s.users
    && t.conns == s.conns[c := t.conns[c]]
    && (if o.Done? then t.conns[c].handler.todo == [] && t.conns[c].handler.phase == s.conns[c].handler.phase
        else o.Panicked? && t.conns[c].handler.phase.Crashed?)
    && t.conns[c].up == s.conns[c].up && t.conns[c].client == s.conns[c].client
    && t.conns[c].down == s.conns[c].down + replies
  }

  // Listing the users

  function Ids(users: Users, order: seq<Address>): set<u64>
    requires forall i :: 0 <= i < |order| ==> order[i] in users
  {
    set i | 0 <= i < |order| :: users[order[i]].id
  }

  /** The listing after visiting the addresses in `order`. */
  function ListingAt(users: Users, x: Action, order: seq<Address>): Action
    requires x.TakeSnapshot? && forall i :: 0 <= i < |order| ==> order[i] in users
  {
    var seen := Ids(users, order);
    Collecting(x.requestId, x.id, x.token, PresentIds(users) - seen, seen, Infos(users, order))
  }

  function WithFirst(s: State, c: u64, x: Action): State
    requires c in s.conns && s.conns[c].handler.todo != []
  {
    s.(conns := s.conns[c := WithTodo(s.conns[c], [x] + s.conns[c].handler.todo[1..])])
  }

  ghost predicate IdsDistinct(users: Users)
  {
    forall a, b :: a in users && b in users && users[a].id == users[b].id ==> a == b
  }

  lemma OneVisit(s: State, c: u64, order: seq<Address>)
    requires c in s.conns && s.conns[c].handler.todo != [] && s.conns[c].handler.todo[0].TakeSnapshot?
    requires order != [] && forall i :: 0 <= i < |order| ==> order[i] in s.users
    requires forall i, j :: 0 <= i < j < |order| ==> order[i] != order[j]
    requires IdsDistinct(s.users)
    ensures var x, n := s.conns[c].handler.todo[0], |order| - 1;
      Visit(WithFirst(s, c, ListingAt(s.users, x, order[..n])), WithFirst(s, c, ListingAt(s.users, x, order)),
            c, order[n])
  {
    var x, n := s.conns[c].handler.todo[0], |order| - 1;
    var a := order[n];
    var before, after := ListingAt(s.users, x, order[..n]), ListingAt(s.users, x, order);
    assert Ids(s.users, order) == Ids(s.users, order[..n]) + {s.users[a].id};
    assert after.due == before.due - {s.users[a].id};
    var m, t := WithFirst(s, c, before), WithFirst(s, c, after);
    assert m.conns[c].handler.todo[1..] == s.conns[c].handler.todo[1..];
    assert after == Collecting(x.requestId, x.id, x.token, before.due - {s.users[a].id}, before.seen + {s.users[a].id},
      if s.users[a].username.Some? then before.found + [InfoOf(s.users[a])] else before.found);
    assert t.conns == m.conns[c := WithTodo(m.conns[c], [after] + m.conns[c].handler.todo[1..])];
  }

  lemma {:induction false} AllVisits(s: State, c: u64, order: seq<Address>)
    requires c in s.conns && s.conns[c].handler.todo != [] && s.conns[c].handler.todo[0].TakeSnapshot?
    requires forall i :: 0 <= i < |order| ==> order[i] in s.users
    requires forall i, j :: 0 <= i < j < |order| ==> order[i] != order[j]
    requires IdsDistinct(s.users)
    ensures RunsTo(s, WithFirst(s, c, ListingAt(s.users, s.conns[c].handler.todo[0], order)))
    decreases |order|
  {
    var x := s.conns[c].handler.todo[0];
    var t := WithFirst(s, c, ListingAt(s.users, x, order));
    if order == [] {
      assert Ids(s.users, order) == {} && PresentIds(s.users) - {} == PresentIds(s.users);
      assert ListingAt(s.users, x, order) == Collecting(x.requestId, x.id, x.token, PresentIds(s.users), {}, []);
      assert NextBy(s, t, StartSnapshotStep(c));
      OneStep(s, t, StartSnapshotStep(c));
    } else {
      var n := |order| - 1;
      AllVisits(s, c, order[..n]);
      OneVisit(s, c, order);
      var m := WithFirst(s, c, ListingAt(s.users, x, order[..n]));
      OneStep(m, t, VisitStep(c, order[n]));
      RunsOn(s, m, t);
    }
  }

  function Answered(s: State, c: u64, p: Packet): State
    requires c in s.conns && s.conns[c].handler.todo != []
  {
    s.(conns := s.conns[c := s.conns[c].(handler :=
      s.conns[c].handler.(todo := [Reply(p)] + s.conns[c].handler.todo[1..], answered := true))])
  }

  lemma ListingDone(s: State, c: u64, order: seq<Address>)
    requires c in s.conns && s.conns[c].handler.todo != [] && s.conns[c].handler.todo[0].TakeSnapshot?
    requires Visits(order, s.users.Keys) && IdsDistinct(s.users)
    ensures var x := s.conns[c].handler.todo[0];
      RunsTo(s, Answered(s, c, LoginResponse(x.requestId, x.id, x.token, Infos(s.users, order))))
  {
    var x := s.conns[c].handler.todo[0];
    var m := WithFirst(s, c, ListingAt(s.users, x, order));
    var t := Answered(s, c, LoginResponse(x.requestId, x.id, x.token, Infos(s.users, order)));
    AllVisits(s, c, order);
    assert m.conns[c].handler.todo[1..] == s.conns[c].handler.todo[1..];
    forall a | a in s.users
      ensures s.users[a].id in Ids(s.users, order)
    {
      var i :| 0 <= i < |order| && order[i] == a;
    }
    assert FinishSnapshot(m, t, c);
    OneStep(m, t, FinishSnapshotStep(c));
    RunsOn(s, m, t);
  }

  // Carrying out a work list

  lemma ReplyFirst(s: State, c: u64, p: Packet, m: State)
    requires c in s.conns && s.conns[c].handler.todo != [] && s.conns[c].handler.todo[0] == Reply(p) && Encodable(p)
    requires m == s.(conns := s.conns[c :=
      WithTodo(s.conns[c], s.conns[c].handler.todo[1..]).(down := s.conns[c].down + [p])])
    ensures RunsTo(s, m)
  {
    OneStep(s, m, PerformStep(c));
  }

  lemma RepliesJoin(w: seq<byte>, p: Packet, rs: seq<Packet>, down: seq<Packet>)
    requires Encodable(p) && AllEncodable(rs)
    ensures AllEncodable([p] + rs)
    ensures w + Encode(p) + EncodeAll(rs) == w + EncodeAll([p] + rs)
    ensures down + [p] + rs == down + ([p] + rs)
  {
    Assoc(w, Encode(p), EncodeAll(rs));
    Assoc(down, [p], rs);
  }

  /** Nothing is written and nothing changes but that the handler has panicked. */
  lemma PanicsOver(s: State, c: u64, v: View) returns (t: State, replies: seq<Packet>)
    requires c in s.conns && v == ViewOf(s, v.written)
    requires s.conns[c].handler.phase.Serving? && Overflows(s.conns[c].handler.todo)
    ensures RunsTo(s, t) && Ended(s, t, c, replies, Panicked) && AllEncodable(replies)
    ensures v == ViewOf(t, v.written + EncodeAll(replies))
  {
    var k := s.conns[c];
    t, replies := s.(conns := s.conns[c := k.(handler := k.handler.(phase := Crashed))]), [];
    OneStep(s, t, PanicStep(c));
    assert v.written + [] == v.written && k.down + [] == k.down;
  }

  lemma {:induction false} CarryOutReply(s: State, c: u64, p: Packet, v: View, v': View, o: Outcome)
      returns (t: State, replies: seq<Packet>)
    requires c in s.conns && IdsDistinct(s.users) && v == ViewOf(s, v.written)
    requires s.conns[c].handler.todo != [] && s.conns[c].handler.todo[0] == Reply(p)
    requires Writes(v, p, s.conns[c].handler.todo[1..], true, v', o)
    requires o.Done? || s.conns[c].handler.phase.Serving?
    ensures RunsTo(s, t) && Ended(s, t, c, replies, o) && AllEncodable(replies)
    ensures v' == ViewOf(t, v.written + EncodeAll(replies))
    decreases |s.conns[c].handler.todo|, 0
  {
    if !Encodable(p) {
      t, replies := PanicsOver(s, c, v);
      return;
    }
    var m := s.(conns := s.conns[c :=
      WithTodo(s.conns[c], s.conns[c].handler.todo[1..]).(down := s.conns[c].down + [p])]);
    ReplyFirst(s, c, p, m);
    var rs;
    t, rs := CarryOut(m, c, v.(written := v.written + Encode(p)), v', o);
    RunsOn(s, m, t);
    replies := [p] + rs;
    RepliesJoin(v.written, p, rs, s.conns[c].down);
  }

  /** Carrying out a work list on a socket that accepts data is a run of the system, whether it comes to its
      end or to a panic, and it writes the bytes of its replies. */
  lemma {:induction false} CarryOut(s: State, c: u64, v: View, v': View, o: Outcome)
      returns (t: State, replies: seq<Packet>)
    requires c in s.conns && IdsDistinct(s.users) && v == ViewOf(s, v.written)
    requires Carries(v, s.conns[c].handler.todo, true, v', o)
    requires o.Done? || s.conns[c].handler.phase.Serving?
    ensures RunsTo(s, t) && Ended(s, t, c, replies, o) && AllEncodable(replies)
    ensures v' == ViewOf(t, v.written + EncodeAll(replies))
    decreases |s.conns[c].handler.todo|, 2
  {
    var todo := s.conns[c].handler.todo;
    if todo == [] {
      t, replies := s, [];
      RunsToItself(s);
      assert v.written + [] == v.written && s.conns[c].down + [] == s.conns[c].down;
      assert s.conns == s.conns[c := s.conns[c]];
      return;
    }
    if todo[0].Reply? {
      t, replies := CarryOutReply(s, c, todo[0].packet, v, v', o);
      return;
    }
    if todo[0].TakeSnapshot? {
      t, replies := CarryOutLogin(s, c, v, v', o);
      return;
    }
    if Overflows(todo) {
      t, replies := PanicsOver(s, c, v);
      return;
    }
    var m := PassOn(s, c, v);
    t, replies := CarryOut(m, c, ViewOf(m, v.written), v', o);
    RunsOn(s, m, t);
  }

  lemma PassOn(s: State, c: u64, v: View) returns (m: State)
    requires c in s.conns && s.conns[c].handler.todo != [] && v == ViewOf(s, v.written)
    requires s.conns[c].handler.todo[0].Emit? || s.conns[c].handler.todo[0].Broadcast?
    requires !Overflows(s.conns[c].handler.todo)
    ensures RunsTo(s, m) && m.users == s.users
    ensures m.conns == s.conns[c := WithTodo(s.conns[c], s.conns[c].handler.todo[1..])]
    ensures var x := s.conns[c].handler.todo[0];
      ViewOf(m, v.written) ==
        if x.Emit? then v.(events := v.events + [x.event]) else v.(channel := v.channel + [x.message])
  {
    var x := s.conns[c].handler.todo[0];
    m := s.(conns := s.conns[c := WithTodo(s.conns[c], s.conns[c].handler.todo[1..])]);
    m := if x.Emit? then m.(events := s.events + [x.event]) else m.(channel := s.channel + [x.message]);
    OneStep(s, m, PerformStep(c));
  }

  lemma {:induction false} CarryOutLogin(s: State, c: u64, v: View, v': View, o: Outcome)
      returns (t: State, replies: seq<Packet>)
    requires c in s.conns && IdsDistinct(s.users) && v == ViewOf(s, v.written)
    requires s.conns[c].handler.todo != [] && s.conns[c].handler.todo[0].TakeSnapshot?
    requires Carries(v, s.conns[c].handler.todo, true, v', o)
    requires o.Done? || s.conns[c].handler.phase.Serving?
    ensures RunsTo(s, t) && Ended(s, t, c, replies, o) && AllEncodable(replies)
    ensures v' == ViewOf(t, v.written + EncodeAll(replies))
    decreases |s.conns[c].handler.todo|, 1
  {
    var order, p := PickListing(v, s.conns[c].handler.todo, v', o);
    ListingDone(s, c, order);
    var a := Answered(s, c, p);
    assert a.conns[c].handler.todo[1..] == s.conns[c].handler.todo[1..];
    t, replies := CarryOutReply(a, c, p, v, v', o);
    RunsOn(s, a, t);
    EndedSince(s, a, t, c, p, replies, o);
  }

  lemma EndedSince(s: State, a: State, t: State, c: u64, p: Packet, replies: seq<Packet>, o: Outcome)
    requires c in s.conns && s.conns[c].handler.todo != [] && a == Answered(s, c, p) && Ended(a, t, c, replies, o)
    ensures Ended(s, t, c, replies, o)
  {
    assert a.conns[c := t.conns[c]] == s.conns[c := t.conns[c]];
  }

  lemma PickListing(v: View, todo: seq<Action>, v': View, o: Outcome) returns (order: seq<Address>, p: Packet)
    requires todo != [] && todo[0].TakeSnapshot? && Carries(v, todo, true, v', o)
    ensures Visits(order, v.users.Keys)
    ensures p == LoginResponse(todo[0].requestId, todo[0].id, todo[0].token, Infos(v.users, order))
    ensures Writes(v, p, todo[1..], true, v', o)
  {
    var x := todo[0];
    var ps :| Lists(ps, v.users) && Writes(v, LoginResponse(x.requestId, x.id, x.token, ps), todo[1..], true, v', o);
    order :| Visits(order, v.users.Keys) && ps == Infos(v.users, order);
    p := LoginResponse(x.requestId, x.id, x.token, ps);
  }

  /** A request that is handled without interruption, on a socket that accepts data, is a run of the system: the
      users, the relay's events and the broadcasts end up as the handler object leaves them, and the bytes it
      has written are those of the replies now on the connection. If the object panics, so does the handler. */
  lemma UninterruptedRequest(s: State, c: u64, now: u64, v: View, v': View, o: Outcome)
      returns (t: State, replies: seq<Packet>)
    requires RegistrationInv(s) && c in s.conns && Idle(s.conns[c]) && s.conns[c].up != []
    requires v == ViewOf(s, v.written)
    requires HandlesOne(s.conns[c].handler.address, v, s.conns[c].up[0], now, true, v', o)
    ensures RunsTo(s, t) && c in t.conns && AllEncodable(replies)
    ensures v' == ViewOf(t, v.written + EncodeAll(replies))
    ensures if o.Done? then Idle(t.conns[c]) else o.Panicked? && t.conns[c].handler.phase.Crashed?
    ensures t.conns[c].up == s.conns[c].up[1..] && t.conns[c].down == s.conns[c].down + replies
  {
    assert Registered(s, c);
    var k := s.conns[c];
    var b := Begin(s.users, k.handler.address, k.up[0], now);
    var m := s.(users := b.users, conns := s.conns[c := WithTodo(k, b.todo).(up := k.up[1..])]);
    assert Read(s, m, c, now);
    OneStep(s, m, ReadStep(c, now));
    BeginKeepsIds(s.users, k.handler.address, k.up[0], now);
    t, replies := CarryOut(m, c, v.(users := b.users), v', o);
    RunsOn(s, m, t);
  }

  lemma BeginKeepsIds(users: Users, a: Address, p: Packet, now: u64)
    requires a in users && IdsDistinct(users)
    ensures IdsDistinct(Begin(users, a, p, now).users)
  {
  }

  // The end of a connection

  predicate OnlyBroadcasts(todo: seq<Action>)
  {
    forall i :: 0 <= i < |todo| ==> todo[i].Broadcast?
  }

  /** One more event at the end of a work list without replies. */
  lemma {:induction false} CarriesEvent(v: View, todo: seq<Action>, writes: bool, v': View, e: Event)
    requires OnlyBroadcasts(todo) && Carries(v, todo, writes, v', Done)
    ensures Carries(v, todo + [Emit(e)], true, v'.(events := v'.events + [e]), Done)
    decreases |todo|
  {
    var longer := todo + [Emit(e)];
    if todo == [] {
      assert longer == [Emit(e)] && longer[1..] == [];
    } else {
      var m := todo[0].message;
      CarriesEvent(v.(channel := v.channel + [m]), todo[1..], writes, v', e);
      assert longer[0] == todo[0] && longer[1..] == todo[1..] + [Emit(e)];
    }
  }

  /** A disconnection handled without interruption, and the event that follows it, are a run of the system at
      whose end the handler is gone. */
  lemma UninterruptedDisconnect(s: State, c: u64, v: View, v': View) returns (t: State)
    requires RegistrationInv(s) && c in s.conns && Idle(s.conns[c]) && v == ViewOf(s, v.written)
    requires var b := BeginDisconnect(s.users, s.conns[c].handler.address);
      Carries(v.(users := b.users), b.todo, false, v', Done)
    ensures RunsTo(s, t) && c in t.conns && t.conns[c].handler.phase.Gone?
    ensures t.users == v'.users && t.channel == v'.channel && t.events == v'.events + [UserDisconnected(c)]
  {
    var k := s.conns[c];
    var b := BeginDisconnect(s.users, k.handler.address);
    var todo := b.todo + [Emit(UserDisconnected(c))];
    var m := s.(users := b.users, conns := s.conns[c := k.(handler := k.handler.(phase := Leaving, todo := todo))]);
    assert Hangup(s, m, c);
    OneStep(s, m, HangupStep(c));
    CarriesEvent(v.(users := b.users), b.todo, false, v', UserDisconnected(c));
    var n, replies := CarryOut(m, c, v.(users := b.users), v'.(events := v'.events + [UserDisconnected(c)]), Done);
    RunsOn(s, m, n);
    t := n.(conns := n.conns[c := n.conns[c].(handler := n.conns[c].handler.(phase := Gone))]);
    OneStep(n, t, FinishStep(c));
    RunsOn(s, n, t);
  }
}
