/** Replies that cannot be written: the handler goes on, but what should follow the reply never happens. */
module FailedReplies {
  import opened Bytes
  import opened Sequences
  import opened Packets
  import opened Codec
  import opened Replica
  import opened Management
  import opened RelayState
  import opened System
  import opened Link
  import opened Presence
  import opened PresenceSteps
  import opened Lifecycle
  import opened RelaySafety
  import opened ChatDelivery
  import opened ServerHandler

  /** Handling request `p` leads from `v` to `failed` if its reply cannot be written, and to `done` if it can. */
  ghost predicate BothWays(a: Address, v: View, p: Packet, now: u64, failed: View, done: View)
  {
    && a in v.users && IsClientPacket(p) && RequestId(p).Some?
    && HandlesOne(a, v, p, now, false, failed, WriteFailed)
    && HandlesOne(a, v, p, now, true, done, Done)
  }

  /** The messages broadcast from `v` to `w`. */
  function NewMessages(v: View, w: View): seq<Packet>
  {
    From(w.channel, |v.channel|)
  }

  function MessagesIn(todo: seq<Action>): seq<BroadcastMessage>
  {
    if todo == [] then []
    else (if todo[0].Broadcast? then [todo[0].message] else []) + MessagesIn(todo[1..])
  }

  lemma {:induction false} PacketsIn(todo: seq<Action>)
    ensures PacketsOf(MessagesIn(todo)) == OwedPackets(todo)
  {
    if todo != [] {
      PacketsIn(todo[1..]);
      if todo[0].Broadcast? {
        assert PacketsOf(MessagesIn(todo)) == [todo[0].message.packet] + PacketsOf(MessagesIn(todo[1..]));
      } else {
        assert MessagesIn(todo) == MessagesIn(todo[1..]);
      }
    }
  }

  /** From `v` to `w` exactly the events and messages of `todo` have been sent. */
  ghost predicate SendsAll(v: View, todo: seq<Action>, w: View)
  {
    w.users == v.users && w.events == v.events + OwedEvents(todo) && w.channel == v.channel + MessagesIn(todo)
  }

  /** The first step of a work list and the rest. */
  lemma SendsFirst(v: View, x: Action, u: View, todo: seq<Action>, w: View)
    requires todo != [] && x == todo[0] && SendsAll(u, todo[1..], w) && u.users == v.users
    requires u.events == (if x.Emit? then v.events + [x.event] else v.events)
    requires u.channel == (if x.Broadcast? then v.channel + [x.message] else v.channel)
    ensures SendsAll(v, todo, w)
  {
    if x.Emit? {
      Assoc(v.events, [x.event], OwedEvents(todo[1..]));
    } else if x.Broadcast? {
      Assoc(v.channel, [x.message], MessagesIn(todo[1..]));
    }
  }

  /** The view after the first step of a work list that is carried out to its end. */
  lemma FirstDone(v: View, todo: seq<Action>, w: View) returns (u: View)
    requires Carries(v, todo, true, w, Done) && todo != []
    ensures Carries(u, todo[1..], true, w, Done) && u.users == v.users
    ensures u.events == (if todo[0].Emit? then v.events + [todo[0].event] else v.events)
    ensures u.channel == (if todo[0].Broadcast? then v.channel + [todo[0].message] else v.channel)
  {
    match todo[0]
    case Reply(p) => u := v.(written := v.written + Encode(p));
    case Emit(e) => u := v.(events := v.events + [e]);
    case Broadcast(m) => u := v.(channel := v.channel + [m]);
    case TakeSnapshot(rid, id, token) =>
      var ps :| Lists(ps, v.users) && Writes(v, LoginResponse(rid, id, token, ps), todo[1..], true, w, Done);
      u := v.(written := v.written + Encode(LoginResponse(rid, id, token, ps)));
  }

  /** A work list that is carried out to its end sends exactly its events and messages. */
  lemma {:induction false} CarriesAll(v: View, todo: seq<Action>, w: View)
    requires Carries(v, todo, true, w, Done)
    ensures SendsAll(v, todo, w)
    decreases |todo|
  {
    if todo == [] {
      assert v.events + [] == v.events && v.channel + [] == v.channel;
    } else {
      var u := FirstDone(v, todo, w);
      CarriesAll(u, todo[1..], w);
      SendsFirst(v, todo[0], u, todo, w);
    }
  }

  /** A failed reply ends the work list at once. */
  lemma FailsAtOnce(v: View, todo: seq<Action>, w: View)
    requires Carries(v, todo, false, w, WriteFailed) && todo != [] && ItemOfAction(todo[0]) != []
    ensures w == v
  {
    if todo[0].TakeSnapshot? {
      var x := todo[0];
      var ps :| Lists(ps, v.users)
        && Writes(v, LoginResponse(x.requestId, x.id, x.token, ps), todo[1..], false, w, WriteFailed);
    }
  }

  /** Both ways the users map changes in the same way; only the way that succeeds sends the event and the
      broadcast. */
  lemma OnlyUsersChange(a: Address, v: View, p: Packet, now: u64, failed: View, done: View)
    requires BothWays(a, v, p, now, failed, done)
    ensures var b := Begin(v.users, a, p, now);
      && a in b.users && failed == v.(users := b.users) && done.users == b.users
      && done.events == v.events + OwedEvents(b.todo) && NewMessages(v, done) == OwedPackets(b.todo)
  {
    var b := Begin(v.users, a, p, now);
    BeginShape(v.users, a, p, now);
    FailsAtOnce(v.(users := b.users), b.todo, failed);
    CarriesAll(v.(users := b.users), b.todo, done);
    PacketsIn(b.todo);
    assert done.channel[|v.channel|..] == MessagesIn(b.todo);
  }

  // Observers

  /** Without the announcement of `p` observers stay right about its sender: nothing about the sender's entry
      changes. */
  predicate NothingToAnnounce(user: User, p: Packet)
  {
    match p
    case LoginRequest(_, name) => !ValidUsername(name) || user.username == Some(name)
    case JoinVoiceChannelRequest(_) => user.username.None? || (user.inVoice && !user.isMuted)
    case LeaveVoiceChannelRequest(_) => user.username.None? || (!user.inVoice && !user.isMuted)
    case _ => true
  }

  /** An observer with entry `e` and packets `q` to come that was right about the sender is still right after
      a failed reply if and only if there was nothing to announce. */
  lemma ObserversAfterFailure(
      a: Address, v: View, p: Packet, now: u64, failed: View, done: View, e: Entry, q: seq<Packet>)
    requires BothWays(a, v, p, now, failed, done)
    requires Replay(v.users[a].id, e, q) == EntryOf(v.users[a])
    ensures failed.channel == v.channel && a in failed.users
    ensures Replay(v.users[a].id, e, q) == EntryOf(failed.users[a]) <==> NothingToAnnounce(v.users[a], p)
  {
    OnlyUsersChange(a, v, p, now, failed, done);
  }

  // The relay

  /** The voice flag that `p` asks for is the one the user has. */
  predicate VoiceUnchanged(user: User, p: Packet)
  {
    match p
    case JoinVoiceChannelRequest(_) => user.inVoice
    case LeaveVoiceChannelRequest(_) => !user.inVoice
    case _ => true
  }

  /** A session that matched the sender still matches after a failed reply if and only if the voice flag has
      not changed. */
  lemma RelayAfterFailure(
      a: Address, v: View, p: Packet, now: u64, failed: View, done: View, sessions: map<u64, Session>)
    requires BothWays(a, v, p, now, failed, done)
    requires SessionMatches(sessions, v.users[a].id, Live(v.users[a].token, v.users[a].inVoice))
    ensures failed.events == v.events && a in failed.users
    ensures SessionMatches(sessions, v.users[a].id, Live(v.users[a].token, failed.users[a].inVoice))
       <==> VoiceUnchanged(v.users[a], p)
  {
    OnlyUsersChange(a, v, p, now, failed, done);
  }

  // Chat

  /** A failed reply loses the sender's message if and only if the request carries one. */
  lemma ChatAfterFailure(a: Address, v: View, p: Packet, now: u64, failed: View, done: View)
    requires BothWays(a, v, p, now, failed, done)
    ensures NewMessages(v, failed) == []
    ensures By(v.users[a].id, Chats(NewMessages(v, done))) == RequestedIn(p)
    ensures By(v.users[a].id, Chats(NewMessages(v, done))) != [] <==> p.ChatMessageRequest?
  {
    OnlyUsersChange(a, v, p, now, failed, done);
    BeginOwesChat(v.users, a, p, now, v.users[a].id);
    assert v.channel[|v.channel|..] == [];
  }
}
