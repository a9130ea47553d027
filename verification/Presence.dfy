/** Presence: what a client's participants list becomes once everything under way has arrived. */
module Presence {
  import opened Bytes
  import opened Sequences
  import opened Packets
  import opened Replica
  import opened Management
  import opened System
  import opened Registration
  import opened Link

  /** What the server knows about user `u`: nothing unless the user is present and logged in. */
  ghost function Truth(s: State, u: u64): Entry
  {
    if Registered(s, u) && s.users[s.conns[u].handler.address].username.Some? then
      Some(InfoOf(s.users[s.conns[u].handler.address]))
    else None
  }

  /** The packets that the handler of user `u` has yet to broadcast for the request in progress. */
  function Owed(s: State, u: u64): seq<Packet>
  {
    if u in s.conns then OwedPackets(s.conns[u].handler.todo) else []
  }

  lemma UnrollOwed(todo: seq<Action>)
    requires |todo| <= 3
    ensures |todo| == 1 ==> OwedPackets(todo) == OwedOne(todo[0])
    ensures |todo| == 2 ==> OwedPackets(todo) == OwedOne(todo[0]) + OwedOne(todo[1])
    ensures |todo| == 3 ==> OwedPackets(todo) == OwedOne(todo[0]) + OwedOne(todo[1]) + OwedOne(todo[2])
  {
    if |todo| >= 2 {
      var rest := todo[1..];
      assert rest[0] == todo[1];
      if |todo| == 3 {
        var last := rest[1..];
        assert last[0] == todo[2] && last[1..] == [];
        Assoc(OwedOne(todo[0]), OwedOne(todo[1]), OwedOne(todo[2]));
      }
    }
  }

  function OwedOne(x: Action): seq<Packet>
  {
    if x.Broadcast? then [x.message.packet] else []
  }

  /** The announcement of packet `p` of `user`. */
  function Announced(user: User, p: Packet, now: u64): seq<Packet>
  {
    match p
    case LoginRequest(_, name) =>
      if ValidUsername(name) then [UserJoinedServer(ParticipantInfo(user.id, name, false, false))] else []
    case JoinVoiceChannelRequest(_) => [UserJoinedVoice(user.id)]
    case LeaveVoiceChannelRequest(_) => [UserLeftVoice(user.id)]
    case ChatMessageRequest(_, message) => [UserSentMessage(user.id, now, message)]
    case UserMuteState(claimed, isMuted) => [UserMuteState(claimed, isMuted)]
    case _ => []
  }

  lemma BeginOwes(users: Users, a: Address, p: Packet, now: u64)
    requires a in users
    ensures OwedPackets(Begin(users, a, p, now).todo) == Announced(users[a], p, now)
  {
    UnrollOwed(Begin(users, a, p, now).todo);
  }

  /** The broadcasts from position `i` of the channel on. */
  function From(channel: seq<BroadcastMessage>, i: nat): seq<Packet>
  {
    if i <= |channel| then PacketsOf(channel[i..]) else []
  }

  /** The client's entry for `u` once everything written to its connection has arrived. */
  function Expected(k: Conn, u: u64): Entry
  {
    Replay(u, Lookup(k.client.participants, u), k.down + OwedReplies(k.handler.todo))
  }

  /** The broadcasts that the handler has yet to take from the channel, then those owed by `u`'s handler. */
  function Coming(k: Conn, channel: seq<BroadcastMessage>, owed: seq<Packet>): seq<Packet>
  {
    From(channel, k.handler.cursor) + owed
  }

  /** Nothing about user `u` has been broadcast yet. */
  ghost predicate Silent(u: u64, channel: seq<BroadcastMessage>)
  {
    forall i :: 0 <= i < |channel| ==> !Concerns(channel[i].packet, u)
  }

  /** An entry `e` at observer `k` leads to the truth; until something about the user has been broadcast,
      it is the truth already or missing. */
  ghost predicate LeadsTo(
      u: u64, e: Entry, k: Conn, channel: seq<BroadcastMessage>, owed: seq<Packet>, truth: Entry)
  {
    && Replay(u, e, Coming(k, channel, owed)) == truth
    && (Silent(u, channel) ==> e == None || e == truth)
  }

  /** What holds between an observing connection and a user with entry `truth` and owed packets `owed`:
      a logged-in observer will end up with the truth, and so will one whose snapshot has already
      settled the user's entry. */
  ghost predicate Observes(u: u64, k: Conn, channel: seq<BroadcastMessage>, owed: seq<Packet>, truth: Entry)
  {
    var h := k.handler;
    h.phase.Serving? ==>
      && (h.answered ==> LeadsTo(u, Expected(k, u), k, channel, owed, truth))
      && (h.todo != [] && h.todo[0].Collecting? && u !in h.todo[0].due ==>
            LeadsTo(u, Lookup(ById(h.todo[0].found), u), k, channel, owed, truth))
  }

  /** Names a pair of an observing connection and another user. */
  predicate Pair(s: State, c: u64, u: u64)
  {
    c in s.conns && u != c
  }

  ghost predicate ObserversInv(s: State)
  {
    forall c, u {:trigger Pair(s, c, u)} :: Pair(s, c, u) ==>
      Observes(u, s.conns[c], s.channel, Owed(s, u), Truth(s, u))
  }

  /** Names a user id. */
  predicate Whom(s: State, u: u64)
  {
    u < ID_LIMIT
  }

  /** What the server knows about a user is exactly what all the broadcasts, sent and owed, say. */
  ghost predicate HistoryInv(s: State)
  {
    forall u {:trigger Whom(s, u)} :: Whom(s, u) ==>
      Replay(u, None, From(s.channel, 0) + Owed(s, u)) == Truth(s, u)
  }

  ghost predicate PresenceInv(s: State)
  {
    ObserversInv(s) && HistoryInv(s)
  }

  /** Hence replaying undelivered old broadcasts over the newest entry leads back to it. */
  lemma StaleIsHarmless(s: State, u: u64, i: nat)
    requires HistoryInv(s) && i <= |s.channel|
    ensures Replay(u, Truth(s, u), From(s.channel, i) + Owed(s, u)) == Truth(s, u)
  {
    assert Whom(s, u);
    var before, rest := PacketsOf(s.channel[..i]), From(s.channel, i) + Owed(s, u);
    FromStart(s.channel, i);
    Assoc(before, From(s.channel, i), Owed(s, u));
    StaleReplay(u, before, rest);
  }

  lemma FromStart(channel: seq<BroadcastMessage>, i: nat)
    requires i <= |channel|
    ensures From(channel, 0) == PacketsOf(channel[..i]) + From(channel, i)
  {
    assert channel[0..] == channel[..i] + channel[i..];
  }

  lemma PresenceInit(s: State)
    requires Init(s)
    ensures PresenceInv(s)
  {
    forall u | Whom(s, u)
      ensures Replay(u, None, From(s.channel, 0) + Owed(s, u)) == Truth(s, u)
    {
      assert From(s.channel, 0) + Owed(s, u) == [];
    }
  }

  // What steps of one connection leave alone

  lemma OthersKeepTruth(s: State, s': State, d: u64, u: u64)
    requires InPlaceRegistered(s) && Local(s, s', d) && u != d
    ensures Truth(s', u) == Truth(s, u) && Owed(s', u) == Owed(s, u)
  {
    if u in s.conns && s.users != s'.users {
      assert Registered(s, d);
    }
  }

  /** The entry of the acting connection's own user. */
  lemma OwnTruth(s: State, d: u64)
    requires InPlaceRegistered(s) && d in s.conns && InPlace(s.conns[d].handler.phase)
    ensures Registered(s, d) && Me(s, d).Some?
    ensures Truth(s, d) == if Me(s, d).value.username.Some? then Some(InfoOf(Me(s, d).value)) else None
  {
    assert Registered(s, d);
  }

  // Steps that change neither a user's entry nor the broadcasts about it

  /** Nothing changes for the users, and nothing is broadcast. */
  ghost predicate UsersQuiet(s: State, s': State)
  {
    && s'.channel == s.channel
    && forall u :: Truth(s', u) == Truth(s, u) && Owed(s', u) == Owed(s, u)
  }

  lemma QuietKeepsHistory(s: State, s': State)
    requires HistoryInv(s) && UsersQuiet(s, s')
    ensures HistoryInv(s')
  {
    forall u | Whom(s', u)
      ensures Replay(u, None, From(s'.channel, 0) + Owed(s', u)) == Truth(s', u)
    {
      assert Whom(s, u);
    }
  }

  /** A quiet step of connection `d` keeps all observations if it keeps those of `d`. */
  lemma QuietKeepsPresence(s: State, s': State, d: u64)
    requires PresenceInv(s) && UsersQuiet(s, s') && d in s.conns && s'.conns.Keys == s.conns.Keys
    requires forall e :: e in s.conns && e != d ==> s'.conns[e] == s.conns[e]
    requires forall u :: u != d ==> Observes(u, s'.conns[d], s.channel, Owed(s, u), Truth(s, u))
    ensures PresenceInv(s')
  {
    QuietKeepsHistory(s, s');
    forall c, u | Pair(s', c, u)
      ensures Observes(u, s'.conns[c], s'.channel, Owed(s', u), Truth(s', u))
    {
      assert Pair(s, c, u);
    }
  }

  lemma LocalIsQuiet(s: State, s': State, d: u64)
    requires InPlaceRegistered(s) && InPlaceRegistered(s') && Local(s, s', d) && s'.channel == s.channel
    requires Truth(s', d) == Truth(s, d) && Owed(s', d) == Owed(s, d)
    ensures UsersQuiet(s, s')
  {
    forall u
      ensures Truth(s', u) == Truth(s, u) && Owed(s', u) == Owed(s, u)
    {
      if u != d {
        OthersKeepTruth(s, s', d, u);
      }
    }
  }

  /** An observer moves on without its view of `u` changing. */
  lemma SameView(u: u64, k: Conn, k': Conn, channel: seq<BroadcastMessage>, owed: seq<Packet>, truth: Entry)
    requires Observes(u, k, channel, owed, truth)
    requires k'.handler.phase.Serving? ==>
      && k.handler.phase.Serving? && k'.handler.cursor == k.handler.cursor
      && k'.handler.answered == k.handler.answered && Expected(k', u) == Expected(k, u)
      && (k'.handler.todo != [] && k'.handler.todo[0].Collecting? ==>
            k.handler.todo != [] && k.handler.todo[0] == k'.handler.todo[0])
    ensures Observes(u, k', channel, owed, truth)
  {
  }

  /** Receiving a packet does not change what is expected. */
  lemma ReceiveExpected(k: Conn, u: u64)
    requires k.down != []
    ensures Expected(Received(k), u) == Expected(k, u)
  {
    var all := k.down + OwedReplies(k.handler.todo);
    assert all[0] == k.down[0] && all[1..] == k.down[1..] + OwedReplies(k.handler.todo);
    assert Lookup(OnPacket(k.client.participants, k.down[0]), u)
        == Apply(u, Lookup(k.client.participants, u), k.down[0]);
  }

  /** Neither does writing the reply that is due. */
  lemma ReplyExpected(k: Conn, k': Conn, u: u64)
    requires k.handler.todo != [] && k.handler.todo[0].Reply? && k'.handler.todo == k.handler.todo[1..]
    requires k'.client == k.client && k'.down == k.down + [k.handler.todo[0].packet]
    ensures Expected(k', u) == Expected(k, u)
  {
    assert k'.down + OwedReplies(k'.handler.todo) == k.down + OwedReplies(k.handler.todo);
  }

  // A user's entry changes and the change is announced

  /** From `s` to `s'` the entry of user `d` changes, and exactly its announcement becomes owed. */
  ghost predicate Changes(s: State, s': State, d: u64)
  {
    && s'.channel == s.channel
    && Owed(s, d) == []
    && Announces(d, Truth(s, d), Truth(s', d), Owed(s', d))
    && forall u :: u != d ==> Truth(s', u) == Truth(s, u) && Owed(s', u) == Owed(s, u)
  }

  lemma ChangeKeepsHistory(s: State, s': State, d: u64)
    requires HistoryInv(s) && Changes(s, s', d)
    ensures HistoryInv(s')
  {
    forall u | Whom(s', u)
      ensures Replay(u, None, From(s'.channel, 0) + Owed(s', u)) == Truth(s', u)
    {
      assert Whom(s, u);
      if u == d {
        var all := From(s.channel, 0);
        assert all + [] == all;
        ReplayAppend(d, None, all, Owed(s', d));
        AnnouncementApplies(d, Truth(s, d), Truth(s', d), Owed(s', d));
      }
    }
  }

  lemma ChangeLeads(
      u: u64, e: Entry, k: Conn, channel: seq<BroadcastMessage>, truth: Entry, truth': Entry, es: seq<Packet>)
    requires LeadsTo(u, e, k, channel, [], truth) && Announces(u, truth, truth', es)
    requires Silent(u, channel) ==> truth == None
    ensures LeadsTo(u, e, k, channel, es, truth')
  {
    var q := From(channel, k.handler.cursor);
    assert Coming(k, channel, []) == q;
    AnnouncementApplies(u, truth, truth', es);
    ReplayAppend(u, e, q, es);
  }

  lemma ChangeObserved(u: u64, k: Conn, channel: seq<BroadcastMessage>, truth: Entry, truth': Entry, es: seq<Packet>)
    requires Observes(u, k, channel, [], truth) && Announces(u, truth, truth', es)
    requires Silent(u, channel) ==> truth == None
    ensures Observes(u, k, channel, es, truth')
  {
    var h := k.handler;
    if h.phase.Serving? && h.answered {
      ChangeLeads(u, Expected(k, u), k, channel, truth, truth', es);
    }
    if h.phase.Serving? && h.todo != [] && h.todo[0].Collecting? && u !in h.todo[0].due {
      ChangeLeads(u, Lookup(ById(h.todo[0].found), u), k, channel, truth, truth', es);
    }
  }

  /** Before anything about a user has been broadcast or is owed, the user is not known. */
  lemma SilentMeansUnknown(s: State, u: u64)
    requires HistoryInv(s) && Owed(s, u) == [] && Silent(u, s.channel)
    ensures Truth(s, u) == None
  {
    assert Whom(s, u);
    ReplayIgnores(u, None, From(s.channel, 0) + []);
  }

  lemma ChangeKeepsPresence(s: State, s': State, d: u64)
    requires PresenceInv(s) && Changes(s, s', d) && d in s.conns && s'.conns.Keys == s.conns.Keys
    requires forall e :: e in s.conns && e != d ==> s'.conns[e] == s.conns[e]
    requires forall u :: u != d ==> Observes(u, s'.conns[d], s.channel, Owed(s, u), Truth(s, u))
    ensures PresenceInv(s')
  {
    ChangeKeepsHistory(s, s', d);
    forall c, u | Pair(s', c, u)
      ensures Observes(u, s'.conns[c], s'.channel, Owed(s', u), Truth(s', u))
    {
      assert Pair(s, c, u);
      if u == d {
        if Silent(d, s.channel) {
          SilentMeansUnknown(s, d);
        }
        ChangeObserved(d, s.conns[c], s.channel, Truth(s, d), Truth(s', d), Owed(s', d));
      }
    }
  }

  // A broadcast is sent

  lemma FromExtended(channel: seq<BroadcastMessage>, m: BroadcastMessage, i: nat)
    requires i <= |channel|
    ensures From(channel + [m], i) == From(channel, i) + [m.packet]
  {
    assert (channel + [m])[i..] == channel[i..] + [m];
  }

  /** A packet that does not concern `u` may be inserted anywhere. */
  lemma ReplaySkips(u: u64, e: Entry, a: seq<Packet>, p: Packet, b: seq<Packet>)
    requires !Concerns(p, u)
    ensures Replay(u, e, a + [p] + b) == Replay(u, e, a + b)
  {
    ReplayAppend(u, e, a + [p], b);
    ReplayAppend(u, e, a, [p]);
    ReplayAppend(u, e, a, b);
    assert [p][1..] == [];
  }

  /** For the sender's own user the packet moves from the owed ones to the channel; for others it is
      without effect. */
  lemma SentReplay(
      u: u64, e: Entry, channel: seq<BroadcastMessage>, m: BroadcastMessage, i: nat, own: bool, owed: seq<Packet>)
    requires i <= |channel| && (!own ==> !Concerns(m.packet, u))
    ensures Replay(u, e, From(channel + [m], i) + owed)
         == Replay(u, e, From(channel, i) + if own then [m.packet] + owed else owed)
  {
    FromExtended(channel, m, i);
    var q := From(channel, i);
    if own {
      assert q + [m.packet] + owed == q + ([m.packet] + owed);
    } else {
      ReplaySkips(u, e, q, m.packet, owed);
    }
  }

  lemma SentLeads(u: u64, e: Entry, k: Conn, channel: seq<BroadcastMessage>, m: BroadcastMessage, own: bool,
                  owed: seq<Packet>, truth: Entry)
    requires LeadsTo(u, e, k, channel, if own then [m.packet] + owed else owed, truth)
    requires k.handler.cursor <= |channel| && (!own ==> !Concerns(m.packet, u))
    ensures LeadsTo(u, e, k, channel + [m], owed, truth)
  {
    SentReplay(u, e, channel, m, k.handler.cursor, own, owed);
    var longer := channel + [m];
    if Silent(u, longer) {
      assert forall i :: 0 <= i < |channel| ==> channel[i] == longer[i];
    }
  }

  lemma SentObserved(u: u64, k: Conn, channel: seq<BroadcastMessage>, m: BroadcastMessage, own: bool,
                     owed: seq<Packet>, truth: Entry)
    requires Observes(u, k, channel, if own then [m.packet] + owed else owed, truth)
    requires k.handler.cursor <= |channel| && (!own ==> !Concerns(m.packet, u))
    ensures Observes(u, k, channel + [m], owed, truth)
  {
    var h := k.handler;
    if h.phase.Serving? && h.answered {
      SentLeads(u, Expected(k, u), k, channel, m, own, owed, truth);
    }
    if h.phase.Serving? && h.todo != [] && h.todo[0].Collecting? && u !in h.todo[0].due {
      SentLeads(u, Lookup(ById(h.todo[0].found), u), k, channel, m, own, owed, truth);
    }
  }
}
