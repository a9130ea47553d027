/** The participants list that a client keeps from its login response and the event stream. */
module Replica {
  import opened Bytes
  import opened Utf8Text
  import opened Sequences
  import opened Packets

  /** What the SDK tells the application. */
  datatype ClientEvent =
    | ParticipantsList(userId: u64, participants: seq<ParticipantInfo>)
    | JoinedServer(userId: u64, username: Text)
    | JoinedVoice(userId: u64)
    | LeftVoice(userId: u64)
    | LeftServer(userId: u64)
    | SentMessage(userId: u64, sentAt: u64, message: Text)
    | MuteState(userId: u64, isMuted: bool)

  /** The event handler: packets that mean nothing to the application are dropped. */
  function ToEvent(p: Packet): Option<ClientEvent>
  {
    match p
    case LoginResponse(_, id, _, participants) => Some(ParticipantsList(id, participants))
    case UserJoinedServer(participant) => Some(JoinedServer(participant.userId, participant.username))
    case UserJoinedVoice(id) => Some(JoinedVoice(id))
    case UserLeftVoice(id) => Some(LeftVoice(id))
    case UserLeftServer(id) => Some(LeftServer(id))
    case UserSentMessage(id, sentAt, message) => Some(SentMessage(id, sentAt, message))
    case UserMuteState(id, isMuted) => Some(MuteState(id, isMuted))
    case _ => None
  }

  /** `e` is what the application has to be told about packet `p`. */
  predicate Tells(p: Packet, e: ClientEvent)
  {
    match e
    case ParticipantsList(id, infos) => p.LoginResponse? && p.id == id && p.participants == infos
    case JoinedServer(id, name) =>
      p.UserJoinedServer? && p.participant.userId == id && p.participant.username == name
    case JoinedVoice(id) => p == UserJoinedVoice(id)
    case LeftVoice(id) => p == UserLeftVoice(id)
    case LeftServer(id) => p == UserLeftServer(id)
    case SentMessage(id, sentAt, message) => p == UserSentMessage(id, sentAt, message)
    case MuteState(id, isMuted) => p == UserMuteState(id, isMuted)
  }

  /** The packets that mean nothing to the application: requests, responses other than to a login, and voice data. */
  predicate Meaningless(p: Packet)
  {
    p.VoiceData? || (RequestId(p).Some? && !p.LoginResponse?)
  }

  /** Exactly what has to be told is told. */
  lemma EventsTell(p: Packet, e: ClientEvent)
    ensures ToEvent(p) == Some(e) <==> Tells(p, e)
    ensures ToEvent(p).None? <==> Meaningless(p)
  {
  }

  function EventsOfOne(p: Packet): seq<ClientEvent>
  {
    match ToEvent(p) case Some(e) => [e] case None => []
  }

  /** What the application is told about a sequence of packets. */
  function EventsOf(ps: seq<Packet>): seq<ClientEvent>
  {
    if ps == [] then [] else EventsOfOne(ps[0]) + EventsOf(ps[1..])
  }

  lemma {:induction false} EventsAppend(a: seq<Packet>, b: seq<Packet>)
    ensures EventsOf(a + b) == EventsOf(a) + EventsOf(b)
    decreases |a|
  {
    if a == [] {
      assert a + b == b;
    } else {
      assert (a + b)[0] == a[0] && (a + b)[1..] == a[1..] + b;
      EventsAppend(a[1..], b);
      Assoc(EventsOfOne(a[0]), EventsOf(a[1..]), EventsOf(b));
    }
  }

  /** `events` tells about `packets` in order: the `k`-th event is about the packet at position `at[k]`, and only
      meaningless packets are passed over. */
  predicate ToldInOrder(packets: seq<Packet>, events: seq<ClientEvent>, at: seq<nat>)
  {
    && |at| == |events|
    && (forall k, l :: 0 <= k < l < |at| ==> at[k] < at[l])
    && (forall k :: 0 <= k < |at| ==> at[k] < |packets| && Tells(packets[at[k]], events[k]))
    && (forall i :: 0 <= i < |packets| ==> i in at || Meaningless(packets[i]))
  }

  type Participants = map<u64, ParticipantInfo>

  /** A list of participants as a map. */
  function ById(infos: seq<ParticipantInfo>): Participants
  {
    if infos == [] then map[]
    else
      var last := infos[|infos| - 1];
      ById(infos[..|infos| - 1])[last.userId := last]
  }

  /** Participant `i` of the listing is the last with its id, which is `u`. */
  predicate LastOf(infos: seq<ParticipantInfo>, u: u64, i: nat)
  {
    i < |infos| && infos[i].userId == u && forall j :: i < j < |infos| ==> infos[j].userId != u
  }

  /** Of two participants with one id the later one counts, and nobody is left out. */
  lemma {:induction false} LatestCounts(infos: seq<ParticipantInfo>, u: u64)
    ensures if u in ById(infos) then exists i: nat :: LastOf(infos, u, i) && ById(infos)[u] == infos[i]
      else forall i :: 0 <= i < |infos| ==> infos[i].userId != u
    decreases |infos|
  {
    if infos != [] {
      var n := |infos| - 1;
      LatestCounts(infos[..n], u);
      if infos[n].userId == u {
        assert LastOf(infos, u, n);
      } else if u in ById(infos) {
        var i: nat :| LastOf(infos[..n], u, i) && ById(infos[..n])[u] == infos[..n][i];
        assert LastOf(infos, u, i);
      }
    }
  }

  /** The room page: its participants list and how events change it. */
  class RoomPage {
    var userId: u64
    var participants: Participants

    constructor ()
      ensures participants == map[]
    {
      userId := 0;
      participants := map[];
    }

    method OnServerEvent(event: ClientEvent)
      modifies this
      ensures forall p :: ToEvent(p) == Some(event) ==> participants == OnPacket(old(participants), p)
      ensures userId == if event.ParticipantsList? then event.userId else old(userId)
    {
      match event
      case ParticipantsList(id, infos) =>
        userId := id;
        participants := map[];
        var i := 0;
        while i < |infos|
          invariant 0 <= i <= |infos|
          invariant userId == id
          invariant participants == ById(infos[..i])
        {
          participants := participants[infos[i].userId := infos[i]];
          assert infos[..i + 1][..i] == infos[..i];
          i := i + 1;
        }
        assert infos[..i] == infos;
      case JoinedServer(id, username) =>
        participants := participants[id := ParticipantInfo(id, username, false, false)];
      case JoinedVoice(id) =>
        if id in participants {
          participants := participants[id := participants[id].(inVoice := true, isMuted := false)];
        }
      case LeftVoice(id) =>
        if id in participants {
          participants := participants[id := participants[id].(inVoice := false, isMuted := false)];
        }
      case LeftServer(id) =>
        participants := participants - {id};
      case SentMessage(_, _, _) =>
      case MuteState(id, isMuted) =>
        if id in participants {
          participants := participants[id := participants[id].(isMuted := isMuted)];
        }
    }
  }

  /** The participants list after one packet. */
  function OnPacket(m: Participants, p: Packet): Participants
  {
    match p
    case LoginResponse(_, _, _, infos) => ById(infos)
    case UserJoinedServer(info) => m[info.userId := ParticipantInfo(info.userId, info.username, false, false)]
    case UserJoinedVoice(id) => if id in m then m[id := m[id].(inVoice := true, isMuted := false)] else m
    case UserLeftVoice(id) => if id in m then m[id := m[id].(inVoice := false, isMuted := false)] else m
    case UserLeftServer(id) => m - {id}
    case UserMuteState(id, isMuted) => if id in m then m[id := m[id].(isMuted := isMuted)] else m
    case _ => m
  }

  /** The participants list after a sequence of packets. */
  function OnPackets(m: Participants, ps: seq<Packet>): Participants
    decreases |ps|
  {
    if ps == [] then m else OnPackets(OnPacket(m, ps[0]), ps[1..])
  }

  // One user's entry at a time

  type Entry = Option<ParticipantInfo>

  function Lookup(m: Participants, u: u64): Entry
  {
    if u in m then Some(m[u]) else None
  }

  /** The entry of user `u` after one packet. */
  function Apply(u: u64, e: Entry, p: Packet): Entry
  {
    match p
    case LoginResponse(_, _, _, infos) => Lookup(ById(infos), u)
    case UserJoinedServer(info) => if info.userId == u then Some(ParticipantInfo(u, info.username, false, false)) else e
    case UserJoinedVoice(id) =>
      if id == u && e.Some? then Some(e.value.(inVoice := true, isMuted := false)) else e
    case UserLeftVoice(id) =>
      if id == u && e.Some? then Some(e.value.(inVoice := false, isMuted := false)) else e
    case UserLeftServer(id) => if id == u then None else e
    case UserMuteState(id, isMuted) => if id == u && e.Some? then Some(e.value.(isMuted := isMuted)) else e
    case _ => e
  }

  /** The entry of user `u` after a sequence of packets. */
  function Replay(u: u64, e: Entry, ps: seq<Packet>): Entry
    decreases |ps|
  {
    if ps == [] then e else Replay(u, Apply(u, e, ps[0]), ps[1..])
  }

  /** A packet acts on every user's entry separately, so packets about different users commute. */
  lemma {:induction false} EntriesAreIndependent(m: Participants, ps: seq<Packet>, u: u64)
    ensures Lookup(OnPackets(m, ps), u) == Replay(u, Lookup(m, u), ps)
    decreases |ps|
  {
    if ps != [] {
      assert Lookup(OnPacket(m, ps[0]), u) == Apply(u, Lookup(m, u), ps[0]);
      EntriesAreIndependent(OnPacket(m, ps[0]), ps[1..], u);
    }
  }

  lemma {:induction false} ReplayAppend(u: u64, e: Entry, a: seq<Packet>, b: seq<Packet>)
    ensures Replay(u, e, a + b) == Replay(u, Replay(u, e, a), b)
    decreases |a|
  {
    if a == [] {
      assert a + b == b;
    } else {
      assert (a + b)[1..] == a[1..] + b;
      ReplayAppend(u, Apply(u, e, a[0]), a[1..], b);
    }
  }

  /** `p` can change the entry of `u`. */
  predicate Concerns(p: Packet, u: u64)
  {
    match p
    case LoginResponse(_, _, _, _) => true
    case UserJoinedServer(info) => info.userId == u
    case UserJoinedVoice(id) => id == u
    case UserLeftVoice(id) => id == u
    case UserLeftServer(id) => id == u
    case UserMuteState(id, _) => id == u
    case _ => false
  }

  lemma {:induction false} ReplayIgnores(u: u64, e: Entry, ps: seq<Packet>)
    requires forall i :: 0 <= i < |ps| ==> !Concerns(ps[i], u)
    ensures Replay(u, e, ps) == e
    decreases |ps|
  {
    if ps != [] {
      ReplayIgnores(u, e, ps[1..]);
    }
  }

  /** The packets of `ps` that concern `u`, in order. */
  function Concerning(u: u64, ps: seq<Packet>): seq<Packet>
  {
    if ps == [] then [] else (if Concerns(ps[0], u) then [ps[0]] else []) + Concerning(u, ps[1..])
  }

  /** Only the packets that concern a user matter to the user's entry. */
  lemma {:induction false} ReplayConcerning(u: u64, e: Entry, ps: seq<Packet>)
    ensures Replay(u, e, ps) == Replay(u, e, Concerning(u, ps))
    decreases |ps|
  {
    if ps != [] {
      var first := if Concerns(ps[0], u) then [ps[0]] else [];
      ReplayAppend(u, e, first, Concerning(u, ps[1..]));
      ReplayConcerning(u, Apply(u, e, ps[0]), ps[1..]);
    }
  }

  // Replaying old events over a newer entry

  /** `p` decides the entry of `u` whatever it was. */
  predicate Resets(p: Packet, u: u64)
  {
    || p.LoginResponse?
    || (p.UserJoinedServer? && p.participant.userId == u)
    || p == UserLeftServer(u)
  }

  predicate SetsVoice(p: Packet, u: u64)
  {
    p == UserJoinedVoice(u) || p == UserLeftVoice(u)
  }

  predicate SetsMute(p: Packet, u: u64)
  {
    SetsVoice(p, u) || (p.UserMuteState? && p.userId == u)
  }

  predicate AnyResets(ps: seq<Packet>, u: u64)
  {
    ps != [] && (Resets(ps[0], u) || AnyResets(ps[1..], u))
  }

  predicate AnySetsVoice(ps: seq<Packet>, u: u64)
  {
    ps != [] && (SetsVoice(ps[0], u) || AnySetsVoice(ps[1..], u))
  }

  predicate AnySetsMute(ps: seq<Packet>, u: u64)
  {
    ps != [] && (SetsMute(ps[0], u) || AnySetsMute(ps[1..], u))
  }

  lemma {:induction false} ResetForgets(u: u64, x: Entry, y: Entry, ps: seq<Packet>)
    requires AnyResets(ps, u)
    ensures Replay(u, x, ps) == Replay(u, y, ps)
    decreases |ps|
  {
    if !Resets(ps[0], u) {
      ResetForgets(u, Apply(u, x, ps[0]), Apply(u, y, ps[0]), ps[1..]);
    }
  }

  lemma {:induction false} AbsentStays(u: u64, ps: seq<Packet>)
    requires !AnyResets(ps, u)
    ensures Replay(u, None, ps) == None
    decreases |ps|
  {
    if ps != [] {
      AbsentStays(u, ps[1..]);
    }
  }

  /** Without resets each flag ends as the packets set it last, or as it was if they never set it. */
  lemma {:induction false} FlagsSettle(u: u64, i: ParticipantInfo, j: ParticipantInfo, ps: seq<Packet>)
    requires !AnyResets(ps, u)
    ensures var x, y := Replay(u, Some(i), ps), Replay(u, Some(j), ps);
      && x.Some? && y.Some?
      && x.value.userId == i.userId && x.value.username == i.username
      && (if AnySetsVoice(ps, u) then x.value.inVoice == y.value.inVoice else x.value.inVoice == i.inVoice)
      && (if AnySetsMute(ps, u) then x.value.isMuted == y.value.isMuted else x.value.isMuted == i.isMuted)
    decreases |ps|
  {
    if ps != [] {
      var x, y := Apply(u, Some(i), ps[0]), Apply(u, Some(j), ps[0]);
      FlagsSettle(u, x.value, y.value, ps[1..]);
      if SetsVoice(ps[0], u) && !AnySetsVoice(ps[1..], u) {
        FlagsSettle(u, y.value, x.value, ps[1..]);
      }
      if SetsMute(ps[0], u) && !AnySetsMute(ps[1..], u) {
        FlagsSettle(u, y.value, x.value, ps[1..]);
      }
    }
  }

  /** Replaying the same packets once more changes nothing. */
  lemma ReplayTwice(u: u64, e: Entry, ps: seq<Packet>)
    ensures Replay(u, Replay(u, e, ps), ps) == Replay(u, e, ps)
  {
    var once := Replay(u, e, ps);
    if AnyResets(ps, u) {
      ResetForgets(u, once, e, ps);
    } else if e.None? {
      AbsentStays(u, ps);
    } else {
      FlagsSettle(u, e.value, e.value, ps);
      FlagsSettle(u, once.value, e.value, ps);
    }
  }

  /** Replaying any final part of a history over the entry that the whole history leads to is harmless. */
  lemma StaleReplay(u: u64, before: seq<Packet>, ps: seq<Packet>)
    ensures var newest := Replay(u, None, before + ps); Replay(u, newest, ps) == newest
  {
    ReplayAppend(u, None, before, ps);
    ReplayTwice(u, Replay(u, None, before), ps);
  }

  /** A server-side change of the entry of `u` from `t` to `t'`, announced by the packets `es`. */
  predicate Announces(u: u64, t: Entry, t': Entry, es: seq<Packet>)
  {
    || (t'.Some? && t'.value == ParticipantInfo(u, t'.value.username, false, false)
        && es == [UserJoinedServer(t'.value)])
    || (t.Some? && t' == Some(t.value.(inVoice := true, isMuted := false)) && es == [UserJoinedVoice(u)])
    || (t.Some? && t' == Some(t.value.(inVoice := false, isMuted := false)) && es == [UserLeftVoice(u)])
    || (t.Some? && t'.Some? && t' == Some(t.value.(isMuted := t'.value.isMuted))
        && es == [UserMuteState(u, t'.value.isMuted)])
    || (t'.None? && es == [UserLeftServer(u)])
    || (t'.None? && es == [UserLeftServer(u), UserLeftVoice(u)])
    || (t' == t && forall i :: 0 <= i < |es| ==> !Concerns(es[i], u))
  }

  /** The announcement brings an up-to-date entry up to date again. */
  lemma AnnouncementApplies(u: u64, t: Entry, t': Entry, es: seq<Packet>)
    requires Announces(u, t, t', es)
    ensures Replay(u, t, es) == t'
  {
    if forall i :: 0 <= i < |es| ==> !Concerns(es[i], u) {
      ReplayIgnores(u, t, es);
    } else {
      ShortReplay(u, t, es);
    }
  }

  lemma ShortReplay(u: u64, t: Entry, es: seq<Packet>)
    ensures |es| == 1 ==> Replay(u, t, es) == Apply(u, t, es[0])
    ensures |es| == 2 ==> Replay(u, t, es) == Apply(u, Apply(u, t, es[0]), es[1])
  {
    if |es| == 2 {
      var rest := es[1..];
      assert rest[0] == es[1] && rest[1..] == [];
      assert Replay(u, Apply(u, t, es[0]), rest) == Replay(u, Apply(u, Apply(u, t, es[0]), rest[0]), rest[1..]);
    }
  }
}
