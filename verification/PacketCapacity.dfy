/** What fits a packet. */
module PacketCapacity {
  import opened Bytes
  import opened Utf8Text
  import opened Packets
  import opened Codec
  import opened Decoding
  import opened CodecProofs
  import opened Management
  import opened System
  import opened Registration
  import opened Invariants
  import opened Crashes

  const MAX_LOGGED_IN: nat := 1488
  const MAX_RELAYED_MESSAGE: nat := 65517

  /** The bytes that the names of `ps` take. */
  function NameBytes(ps: seq<ParticipantInfo>): nat
  {
    if ps == [] then 0 else |ps[0].username| + NameBytes(ps[1..])
  }

  lemma {:induction false} ListSize(ps: seq<ParticipantInfo>)
    ensures |Participants(ps)| == 12 * |ps| + NameBytes(ps)
  {
    if ps != [] {
      ListSize(ps[1..]);
    }
  }

  lemma LoginResponseSize(p: Packet)
    requires p.LoginResponse?
    ensures |Payload(p)| == 26 + |Participants(p.participants)|
  {
    var ids := U64(p.requestId) + U64(p.id) + U64(p.voiceToken);
    assert |ids| == 24;
    assert |Payload(p)| == |ids + ToBigEndian(|p.participants|, 2) + Participants(p.participants)|;
  }

  lemma MessageSizes(p: Packet)
    ensures p.UserSentMessage? ==> |Payload(p)| == 18 + |p.message|
    ensures p.ChatMessageRequest? ==> |Payload(p)| == 10 + |p.message|
  {
  }

  /** A login response fits a packet if and only if its entries and names leave room for its own fields. */
  lemma LoginResponseFits(rid: u64, id: u64, token: u64, ps: seq<ParticipantInfo>)
    ensures Encodable(LoginResponse(rid, id, token, ps)) <==> 12 * |ps| + NameBytes(ps) <= 65509
  {
    ListSize(ps);
    LoginResponseSize(LoginResponse(rid, id, token, ps));
  }

  predicate NamesOk(ps: seq<ParticipantInfo>)
  {
    forall i :: 0 <= i < |ps| ==> ValidUsername(ps[i].username)
  }

  lemma {:induction false} NameBytesBound(ps: seq<ParticipantInfo>)
    requires NamesOk(ps)
    ensures |ps| <= NameBytes(ps) <= MAX_USERNAME_LEN * |ps|
  {
    if ps != [] {
      assert forall i :: 0 <= i < |ps| - 1 ==> ps[1..][i] == ps[i + 1];
      NameBytesBound(ps[1..]);
    }
  }

  lemma {:induction false} LongestNames(ps: seq<ParticipantInfo>)
    requires forall i :: 0 <= i < |ps| ==> |ps[i].username| == MAX_USERNAME_LEN
    ensures NameBytes(ps) == MAX_USERNAME_LEN * |ps|
  {
    if ps != [] {
      assert forall i :: 0 <= i < |ps| - 1 ==> ps[1..][i] == ps[i + 1];
      LongestNames(ps[1..]);
    }
  }

  /** 1488 users with valid names always fit. */
  lemma ManyUsersFit(rid: u64, id: u64, token: u64, ps: seq<ParticipantInfo>)
    requires NamesOk(ps) && |ps| <= MAX_LOGGED_IN
    ensures Encodable(LoginResponse(rid, id, token, ps))
  {
    NameBytesBound(ps);
    LoginResponseFits(rid, id, token, ps);
  }

  /** With the longest names 1488 is the exact limit. */
  lemma LimitIsExact(rid: u64, id: u64, token: u64, ps: seq<ParticipantInfo>)
    requires forall i :: 0 <= i < |ps| ==> |ps[i].username| == MAX_USERNAME_LEN
    ensures Encodable(LoginResponse(rid, id, token, ps)) <==> |ps| <= MAX_LOGGED_IN
  {
    LongestNames(ps);
    LoginResponseFits(rid, id, token, ps);
  }

  /** A chat message that arrives in a request of at most 65525 bytes is broadcast again if and only if it
      is at most 65517 bytes long; otherwise encoding the broadcast panics. */
  lemma MessageCapacity(b: seq<byte>, id: u64, sentAt: u64)
    requires Decode(b).Ok? && Decode(b).value.ChatMessageRequest?
    ensures var message := Decode(b).value.message;
      && |message| <= 65525
      && (Encodable(UserSentMessage(id, sentAt, message)) <==> |message| <= MAX_RELAYED_MESSAGE)
  {
    var p := Decode(b).value;
    Normalisation(b);
    MessageSizes(p);
    MessageSizes(UserSentMessage(id, sentAt, p.message));
  }

  function Repeat(n: nat): (m: Text)
    ensures |m| == n
  {
    if n == 0 then [] else
      var rest := Repeat(n - 1);
      assert ([0x61] + rest)[1..] == rest;
      [0x61] + rest
  }

  /** Messages that cannot be broadcast do arrive. */
  lemma OversizedMessageArrives(rid: u64, n: nat)
    requires MAX_RELAYED_MESSAGE < n <= 65525
    ensures exists b: seq<byte> :: Decode(b) == Ok(ChatMessageRequest(rid, Repeat(n)), |b|)
  {
    var p := ChatMessageRequest(rid, Repeat(n));
    MessageSizes(p);
    RoundTrip(p, []);
    assert Decode(Encode(p) + []) == Ok(p, |Encode(p) + []|);
  }

  // Names in every reachable state

  predicate ActionNames(x: Action)
  {
    match x
    case Reply(p) => p.LoginResponse? ==> NamesOk(p.participants)
    case Collecting(_, _, _, _, _, found) => NamesOk(found)
    case _ => true
  }

  ghost predicate HandlerNames(h: Handler)
  {
    forall i :: 0 <= i < |h.todo| ==> ActionNames(h.todo[i])
  }

  predicate UserNames(users: Users)
  {
    forall a :: a in users && users[a].username.Some? ==> ValidUsername(users[a].username.value)
  }

  /** All names that the server stores or is about to list are valid. */
  ghost predicate NamesInv(s: State)
  {
    && UserNames(s.users)
    && forall c {:trigger Here(s, c)} :: Here(s, c) ==> HandlerNames(s.conns[c].handler)
  }

  lemma BeginKeepsNames(users: Users, a: Address, p: Packet, now: u64)
    requires UserNames(users)
    ensures var b := Begin(users, a, p, now);
      UserNames(b.users) && forall i :: 0 <= i < |b.todo| ==> ActionNames(b.todo[i])
  {
  }

  lemma ListedNames(s: State, s': State, step: Step)
    requires NextBy(s, s', step) && Lists(step) && UserNames(s.users)
    requires step.c in s.conns && HandlerNames(s.conns[step.c].handler)
    ensures UserNames(s'.users) && step.c in s'.conns && HandlerNames(s'.conns[step.c].handler)
  {
    var todo := s.conns[step.c].handler.todo;
    assert ActionNames(todo[0]);
    ListingFront(s, s', step);
    FrontNames(todo, s'.conns[step.c].handler.todo[0]);
  }

  lemma FrontNames(todo: seq<Action>, x: Action)
    requires todo != [] && (forall i :: 0 <= i < |todo| ==> ActionNames(todo[i])) && ActionNames(x)
    ensures forall i :: 0 <= i < |todo| ==> ActionNames(([x] + todo[1..])[i])
  {
  }

  lemma OtherNames(s: State, s': State, step: Step)
    requires NextBy(s, s', step) && OwnerOf(step).Some? && UserNames(s.users) && !step.ReadStep? && !Lists(step)
    requires OwnerOf(step).value in s.conns && HandlerNames(s.conns[OwnerOf(step).value].handler)
    ensures UserNames(s'.users)
    ensures OwnerOf(step).value in s'.conns && HandlerNames(s'.conns[OwnerOf(step).value].handler)
  {
    var todo := s.conns[OwnerOf(step).value].handler.todo;
    assert forall i :: 0 < i < |todo| ==> ActionNames(todo[i]);
  }

  lemma OwnNames(s: State, s': State, step: Step)
    requires NextBy(s, s', step) && OwnerOf(step).Some? && UserNames(s.users)
    requires OwnerOf(step).value in s.conns && HandlerNames(s.conns[OwnerOf(step).value].handler)
    ensures UserNames(s'.users)
    ensures OwnerOf(step).value in s'.conns && HandlerNames(s'.conns[OwnerOf(step).value].handler)
  {
    if step.ReadStep? {
      BeginKeepsNames(s.users, s.conns[step.c].handler.address, s.conns[step.c].up[0], step.now);
    } else if Lists(step) {
      ListedNames(s, s', step);
    } else {
      OtherNames(s, s', step);
    }
  }

  lemma NamesStep(s: State, s': State, step: Step)
    requires NamesInv(s) && NextBy(s, s', step)
    ensures NamesInv(s')
  {
    if OwnerOf(step).Some? {
      StepIsLocal(s, s', step);
      assert Here(s, OwnerOf(step).value);
      OwnNames(s, s', step);
    }
    forall c | Here(s', c)
      ensures HandlerNames(s'.conns[c].handler)
    {
      assert c in s.conns ==> Here(s, c);
    }
  }

  lemma ReachableNamesInv(s: State)
    requires Reachable(s)
    ensures NamesInv(s)
  {
    forall x, y, step | NamesInv(x) && NextBy(x, y, step)
      ensures NamesInv(y)
    {
      NamesStep(x, y, step);
    }
    HoldsWhenReachable(s, NamesInv);
  }

  /** In every reachable state each stored name is 1 to 32 bytes long, and a listing of up to 1488 users fits a
      login response, whatever happened while it was taken. */
  lemma ReachableNames(s: State, c: u64)
    requires Reachable(s)
    ensures forall a :: a in s.users && s.users[a].username.Some? ==> 1 <= |s.users[a].username.value| <= 32
    ensures c in s.conns && s.conns[c].handler.todo != [] && s.conns[c].handler.todo[0].Collecting? ==>
      var t := s.conns[c].handler.todo[0];
      |t.found| <= MAX_LOGGED_IN ==> Encodable(LoginResponse(t.requestId, t.id, t.token, t.found))
  {
    ReachableNamesInv(s);
    if c in s.conns && s.conns[c].handler.todo != [] && s.conns[c].handler.todo[0].Collecting? {
      assert Here(s, c);
      var t := s.conns[c].handler.todo[0];
      assert ActionNames(t);
      if |t.found| <= MAX_LOGGED_IN {
        ManyUsersFit(t.requestId, t.id, t.token, t.found);
      }
    }
  }

  /** What a handler panics over, in every reachable state: a login response listing more than 1488 users, too
      many for their names, or a chat message of more than 65517 bytes. */
  lemma WhatOverflows(s: State, c: u64)
    requires Reachable(s) && c in s.conns && s.conns[c].handler.todo != []
    ensures Overflows(s.conns[c].handler.todo) <==>
      match s.conns[c].handler.todo[0]
      case Reply(p) =>
        && p.LoginResponse? && |p.participants| > MAX_LOGGED_IN
        && 12 * |p.participants| + NameBytes(p.participants) > 65509
      case Broadcast(m) => m.packet.UserSentMessage? && |m.packet.message| > MAX_RELAYED_MESSAGE
      case _ => false
  {
    var x := s.conns[c].handler.todo[0];
    ReachableNamesInv(s);
    assert Here(s, c);
    assert ActionNames(x);
    if x.Reply? && x.packet.LoginResponse? {
      var p := x.packet;
      LoginResponseFits(p.requestId, p.id, p.voiceToken, p.participants);
      if |p.participants| <= MAX_LOGGED_IN {
        ManyUsersFit(p.requestId, p.id, p.voiceToken, p.participants);
      }
    } else if x.Broadcast? && x.message.packet.UserSentMessage? {
      MessageSizes(x.message.packet);
    }
    if Overflows(s.conns[c].handler.todo) {
      OnlyServingOverflows(s, c);
    }
  }
}
