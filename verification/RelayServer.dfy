/** The voice relay server, proved against the transition functions of `RelayState`. */
module RelayServer {
  import opened Bytes
  import opened Packets
  import opened Codec
  import opened Decoding
  import opened CodecProofs
  import opened CodecIO
  import opened Management
  import opened RelayState
  import opened System
  import opened VoiceAddresses

  /** A UDP datagram and where it is sent. */
  datatype Datagram = Datagram(to: Address, bytes: seq<byte>)

  predicate Enumerates(ids: seq<u64>, all: set<u64>)
  {
    && (forall i, j :: 0 <= i < j < |ids| ==> ids[i] != ids[j])
    && (forall i :: 0 <= i < |ids| ==> ids[i] in all)
    && (forall id :: id in all ==> id in ids)
  }

  /** Every user in voice other than the sender has an address. */
  predicate AllAddressed(r: Relay, sender: u64)
  {
    forall id :: id in Recipients(r, sender) ==> r.sessions[id].udpAddress.Some?
  }

  predicate AddressedTo(r: Relay, ids: seq<u64>, bytes: seq<byte>, sent: seq<Datagram>)
  {
    && |sent| == |ids|
    && forall i :: 0 <= i < |ids| ==>
         ids[i] in r.sessions && r.sessions[ids[i]].udpAddress == Some(sent[i].to) && sent[i].bytes == bytes
  }

  /** `sent` is one datagram with contents `bytes` for each recipient of the sender's voice. */
  ghost predicate FansOut(r: Relay, sender: u64, bytes: seq<byte>, sent: seq<Datagram>)
  {
    exists ids :: Enumerates(ids, Recipients(r, sender)) && AddressedTo(r, ids, bytes, sent)
  }

  /** Voice data as it is passed on: in the name of the user that the address belongs to. */
  function InNameOf(p: Packet, sender: u64): Packet
    requires p.VoiceData?
  {
    VoiceData(sender, p.sequence, p.timestamp, p.data)
  }

  /** What was sent for voice data `p` from `src`; a recipient without an address is a panic. */
  ghost predicate Forwards(r: Relay, src: Address, p: Packet, sent: seq<Datagram>, panicked: bool)
    requires p.VoiceData?
  {
    if src !in r.index then sent == [] && !panicked
    else
      var sender := r.index[src];
      && Encodable(InNameOf(p, sender))
      && (panicked <==> !AllAddressed(r, sender))
      && if panicked then sent == [] else FansOut(r, sender, Encode(InNameOf(p, sender)), sent)
  }

  predicate HoldsToken(r: Relay, id: u64, token: u64)
  {
    id in r.sessions && r.sessions[id].token == token
  }

  /** The relay's answer to an authentication request, going from `r` to `r'`. */
  ghost predicate Admits(r: Relay, src: Address, rid: u64, token: u64, sent: seq<Datagram>, r': Relay)
  {
    if exists id :: HoldsToken(r, id, token) then
      && (exists id :: HoldsToken(r, id, token) && r' == Authenticate(r, src, id))
      && Encodable(VoiceAuthResponse(rid, true))
      && sent == [Datagram(src, Encode(VoiceAuthResponse(rid, true)))]
    else r' == r && sent == []
  }

  /** What the relay does with a datagram from `src`. */
  ghost predicate Responds(r: Relay, src: Address, data: seq<byte>, sent: seq<Datagram>, panicked: bool, r': Relay)
  {
    if Decode(data).Ok? && Decode(data).value.VoiceAuthRequest? then
      !panicked && Admits(r, src, Decode(data).value.requestId, Decode(data).value.voiceToken, sent, r')
    else if Decode(data).Ok? && Decode(data).value.VoiceData? then
      r' == r && Forwards(r, src, Decode(data).value, sent, panicked)
    else r' == r && sent == [] && !panicked
  }

  /** Forwarded voice data fits a datagram no longer than the one received, and decodes to the same sequence
      number, timestamp and data in the name of the sender. */
  lemma ForwardedDecodes(b: seq<byte>, sender: u64)
    requires Decode(b).Ok? && Decode(b).value.VoiceData?
    ensures var q := InNameOf(Decode(b).value, sender);
      Encodable(q) && |Encode(q)| <= |b| && Decode(Encode(q)) == Ok(q, |Encode(q)|)
  {
    var q := InNameOf(Decode(b).value, sender);
    Normalisation(b);
    RoundTrip(q, []);
    assert Encode(q) + [] == Encode(q);
  }

  /** The voice relay server. */
  class VoiceRelayServer {
    var sessions: map<u64, Session>
    var idsByAddresses: map<Address, u64>

    constructor ()
      ensures Contents() == Relay(map[], map[])
    {
      sessions := map[];
      idsByAddresses := map[];
    }

    function Contents(): Relay
      reads this
    {
      Relay(sessions, idsByAddresses)
    }

    /** Handles one event from the management server. */
    method HandleEvent(event: Event)
      modifies this
      ensures Handles(old(Contents()), event, Contents())
      ensures match event
        case UserConnected(id, token) =>
          sessions == old(sessions)[id := Session(token, false, None)] && idsByAddresses == old(idsByAddresses)
        case VoiceJoined(id) =>
          && sessions == (if id in old(sessions) then old(sessions)[id := old(sessions)[id].(inVoice := true)]
                          else old(sessions))
          && idsByAddresses == old(idsByAddresses)
        case VoiceLeft(id) =>
          && sessions == (if id in old(sessions) then old(sessions)[id := old(sessions)[id].(inVoice := false)]
                          else old(sessions))
          && idsByAddresses == old(idsByAddresses)
        case UserDisconnected(id) =>
          && sessions == old(sessions) - {id}
          && ((forall a :: a in old(idsByAddresses) ==> old(idsByAddresses)[a] != id) ==>
                idsByAddresses == old(idsByAddresses))
          && ((exists a :: a in old(idsByAddresses) && old(idsByAddresses)[a] == id) ==>
                exists a :: a in old(idsByAddresses) && old(idsByAddresses)[a] == id
                  && idsByAddresses == old(idsByAddresses) - {a})
    {
      match event
      case UserConnected(id, token) =>
        sessions := sessions[id := Session(token, false, None)];
      case VoiceJoined(id) =>
        if id in sessions {
          sessions := sessions[id := sessions[id].(inVoice := true)];
        }
      case VoiceLeft(id) =>
        if id in sessions {
          sessions := sessions[id := sessions[id].(inVoice := false)];
        }
      case UserDisconnected(id) =>
        var address := FindAddress(id);
        if address.Some? {
          idsByAddresses := idsByAddresses - {address.value};
        }
        sessions := sessions - {id};
    }

    /** Searches the address index for one address of user `id`. */
    method FindAddress(id: u64) returns (r: Option<Address>)
      ensures r.Some? ==> r.value in idsByAddresses && idsByAddresses[r.value] == id
      ensures r.None? ==> forall a :: a in idsByAddresses ==> idsByAddresses[a] != id
    {
      var left := idsByAddresses.Keys;
      while left != {}
        invariant left <= idsByAddresses.Keys
        invariant forall a :: a in idsByAddresses && a !in left ==> idsByAddresses[a] != id
        decreases |left|
      {
        var a :| a in left;
        if idsByAddresses[a] == id {
          return Some(a);
        }
        left := left - {a};
      }
      return None;
    }

    /** Searches the sessions for one with the given token. */
    method FindToken(token: u64) returns (r: Option<u64>)
      ensures r.Some? ==> HoldsToken(Contents(), r.value, token)
      ensures r.None? ==> forall id :: !HoldsToken(Contents(), id, token)
    {
      var left := sessions.Keys;
      while left != {}
        invariant left <= sessions.Keys
        invariant forall id :: id in sessions && id !in left ==> sessions[id].token != token
        decreases |left|
      {
        var id :| id in left;
        if sessions[id].token == token {
          return Some(id);
        }
        left := left - {id};
      }
      return None;
    }

    /** Handles one datagram. */
    method HandlePacket(src: Address, data: seq<byte>) returns (sent: seq<Datagram>, panicked: bool)
      modifies this
      ensures Responds(old(Contents()), src, data, sent, panicked, Contents())
    {
      sent, panicked := [], false;
      var r := DecodePacket(data);
      if r.Success? && r.value.0.VoiceAuthRequest? {
        var user := FindToken(r.value.0.voiceToken);
        if user.Some? {
          sent := AuthenticateUser(src, user.value, sessions[user.value], r.value.0.requestId, r.value.0.voiceToken);
        }
      } else if r.Success? && r.value.0.VoiceData? {
        if src in idsByAddresses {
          ForwardedDecodes(data, idsByAddresses[src]);
          ghost var ids;
          sent, panicked, ids := ForwardVoicePacket(idsByAddresses[src], r.value.0);
        }
      }
    }

    method AuthenticateUser(src: Address, id: u64, session: Session, rid: u64, token: u64) returns (sent: seq<Datagram>)
      requires HoldsToken(Contents(), id, token) && session == sessions[id]
      modifies this
      ensures Contents() == Authenticate(old(Contents()), src, id)
      ensures sessions == old(sessions)[id := Session(token, session.inVoice, Some(src))]
      ensures idsByAddresses == old(idsByAddresses)[src := id]
      ensures Encodable(VoiceAuthResponse(rid, true))
      ensures sent == [Datagram(src, Encode(VoiceAuthResponse(rid, true)))]
    {
      var valid := session.token == token;
      if valid {
        sessions := sessions[id := session.(udpAddress := Some(src))];
        idsByAddresses := idsByAddresses[src := id];
      }
      var response := EncodePacket(VoiceAuthResponse(rid, valid));
      sent := [Datagram(src, response.value)];
    }

    /** Passes voice data on to everyone in voice except its sender. */
    method ForwardVoicePacket(sender: u64, p: Packet)
        returns (sent: seq<Datagram>, panicked: bool, ghost ids: seq<u64>)
      requires p.VoiceData? && Encodable(InNameOf(p, sender))
      ensures panicked <==> !AllAddressed(Contents(), sender)
      ensures if panicked then sent == []
        else FansOut(Contents(), sender, Encode(InNameOf(p, sender)), sent)
      ensures panicked <==>
        exists id :: id in sessions && sessions[id].inVoice && id != sender && sessions[id].udpAddress.None?
      ensures !panicked ==>
        && |sent| == |ids| && (forall i, j :: 0 <= i < j < |ids| ==> ids[i] != ids[j])
        && (forall id :: id in ids <==> id in sessions && sessions[id].inVoice && id != sender)
        && forall i :: 0 <= i < |sent| ==>
             && sessions[ids[i]].udpAddress == Some(sent[i].to)
             && sent[i].bytes == Encode(VoiceData(sender, p.sequence, p.timestamp, p.data))
    {
      var encoded := EncodePacket(InNameOf(p, sender));
      sent, panicked := [], false;
      ids := [];
      var left := sessions.Keys;
      while left != {}
        invariant left <= sessions.Keys
        invariant Enumerates(ids, Recipients(Contents(), sender) - left)
        invariant AddressedTo(Contents(), ids, encoded.value, sent)
        decreases |left|
      {
        var id :| id in left;
        if sessions[id].inVoice && id != sender {
          if sessions[id].udpAddress.None? {
            assert id in Recipients(Contents(), sender);
            return [], true, [];
          }
          sent := sent + [Datagram(sessions[id].udpAddress.value, encoded.value)];
          ids := ids + [id];
        }
        left := left - {id};
      }
      assert Recipients(Contents(), sender) - left == Recipients(Contents(), sender);
    }
  }

  // What follows for the whole system

  /** Forwarding correctness: exactly the users in voice other than the one whom the sender's address belongs to get a
      datagram, one each, at the user's address, and it decodes to the sequence number, timestamp and data received,
      in the name of the address's user whatever id was claimed. */
  lemma ForwardingCorrect(r: Relay, src: Address, b: seq<byte>, sent: seq<Datagram>, r': Relay) returns (ids: seq<u64>)
    requires Decode(b).Ok? && Decode(b).value.VoiceData? && src in r.index
    requires Responds(r, src, b, sent, false, r')
    ensures |sent| == |ids| && forall i, j :: 0 <= i < j < |ids| ==> ids[i] != ids[j]
    ensures forall id :: id in ids <==> id in r.sessions && r.sessions[id].inVoice && id != r.index[src]
    ensures forall i :: 0 <= i < |sent| ==> r.sessions[ids[i]].udpAddress == Some(sent[i].to)
    ensures forall i :: 0 <= i < |sent| ==>
      && Decode(sent[i].bytes).Ok? && Decode(sent[i].bytes).next == |sent[i].bytes| <= |b|
      && var p, q := Decode(b).value, Decode(sent[i].bytes).value;
         && q.VoiceData? && q.userId == r.index[src]
         && q.sequence == p.sequence && q.timestamp == p.timestamp && q.data == p.data
  {
    var sender := r.index[src];
    ForwardedDecodes(b, sender);
    var bytes := Encode(InNameOf(Decode(b).value, sender));
    ids :| Enumerates(ids, Recipients(r, sender)) && AddressedTo(r, ids, bytes, sent);
  }

  /** As long as the index is exact nobody hears the own voice: nothing is sent to the address it came from. */
  lemma NobodyHearsThemselves(r: Relay, src: Address, b: seq<byte>, sent: seq<Datagram>, r': Relay)
    requires Decode(b).Ok? && Decode(b).value.VoiceData? && IndexExact(r)
    requires Responds(r, src, b, sent, false, r')
    ensures forall i :: 0 <= i < |sent| ==> sent[i].to != src
  {
    if src in r.index {
      var ids := ForwardingCorrect(r, src, b, sent, r');
      forall i | 0 <= i < |sent|
        ensures sent[i].to != src
      {
        assert r.index[sent[i].to] == ids[i];
      }
    }
  }

  /** `r'` is `r` after some user whose session has the token has been let in from address `src`. */
  ghost predicate LetIn(r: Relay, src: Address, token: u64, r': Relay)
  {
    && src in r'.index && r'.index == r.index[src := r'.index[src]]
    && var id := r'.index[src];
       && id in r.sessions && r.sessions[id].token == token
       && r'.sessions == r.sessions[id := Session(token, r.sessions[id].inVoice, Some(src))]
  }

  lemma AdmittedOutcome(r: Relay, src: Address, rid: u64, token: u64, sent: seq<Datagram>, r': Relay, id: u64)
    requires Admits(r, src, rid, token, sent, r')
    requires id in r.sessions && r.sessions[id].token == token
    ensures LetIn(r, src, token, r')
    ensures |sent| == 1 && sent[0].to == src
    ensures Decode(sent[0].bytes) == Ok(VoiceAuthResponse(rid, true), |sent[0].bytes|)
  {
    var response := VoiceAuthResponse(rid, true);
    RoundTrip(response, []);
    assert HoldsToken(r, id, token);
    assert Encode(response) + [] == Encode(response);
  }

  /** What else a datagram can lead to: with the token of a session its sender is let in as that session's user and
      told so; nothing comes of an unknown token, of voice data from an unknown address, or of anything else. */
  lemma DatagramOutcome(r: Relay, src: Address, b: seq<byte>, sent: seq<Datagram>, panicked: bool, r': Relay)
    requires Responds(r, src, b, sent, panicked, r')
    ensures Decode(b).Err? || !(Decode(b).value.VoiceAuthRequest? || Decode(b).value.VoiceData?) ==>
      r' == r && sent == [] && !panicked
    ensures Decode(b).Ok? && Decode(b).value.VoiceData? ==>
      r' == r && (src !in r.index ==> sent == [] && !panicked)
    ensures Decode(b).Ok? && Decode(b).value.VoiceAuthRequest? ==>
      var rid, token := Decode(b).value.requestId, Decode(b).value.voiceToken;
      && !panicked
      && if exists id :: id in r.sessions && r.sessions[id].token == token then
           && LetIn(r, src, token, r') && |sent| == 1 && sent[0].to == src
           && Decode(sent[0].bytes) == Ok(VoiceAuthResponse(rid, true), |sent[0].bytes|)
         else r' == r && sent == []
  {
    if Decode(b).Ok? && Decode(b).value.VoiceAuthRequest? {
      var rid, token := Decode(b).value.requestId, Decode(b).value.voiceToken;
      if id :| id in r.sessions && r.sessions[id].token == token {
        AdmittedOutcome(r, src, rid, token, sent, r', id);
      }
    }
  }

  // Who speaks after a departure

  /** The datagram carries voice data in the name of user `id`. */
  predicate InTheNameOf(bytes: seq<byte>, id: u64)
  {
    Decode(bytes).Ok? && Decode(bytes).value.VoiceData? && Decode(bytes).value.userId == id
  }

  /** Some datagram from somewhere makes the relay send voice data in the name of user `id`. */
  ghost predicate CanSpeakFor(r: Relay, id: u64)
  {
    exists src, data, sent: seq<Datagram>, r', i ::
      Responds(r, src, data, sent, false, r') && 0 <= i < |sent| && InTheNameOf(sent[i].bytes, id)
  }

  lemma {:induction false} Enumeration(all: set<u64>) returns (ids: seq<u64>)
    ensures Enumerates(ids, all)
    decreases |all|
  {
    if all == {} {
      return [];
    }
    var id :| id in all;
    var rest := Enumeration(all - {id});
    ids := [id] + rest;
    assert forall x :: x in all ==> x == id || x in rest;
  }

  /** The smallest voice datagram. */
  function NoSound(): Packet
  {
    VoiceData(0, 0, 0, [])
  }

  lemma NoSoundArrives()
    ensures Encodable(NoSound()) && Decode(Encode(NoSound())) == Ok(NoSound(), |Encode(NoSound())|)
  {
    RoundTrip(NoSound(), []);
    assert Encode(NoSound()) + [] == Encode(NoSound());
  }

  /** One datagram for each recipient. */
  lemma SentToAll(r: Relay, id: u64, bytes: seq<byte>) returns (sent: seq<Datagram>)
    requires AllAddressed(r, id) && Recipients(r, id) != {}
    ensures FansOut(r, id, bytes, sent) && sent != [] && sent[0].bytes == bytes
  {
    var ids := Enumeration(Recipients(r, id));
    sent := [];
    for i := 0 to |ids|
      invariant |sent| == i && AddressedTo(r, ids[..i], bytes, sent)
    {
      assert ids[i] in Recipients(r, id);
      sent := sent + [Datagram(r.sessions[ids[i]].udpAddress.value, bytes)];
    }
    assert ids[..|ids|] == ids;
    var listener :| listener in Recipients(r, id);
    assert listener in ids;
  }

  lemma NamedAfter(p: Packet, id: u64)
    requires p.VoiceData? && Encodable(InNameOf(p, id))
    ensures InTheNameOf(Encode(InNameOf(p, id)), id)
  {
    RoundTrip(InNameOf(p, id), []);
    assert Encode(InNameOf(p, id)) + [] == Encode(InNameOf(p, id));
  }

  lemma AnswerIsNoVoice(rid: u64, id: u64)
    requires Encodable(VoiceAuthResponse(rid, true))
    ensures !InTheNameOf(Encode(VoiceAuthResponse(rid, true)), id)
  {
    RoundTrip(VoiceAuthResponse(rid, true), []);
    assert Encode(VoiceAuthResponse(rid, true)) + [] == Encode(VoiceAuthResponse(rid, true));
  }

  /** If an address belongs to a user and everybody else in voice has an address, it can be spoken from. */
  lemma SpeaksWhenHeard(r: Relay, src: Address, id: u64)
    requires src in r.index && r.index[src] == id && Recipients(r, id) != {} && AllAddressed(r, id)
    ensures CanSpeakFor(r, id)
  {
    var data := Encode(NoSound());
    NoSoundArrives();
    ForwardedDecodes(data, id);
    NamedAfter(NoSound(), id);
    var sent := SentToAll(r, id, Encode(InNameOf(NoSound(), id)));
    assert Responds(r, src, data, sent, false, r);
  }

  /** Only an address that belongs to a user speaks for the user, and only to others who have addresses. */
  lemma HeardFromOwnAddress(r: Relay, src: Address, data: seq<byte>, sent: seq<Datagram>, r': Relay, i: nat, id: u64)
    requires Responds(r, src, data, sent, false, r') && i < |sent| && InTheNameOf(sent[i].bytes, id)
    ensures src in r.index && r.index[src] == id && AllAddressed(r, id) && Recipients(r, id) != {}
  {
    if Decode(data).value.VoiceAuthRequest? {
      AnswerIsNoVoice(Decode(data).value.requestId, id);
    } else {
      var sender, p := r.index[src], Decode(data).value;
      NamedAfter(p, sender);
      var ids :| Enumerates(ids, Recipients(r, sender)) && AddressedTo(r, ids, Encode(InNameOf(p, sender)), sent);
      assert ids[i] in Recipients(r, sender);
    }
  }

  /** After a departure voice data can still go out in the departed user's name if and only if more than one address
      led to the user before, and there are users in voice who all have addresses. */
  lemma DepartedVoice(r: Relay, id: u64, r': Relay)
    requires Handles(r, UserDisconnected(id), r')
    ensures id !in r'.sessions
    ensures CanSpeakFor(r', id) <==>
      && (exists a, b :: a in r.index && b in r.index && r.index[a] == id && r.index[b] == id && a != b)
      && (exists x :: x in r'.sessions && r'.sessions[x].inVoice)
      && (forall x :: x in r'.sessions && r'.sessions[x].inVoice ==> r'.sessions[x].udpAddress.Some?)
  {
    DepartureForgetsUser(r, id, r');
    assert forall x :: x in r'.sessions && r'.sessions[x].inVoice <==> x in Recipients(r', id);
    if CanSpeakFor(r', id) {
      var src, data, sent: seq<Datagram>, r'', i :|
        Responds(r', src, data, sent, false, r'') && 0 <= i < |sent| && InTheNameOf(sent[i].bytes, id);
      HeardFromOwnAddress(r', src, data, sent, r'', i, id);
    } else if !AtMostOneAddress(r, id) && Recipients(r', id) != {} && AllAddressed(r', id) {
      var src :| src in r'.index && r'.index[src] == id;
      SpeaksWhenHeard(r', src, id);
    }
  }

  /** A client with the token of a live session is always let in, and the answer is the one it expects. */
  lemma AuthenticationAnswered(r: Relay, src: Address, rid: u64, token: u64, sent: seq<Datagram>, r': Relay, id: u64)
    requires HoldsToken(r, id, token)
    requires Responds(r, src, Encode(VoiceAuthRequest(rid, token)), sent, false, r')
    ensures |sent| == 1 && sent[0].to == src
    ensures Decode(sent[0].bytes) == Ok(VoiceAuthResponse(rid, true), |sent[0].bytes|)
    ensures src in r'.index && HoldsToken(r, r'.index[src], token)
  {
    var request := VoiceAuthRequest(rid, token);
    RoundTrip(request, []);
    assert Encode(request) + [] == Encode(request);
    AdmittedOutcome(r, src, rid, token, sent, r', id);
  }

  /** In a run in which every joining finds its user's address, as it does when clients authenticate first, no
      datagram ever makes the relay panic. */
  lemma RelayNeverPanics(run: seq<State>, steps: seq<Step>, i: nat,
                         src: Address, data: seq<byte>, sent: seq<Datagram>, panicked: bool, r': Relay)
    requires RunBy(run, steps) && Init(run[0]) && i < |run|
    requires JoinsFindAddresses(run, steps) || Ordered(run, steps)
    requires Responds(run[i].relay, src, data, sent, panicked, r')
    ensures !panicked
  {
    if Ordered(run, steps) {
      OrderedJoinsFindAddresses(run, steps);
    }
    AddressedSoFar(run, steps, i);
  }

  /** Some datagram from somewhere makes the relay panic. */
  ghost predicate CanPanic(r: Relay)
  {
    exists src, data, sent, r' :: Responds(r, src, data, sent, true, r')
  }

  /** The relay can be made to panic if and only if some address in the index belongs to a user for whom there is
      another user in voice without an address. */
  lemma WhenRelayPanics(r: Relay)
    ensures CanPanic(r) <==>
      exists src, id :: src in r.index && id in r.sessions && r.sessions[id].inVoice && id != r.index[src]
        && r.sessions[id].udpAddress.None?
  {
    if CanPanic(r) {
      var src, data, sent, r' :| Responds(r, src, data, sent, true, r');
      assert !AllAddressed(r, r.index[src]);
      return;
    }
    if src, id :| src in r.index && id in Recipients(r, r.index[src]) && r.sessions[id].udpAddress.None? {
      var data := Encode(NoSound());
      NoSoundArrives();
      ForwardedDecodes(data, r.index[src]);
      assert Responds(r, src, data, [], true, r);
    }
  }

  /** A datagram leaves the relay's state alone or is an authentication step of the system. */
  lemma DatagramIsStep(s: State, src: Address, data: seq<byte>, sent: seq<Datagram>, panicked: bool, r': Relay)
    requires Responds(s.relay, src, data, sent, panicked, r') && r' != s.relay
    ensures exists s', id :: RelayAuth(s, s', src, id) && s'.relay == r'
  {
    var token := Decode(data).value.voiceToken;
    var id :| HoldsToken(s.relay, id, token) && r' == Authenticate(s.relay, src, id);
    var s' := s.(relay := r', auths := s.auths + {(src, token)});
    assert RelayAuth(s, s', src, id);
  }
}
