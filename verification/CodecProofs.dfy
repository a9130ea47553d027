/** Encoding and decoding are inverse to each other, and encodings are prefix-free. */
module CodecProofs {
  import opened Bytes
  import opened Utf8Text
  import opened Packets
  import opened Codec
  import opened Decoding

  /** `d` holds the bytes `part` at position `pos`. */
  predicate HasAt(d: seq<byte>, pos: nat, part: seq<byte>)
  {
    pos + |part| <= |d| && d[pos..pos + |part|] == part
  }

  lemma HasBoth(d: seq<byte>, pos: nat, a: seq<byte>, b: seq<byte>)
    requires HasAt(d, pos, a + b)
    ensures HasAt(d, pos, a) && HasAt(d, pos + |a|, b)
  {
    var whole := d[pos..pos + |a + b|];
    assert d[pos..pos + |a|] == whole[..|a|] == a;
    assert d[pos + |a|..pos + |a| + |b|] == whole[|a|..] == b;
  }

  // Reading back what was written

  lemma UIntBack(d: seq<byte>, pos: nat, n: nat, width: nat)
    requires n < Capacity(width) && HasAt(d, pos, ToBigEndian(n, width))
    ensures ParseUInt(d, pos, width) == Ok(n, pos + width)
  {
    ReadBack(n, width);
    assert forall i :: 0 <= i < width ==> d[pos..pos + width][i] == ToBigEndian(n, width)[i];
    SameBytes(d, ToBigEndian(n, width), pos, width);
  }

  lemma U64Back(d: seq<byte>, pos: nat, n: u64)
    requires HasAt(d, pos, U64(n))
    ensures ParseU64(d, pos) == Ok(n, pos + 8)
  {
    CapacityValues();
    UIntBack(d, pos, n, 8);
  }

  lemma U16Back(d: seq<byte>, pos: nat, n: u16)
    requires HasAt(d, pos, ToBigEndian(n, 2))
    ensures ParseU16(d, pos) == Ok(n, pos + 2)
  {
    CapacityValues();
    UIntBack(d, pos, n, 2);
  }

  lemma U32Back(d: seq<byte>, pos: nat, n: u32)
    requires HasAt(d, pos, U32(n))
    ensures ParseU32(d, pos) == Ok(n, pos + 4)
  {
    CapacityValues();
    UIntBack(d, pos, n, 4);
  }

  lemma StrBack(d: seq<byte>, pos: nat, s: Text)
    requires |s| <= U16_MAX && HasAt(d, pos, Str(s))
    ensures ParseString(d, pos) == Ok(s, pos + |Str(s)|)
  {
    HasBoth(d, pos, ToBigEndian(|s|, 2), s);
    U16Back(d, pos, |s|);
  }

  lemma FlagBack(d: seq<byte>, pos: nat, b: bool)
    requires HasAt(d, pos, Flag(b))
    ensures ParseBool(d, pos) == Ok(b, pos + 1)
  {
    assert d[pos] == d[pos..pos + 1][0] == Flag(b)[0];
  }

  lemma FieldsBack(d: seq<byte>, pos: nat, p: ParticipantInfo, flags: nat)
    requires ParseU64(d, pos) == Ok(p.userId, pos + 8) && ParseString(d, pos + 8) == Ok(p.username, flags)
    requires ParseBool(d, flags) == Ok(p.inVoice, flags + 1) && ParseBool(d, flags + 1) == Ok(p.isMuted, flags + 2)
    ensures ParseParticipant(d, pos) == Ok(p, flags + 2)
  {
  }

  lemma ParticipantBack(d: seq<byte>, pos: nat, p: ParticipantInfo)
    requires |p.username| <= U16_MAX && HasAt(d, pos, Participant(p))
    ensures ParseParticipant(d, pos) == Ok(p, pos + |Participant(p)|)
  {
    var flags := pos + 8 + |Str(p.username)|;
    Layout(d, pos, p, flags);
    U64Back(d, pos, p.userId);
    StrBack(d, pos + 8, p.username);
    FlagBack(d, flags, p.inVoice);
    FlagBack(d, flags + 1, p.isMuted);
    FieldsBack(d, pos, p, flags);
  }

  lemma Layout(d: seq<byte>, pos: nat, p: ParticipantInfo, flags: nat)
    requires HasAt(d, pos, Participant(p)) && flags == pos + 8 + |Str(p.username)|
    ensures HasAt(d, pos, U64(p.userId)) && HasAt(d, pos + 8, Str(p.username))
    ensures HasAt(d, flags, Flag(p.inVoice)) && HasAt(d, flags + 1, Flag(p.isMuted))
    ensures |Participant(p)| == flags + 2 - pos
  {
    var a, b, c, e := U64(p.userId), Str(p.username), Flag(p.inVoice), Flag(p.isMuted);
    HasBoth(d, pos, a + b + c, e);
    HasBoth(d, pos, a + b, c);
    HasBoth(d, pos, a, b);
  }

  lemma FirstBack(d: seq<byte>, pos: nat, p: ParticipantInfo, rest: seq<byte>)
    requires HasAt(d, pos, Participant(p) + rest) && |Participant(p) + rest| <= U16_MAX
    ensures HasAt(d, pos + |Participant(p)|, rest)
    ensures ParseParticipant(d, pos) == Ok(p, pos + |Participant(p)|)
  {
    HasBoth(d, pos, Participant(p), rest);
    ParticipantBack(d, pos, p);
  }

  lemma ParseStep(d: seq<byte>, pos: nat, left: nat, ps: seq<ParticipantInfo>)
    ensures var r := ParseParticipant(d, pos);
      ParseParticipants(d, pos, left + 1, ps)
        == if r.Ok? then ParseParticipants(d, r.next, left, ps + [r.value]) else Err(r.error)
  {
  }

  lemma OneMore<T>(x: Parsed<seq<T>>, before: seq<T>, ps: seq<T>, end: nat)
    requires ps != [] && x == Ok(before + [ps[0]] + ps[1..], end)
    ensures x == Ok(before + ps, end)
  {
    assert before + [ps[0]] + ps[1..] == before + ps;
  }

  lemma NoneBack(d: seq<byte>, pos: nat, before: seq<ParticipantInfo>)
    ensures ParseParticipants(d, pos, 0, before) == Ok(before + [], pos)
  {
    assert before + [] == before;
  }

  lemma OneBack(d: seq<byte>, pos: nat, ps: seq<ParticipantInfo>, before: seq<ParticipantInfo>, next: nat, end: nat)
    requires ps != [] && ParseParticipant(d, pos) == Ok(ps[0], next)
    requires ParseParticipants(d, next, |ps[1..]|, before + [ps[0]]) == Ok(before + [ps[0]] + ps[1..], end)
    ensures ParseParticipants(d, pos, |ps|, before) == Ok(before + ps, end)
  {
    ParseStep(d, pos, |ps[1..]|, before);
    OneMore(ParseParticipants(d, pos, |ps|, before), before, ps, end);
  }

  lemma {:induction false} ParticipantsBack(
      d: seq<byte>, pos: nat, ps: seq<ParticipantInfo>, before: seq<ParticipantInfo>, end: nat)
    requires |Participants(ps)| <= U16_MAX && HasAt(d, pos, Participants(ps))
    requires end == pos + |Participants(ps)|
    ensures ParseParticipants(d, pos, |ps|, before) == Ok(before + ps, end)
    decreases |ps|
  {
    if ps == [] {
      NoneBack(d, pos, before);
    } else {
      var next := pos + |Participant(ps[0])|;
      FirstBack(d, pos, ps[0], Participants(ps[1..]));
      ParticipantsBack(d, next, ps[1..], before + [ps[0]], end);
      OneBack(d, pos, ps, before, next, end);
    }
  }

  /** A list of participants takes at least as many bytes as it has entries. */
  lemma {:induction false} ParticipantsCount(ps: seq<ParticipantInfo>)
    ensures |ps| <= |Participants(ps)|
  {
    if ps != [] {
      ParticipantsCount(ps[1..]);
    }
  }

  /** The cursor positions of three consecutive parts. */
  lemma HasThree(d: seq<byte>, pos: nat, a: seq<byte>, b: seq<byte>, c: seq<byte>)
    requires HasAt(d, pos, a + b + c)
    ensures HasAt(d, pos, a) && HasAt(d, pos + |a|, b) && HasAt(d, pos + |a| + |b|, c)
  {
    HasBoth(d, pos, a + b, c);
    HasBoth(d, pos, a, b);
  }

  lemma ThreeU64Back(d: seq<byte>, a: u64, b: u64, c: u64)
    requires HasAt(d, 0, U64(a) + U64(b) + U64(c))
    ensures ParseU64(d, 0) == Ok(a, 8) && ParseU64(d, 8) == Ok(b, 16) && ParseU64(d, 16) == Ok(c, 24)
  {
    HasThree(d, 0, U64(a), U64(b), U64(c));
    U64Back(d, 0, a);
    U64Back(d, 8, b);
    U64Back(d, 16, c);
  }

  lemma CountedBack(d: seq<byte>, pos: nat, ps: seq<ParticipantInfo>)
    requires HasAt(d, pos, ToBigEndian(|ps|, 2)) && HasAt(d, pos + 2, Participants(ps))
    requires |Participants(ps)| <= U16_MAX
    ensures ParseU16(d, pos) == Ok(|ps|, pos + 2)
    ensures ParseParticipants(d, pos + 2, |ps|, []) == Ok(ps, pos + 2 + |Participants(ps)|)
  {
    ParticipantsCount(ps);
    U16Back(d, pos, |ps|);
    ParticipantsBack(d, pos + 2, ps, [], pos + 2 + |Participants(ps)|);
    assert [] + ps == ps;
  }

  lemma LoginFieldsBack(d: seq<byte>, a: u64, b: u64, c: u64, ps: seq<ParticipantInfo>)
    requires ParseU64(d, 0) == Ok(a, 8) && ParseU64(d, 8) == Ok(b, 16) && ParseU64(d, 16) == Ok(c, 24)
    requires |ps| <= U16_MAX && ParseU16(d, 24) == Ok(|ps|, 26)
    requires ParseParticipants(d, 26, |ps|, []) == Ok(ps, |d|)
    ensures ParsePayload(LoginResponseId, d) == Ok(LoginResponse(a, b, c, ps), |d|)
  {
  }

  lemma LoginResponseBack(d: seq<byte>, p: Packet)
    requires p.LoginResponse? && d == Payload(p) && |d| <= U16_MAX
    ensures ParsePayload(LoginResponseId, d) == Ok(p, |d|)
  {
    var ps := p.participants;
    var ids := U64(p.requestId) + U64(p.id) + U64(p.voiceToken);
    HasThree(d, 0, ids, ToBigEndian(|ps|, 2), Participants(ps));
    ThreeU64Back(d, p.requestId, p.id, p.voiceToken);
    CountedBack(d, 24, ps);
    LoginFieldsBack(d, p.requestId, p.id, p.voiceToken, ps);
  }

  lemma SentMessageBack(d: seq<byte>, id: u64, sentAt: u64, message: Text)
    requires d == U64(id) + U64(sentAt) + Str(message) && |d| <= U16_MAX
    ensures ParsePayload(UserSentMessageId, d) == Ok(UserSentMessage(id, sentAt, message), |d|)
  {
    HasThree(d, 0, U64(id), U64(sentAt), Str(message));
    U64Back(d, 0, id);
    U64Back(d, 8, sentAt);
    StrBack(d, 16, message);
  }

  lemma VoiceDataBack(d: seq<byte>, id: u64, sequence: u32, timestamp: u32, data: seq<byte>)
    requires d == U64(id) + U32(sequence) + U32(timestamp) + data
    ensures ParsePayload(VoiceDataId, d) == Ok(VoiceData(id, sequence, timestamp, data), |d|)
  {
    HasBoth(d, 0, U64(id) + U32(sequence) + U32(timestamp), data);
    HasThree(d, 0, U64(id), U32(sequence), U32(timestamp));
    U64Back(d, 0, id);
    U32Back(d, 8, sequence);
    U32Back(d, 12, timestamp);
  }

  lemma ParsedIdFlag(d: seq<byte>, n: u64, b: bool)
    requires d == U64(n) + Flag(b)
    ensures ParseIdFlag(d) == Ok((n, b), |d|)
  {
    HasBoth(d, 0, U64(n), Flag(b));
    U64Back(d, 0, n);
  }

  /** The packets whose payload is an id and a flag. */
  lemma IdFlagBack(d: seq<byte>, n: u64, b: bool)
    requires d == U64(n) + Flag(b)
    ensures ParsePayload(VoiceAuthResponseId, d) == Ok(VoiceAuthResponse(n, b), |d|)
    ensures ParsePayload(JoinVoiceChannelResponseId, d) == Ok(JoinVoiceChannelResponse(n, b), |d|)
    ensures ParsePayload(LeaveVoiceChannelResponseId, d) == Ok(LeaveVoiceChannelResponse(n, b), |d|)
    ensures ParsePayload(ChatMessageResponseId, d) == Ok(ChatMessageResponse(n, b), |d|)
    ensures ParsePayload(UserMuteStateId, d) == Ok(UserMuteState(n, b), |d|)
  {
    ParsedIdFlag(d, n, b);
  }

  lemma IdTextBack(p: Packet, n: u64, s: Text)
    requires |s| <= U16_MAX && (p == LoginRequest(n, s) || p == ChatMessageRequest(n, s))
    ensures ParsePayload(TypeOf(p), Payload(p)) == Ok(p, |Payload(p)|)
  {
    var d := U64(n) + Str(s);
    assert Payload(p) == d;
    HasBoth(d, 0, U64(n), Str(s));
    U64Back(d, 0, n);
    StrBack(d, 8, s);
  }

  lemma TokenBack(d: seq<byte>, rid: u64, token: u64)
    requires d == U64(rid) + U64(token)
    ensures ParsePayload(VoiceAuthRequestId, d) == Ok(VoiceAuthRequest(rid, token), |d|)
  {
    HasBoth(d, 0, U64(rid), U64(token));
    U64Back(d, 0, rid);
    U64Back(d, 8, token);
  }

  /** The packets whose payload is a lone id. */
  lemma LoneIdBack(p: Packet, n: u64)
    requires Payload(p) == U64(n)
    requires p == JoinVoiceChannelRequest(n) || p == LeaveVoiceChannelRequest(n) || p == PingRequest(n)
      || p == PingResponse(n)
    ensures ParsePayload(TypeOf(p), Payload(p)) == Ok(p, |Payload(p)|)
  {
    U64Back(Payload(p), 0, n);
  }

  lemma LoneUserBack(p: Packet, n: u64)
    requires Payload(p) == U64(n) && (p == UserJoinedVoice(n) || p == UserLeftVoice(n) || p == UserLeftServer(n))
    ensures ParsePayload(TypeOf(p), Payload(p)) == Ok(p, |Payload(p)|)
  {
    U64Back(Payload(p), 0, n);
  }

  predicate IsRequest(p: Packet)
  {
    || p.LoginRequest? || p.VoiceAuthRequest? || p.JoinVoiceChannelRequest?
    || p.LeaveVoiceChannelRequest? || p.ChatMessageRequest? || p.PingRequest?
  }

  predicate IsResponse(p: Packet)
  {
    || p.LoginResponse? || p.VoiceAuthResponse? || p.JoinVoiceChannelResponse?
    || p.LeaveVoiceChannelResponse? || p.ChatMessageResponse? || p.PingResponse?
  }

  lemma RequestBack(p: Packet)
    requires Encodable(p) && IsRequest(p)
    ensures ParsePayload(TypeOf(p), Payload(p)) == Ok(p, |Payload(p)|)
  {
    if p.LoginRequest? {
      IdTextBack(p, p.requestId, p.username);
    } else if p.ChatMessageRequest? {
      IdTextBack(p, p.requestId, p.message);
    } else if p.VoiceAuthRequest? {
      TokenBack(Payload(p), p.requestId, p.voiceToken);
    } else {
      LoneIdBack(p, p.requestId);
    }
  }

  lemma ResponseBack(p: Packet)
    requires Encodable(p) && IsResponse(p)
    ensures ParsePayload(TypeOf(p), Payload(p)) == Ok(p, |Payload(p)|)
  {
    if p.LoginResponse? {
      LoginResponseBack(Payload(p), p);
    } else if p.PingResponse? {
      LoneIdBack(p, p.requestId);
    } else {
      IdFlagBack(Payload(p), p.requestId, p.success);
    }
  }

  lemma EventBack(p: Packet)
    requires Encodable(p) && !IsRequest(p) && !IsResponse(p)
    ensures ParsePayload(TypeOf(p), Payload(p)) == Ok(p, |Payload(p)|)
  {
    if p.UserJoinedServer? {
      ParticipantBack(Payload(p), 0, p.participant);
    } else if p.UserMuteState? {
      IdFlagBack(Payload(p), p.userId, p.isMuted);
    } else if p.UserSentMessage? {
      SentMessageBack(Payload(p), p.userId, p.sentAt, p.message);
    } else if p.VoiceData? {
      VoiceDataBack(Payload(p), p.userId, p.sequence, p.timestamp, p.data);
    } else {
      LoneUserBack(p, p.userId);
    }
  }

  /** The fields of an encodable packet are read back from its payload, and nothing is left over. */
  lemma PayloadBack(p: Packet)
    requires Encodable(p)
    ensures ParsePayload(TypeOf(p), Payload(p)) == Ok(p, |Payload(p)|)
  {
    if IsRequest(p) {
      RequestBack(p);
    } else if IsResponse(p) {
      ResponseBack(p);
    } else {
      EventBack(p);
    }
  }

  lemma TypeBack(p: Packet)
    ensures IdFromByte(IdToByte(TypeOf(p))) == Some(TypeOf(p))
  {
  }

  /** What `Decode` sees of a buffer whose first three bytes are a header written by `Encode`. */
  lemma HeaderBack(b: seq<byte>, p: Packet)
    requires Encodable(p) && 3 <= |b| && b[..3] == Encode(p)[..3]
    ensures b[0] == IdToByte(TypeOf(p)) && ParseU16(b, 1) == Ok(|Payload(p)|, 3)
  {
    var e := Encode(p);
    var length := U16(|Payload(p)|);
    assert e[1..3] == length;
    assert b[0] == b[..3][0] && b[1..3] == b[..3][1..3] == e[..3][1..3] == length;
    U16Back(b, 1, |Payload(p)|);
  }

  /** Decoding an encoding, whatever follows it, gives back the packet and its exact length. */
  lemma RoundTrip(p: Packet, rest: seq<byte>)
    requires Encodable(p)
    ensures Decode(Encode(p) + rest) == Ok(p, |Encode(p)|)
  {
    var b := Encode(p) + rest;
    TypeBack(p);
    assert b[..3] == Encode(p)[..3];
    HeaderBack(b, p);
    assert b[3..3 + |Payload(p)|] == Payload(p);
    PayloadBack(p);
  }

  // Everything that is decoded can be encoded again

  /** Reading `count` participants behind `before` has given `r`: as many, in as many bytes as they take. */
  predicate ReadsSize(r: Parsed<seq<ParticipantInfo>>, pos: nat, count: nat, before: seq<ParticipantInfo>, end: nat)
  {
    r.Ok? ==>
      && before <= r.value && |r.value| == |before| + count
      && r.next == pos + |Participants(r.value[|before|..])| <= end
  }

  lemma OneMoreSize(r: Parsed<seq<ParticipantInfo>>, pos: nat, count: nat, before: seq<ParticipantInfo>, end: nat,
                    p: ParticipantInfo, next: nat)
    requires ReadsSize(r, next, count, before + [p], end) && next == pos + |Participant(p)|
    ensures ReadsSize(r, pos, count + 1, before, end)
  {
    if r.Ok? {
      var ps := r.value[|before|..];
      assert ps[0] == (before + [p])[|before|] && ps[1..] == r.value[|before + [p]|..];
    }
  }

  lemma {:induction false} ParticipantsSize(d: seq<byte>, pos: nat, count: nat, before: seq<ParticipantInfo>)
    requires pos <= |d|
    ensures ReadsSize(ParseParticipants(d, pos, count, before), pos, count, before, |d|)
    decreases count
  {
    if count > 0 && ParseParticipant(d, pos).Ok? {
      var first := ParseParticipant(d, pos);
      ParseStep(d, pos, count - 1, before);
      ParticipantsSize(d, first.next, count - 1, before + [first.value]);
      OneMoreSize(ParseParticipants(d, pos, count, before), pos, count - 1, before, |d|, first.value, first.next);
    }
  }

  lemma LoginResponseSize(d: seq<byte>)
    ensures var r := ParseLoginResponse(d);
      r.Ok? ==> r.value.LoginResponse? && |Payload(r.value)| == r.next <= |d|
  {
    var r := ParseLoginResponse(d);
    if r.Ok? {
      ParticipantsSize(d, 26, ParseU16(d, 24).value, []);
      assert r.value.participants[0..] == r.value.participants;
    }
  }

  predicate IsLoneId(id: PacketId)
  {
    || id.JoinVoiceChannelRequestId? || id.LeaveVoiceChannelRequestId? || id.PingRequestId? || id.PingResponseId?
    || id.UserJoinedVoiceId? || id.UserLeftVoiceId? || id.UserLeftServerId?
  }

  predicate IsIdFlag(id: PacketId)
  {
    || id.VoiceAuthResponseId? || id.JoinVoiceChannelResponseId? || id.LeaveVoiceChannelResponseId?
    || id.ChatMessageResponseId? || id.UserMuteStateId?
  }

  predicate SizeAgrees(id: PacketId, d: seq<byte>)
  {
    var r := ParsePayload(id, d);
    r.Ok? ==> TypeOf(r.value) == id && 8 <= |Payload(r.value)| == r.next <= |d|
  }

  lemma LoneIdSize(id: PacketId, d: seq<byte>)
    requires IsLoneId(id)
    ensures SizeAgrees(id, d)
  {
  }

  lemma IdFlagSize(id: PacketId, d: seq<byte>)
    requires IsIdFlag(id)
    ensures SizeAgrees(id, d)
  {
  }

  lemma ParticipantSize(d: seq<byte>)
    ensures SizeAgrees(UserJoinedServerId, d)
  {
  }

  lemma IdTextSize(id: PacketId, d: seq<byte>)
    requires id.LoginRequestId? || id.ChatMessageRequestId?
    ensures SizeAgrees(id, d)
  {
  }

  lemma SentMessageSize(d: seq<byte>)
    ensures SizeAgrees(UserSentMessageId, d)
  {
  }

  lemma TokenSize(d: seq<byte>)
    ensures SizeAgrees(VoiceAuthRequestId, d)
  {
  }

  lemma VoiceDataSize(d: seq<byte>)
    ensures SizeAgrees(VoiceDataId, d)
  {
  }

  /** Reading consumes exactly as many bytes as writing the result would produce. */
  lemma ParsedSize(id: PacketId, d: seq<byte>)
    ensures SizeAgrees(id, d)
  {
    if IsLoneId(id) {
      LoneIdSize(id, d);
      return;
    }
    if IsIdFlag(id) {
      IdFlagSize(id, d);
      return;
    }
    match id
    case LoginResponseId => LoginResponseSize(d);
    case UserJoinedServerId => ParticipantSize(d);
    case UserSentMessageId => SentMessageSize(d);
    case VoiceAuthRequestId => TokenSize(d);
    case VoiceDataId => VoiceDataSize(d);
    case _ => IdTextSize(id, d);
  }

  /** Every decoded packet is encodable, its encoding is no longer than the bytes consumed, and it
      decodes to itself: decoding normalises a buffer, whatever flag bytes or ignored payload bytes
      it holds. */
  lemma Normalisation(b: seq<byte>)
    requires Decode(b).Ok?
    ensures var p, n := Decode(b).value, Decode(b).next;
      && Encodable(p)
      && 11 <= |Encode(p)| <= n <= |b|
      && Decode(Encode(p)) == Ok(p, |Encode(p)|)
  {
    var p := Decode(b).value;
    var length := ParseU16(b, 1).value;
    ParsedSize(IdFromByte(b[0]).value, b[3..3 + length]);
    RoundTrip(p, []);
    assert Encode(p) + [] == Encode(p);
  }

  // Injectivity

  lemma PrefixFree(p: Packet, q: Packet)
    requires Encodable(p) && Encodable(q) && Encode(p) <= Encode(q)
    ensures p == q
  {
    var a, b := Encode(p), Encode(q);
    RoundTrip(p, b[|a|..]);
    assert a + b[|a|..] == b;
    RoundTrip(q, []);
    assert b + [] == b;
  }

  /** A strict prefix of an encoding is never mistaken for a packet or for garbage. */
  lemma StrictPrefixWaits(b: seq<byte>, p: Packet)
    requires Encodable(p) && b < Encode(p)
    ensures Decode(b).Err? && (Decode(b).error.PacketTooShort? || Decode(b).error.IncompletePayload?)
  {
    TypeBack(p);
    if |b| >= 1 {
      assert b[0] == Encode(p)[0];
    }
    if |b| >= 3 {
      assert b[..3] == Encode(p)[..3];
      HeaderBack(b, p);
    }
  }
}
