/** The bytes of each packet, position by position: what any encoder or decoder of the protocol must agree on. */
module WireFormat {
  import opened Bytes
  import opened Sequences
  import opened Packets
  import opened Codec
  import opened Decoding
  import opened CodecProofs

  // Numbers at a position, most significant byte first

  function Big2(d: seq<byte>, at: nat): nat
    requires at + 2 <= |d|
  {
    0x100 * (d[at] as nat) + d[at + 1]
  }

  function Big4(d: seq<byte>, at: nat): nat
    requires at + 4 <= |d|
  {
    0x1_0000 * Big2(d, at) + Big2(d, at + 2)
  }

  function Big8(d: seq<byte>, at: nat): nat
    requires at + 8 <= |d|
  {
    0x1_0000_0000 * Big4(d, at) + Big4(d, at + 4)
  }

  lemma TwoMoreBytes(d: seq<byte>, at: nat, k: nat)
    requires at + k + 2 <= |d|
    ensures FromBigEndian(d, at, k + 2) == 0x1_0000 * FromBigEndian(d, at, k) + Big2(d, at + k)
  {
    assert FromBigEndian(d, at, k + 2) == 256 * FromBigEndian(d, at, k + 1) + d[at + k + 1];
  }

  lemma NumberAt(d: seq<byte>, at: nat)
    ensures at + 2 <= |d| ==> FromBigEndian(d, at, 2) == Big2(d, at)
    ensures at + 4 <= |d| ==> FromBigEndian(d, at, 4) == Big4(d, at)
    ensures at + 8 <= |d| ==> FromBigEndian(d, at, 8) == Big8(d, at)
  {
    if at + 2 <= |d| {
      TwoMoreBytes(d, at, 0);
    }
    if at + 4 <= |d| {
      TwoMoreBytes(d, at, 2);
    }
    if at + 8 <= |d| {
      TwoMoreBytes(d, at, 4);
      TwoMoreBytes(d, at, 6);
    }
  }

  // Where the fields are

  /** The text `s` stands at position `at`, after its length. */
  predicate TextAt(d: seq<byte>, at: nat, s: seq<byte>)
  {
    at + 2 + |s| <= |d| && Big2(d, at) == |s| && d[at + 2..at + 2 + |s|] == s
  }

  predicate FlagAt(d: seq<byte>, at: nat, b: bool)
  {
    at < |d| && (b <==> d[at] != 0)
  }

  predicate IdAt(d: seq<byte>, at: nat, n: u64)
  {
    at + 8 <= |d| && Big8(d, at) == n
  }

  predicate ParticipantAt(d: seq<byte>, at: nat, p: ParticipantInfo)
  {
    && IdAt(d, at, p.userId) && TextAt(d, at + 8, p.username)
    && FlagAt(d, at + 10 + |p.username|, p.inVoice) && FlagAt(d, at + 11 + |p.username|, p.isMuted)
  }

  predicate ParticipantsAt(d: seq<byte>, at: nat, ps: seq<ParticipantInfo>)
    decreases |ps|
  {
    ps == [] || (ParticipantAt(d, at, ps[0]) && ParticipantsAt(d, at + 12 + |ps[0].username|, ps[1..]))
  }

  /** A payload `d` under the type byte `id` holds the fields of packet `p`. */
  predicate Holds(id: byte, d: seq<byte>, p: Packet)
  {
    match p
    case LoginRequest(rid, name) => id == 0x01 && IdAt(d, 0, rid) && TextAt(d, 8, name)
    case JoinVoiceChannelRequest(rid) => id == 0x02 && IdAt(d, 0, rid)
    case VoiceAuthRequest(rid, token) => id == 0x03 && IdAt(d, 0, rid) && IdAt(d, 8, token)
    case LeaveVoiceChannelRequest(rid) => id == 0x04 && IdAt(d, 0, rid)
    case ChatMessageRequest(rid, message) => id == 0x05 && IdAt(d, 0, rid) && TextAt(d, 8, message)
    case PingRequest(rid) => id == 0x06 && IdAt(d, 0, rid)
    case LoginResponse(rid, user, token, ps) =>
      && id == 0x21 && IdAt(d, 0, rid) && IdAt(d, 8, user) && IdAt(d, 16, token)
      && 26 <= |d| && Big2(d, 24) == |ps| && ParticipantsAt(d, 26, ps)
    case VoiceAuthResponse(rid, success) => id == 0x22 && IdAt(d, 0, rid) && FlagAt(d, 8, success)
    case JoinVoiceChannelResponse(rid, success) => id == 0x23 && IdAt(d, 0, rid) && FlagAt(d, 8, success)
    case LeaveVoiceChannelResponse(rid, success) => id == 0x24 && IdAt(d, 0, rid) && FlagAt(d, 8, success)
    case ChatMessageResponse(rid, success) => id == 0x25 && IdAt(d, 0, rid) && FlagAt(d, 8, success)
    case PingResponse(rid) => id == 0x26 && IdAt(d, 0, rid)
    case UserJoinedServer(info) => id == 0x41 && ParticipantAt(d, 0, info)
    case UserJoinedVoice(user) => id == 0x42 && IdAt(d, 0, user)
    case UserLeftVoice(user) => id == 0x43 && IdAt(d, 0, user)
    case UserLeftServer(user) => id == 0x44 && IdAt(d, 0, user)
    case UserSentMessage(user, sentAt, message) =>
      id == 0x45 && IdAt(d, 0, user) && IdAt(d, 8, sentAt) && TextAt(d, 16, message)
    case UserMuteState(user, isMuted) => id == 0x46 && IdAt(d, 0, user) && FlagAt(d, 8, isMuted)
    case VoiceData(user, sequence, timestamp, data) =>
      && id == 0x61 && IdAt(d, 0, user)
      && 16 <= |d| && Big4(d, 8) == sequence && Big4(d, 12) == timestamp && d[16..] == data
  }

  // What is read

  lemma ReadId(d: seq<byte>, at: nat)
    requires ParseU64(d, at).Ok?
    ensures IdAt(d, at, ParseU64(d, at).value)
  {
    NumberAt(d, at);
  }

  lemma ReadText(d: seq<byte>, at: nat)
    requires ParseString(d, at).Ok?
    ensures TextAt(d, at, ParseString(d, at).value)
  {
    NumberAt(d, at);
  }

  lemma ReadParticipant(d: seq<byte>, at: nat)
    requires ParseParticipant(d, at).Ok?
    ensures ParticipantAt(d, at, ParseParticipant(d, at).value)
  {
    ReadId(d, at);
    ReadText(d, at + 8);
  }

  lemma {:induction false} ReadParticipants(d: seq<byte>, at: nat, count: nat, before: seq<ParticipantInfo>)
      returns (ps: seq<ParticipantInfo>)
    requires ParseParticipants(d, at, count, before).Ok?
    ensures ParseParticipants(d, at, count, before).value == before + ps
    ensures |ps| == count && ParticipantsAt(d, at, ps)
    decreases count
  {
    if count == 0 {
      return [];
    }
    var p := ParseParticipant(d, at);
    ReadParticipant(d, at);
    var rest := ReadParticipants(d, p.next, count - 1, before + [p.value]);
    ps := [p.value] + rest;
    Assoc(before, [p.value], rest);
    assert ps[1..] == rest;
  }

  lemma ReadLoginResponse(d: seq<byte>)
    requires ParseLoginResponse(d).Ok?
    ensures Holds(0x21, d, ParseLoginResponse(d).value)
  {
    ReadId(d, 0);
    ReadId(d, 8);
    ReadId(d, 16);
    NumberAt(d, 24);
    var ps := ReadParticipants(d, 26, ParseU16(d, 24).value, []);
    assert [] + ps == ps;
  }

  lemma ReadVoiceData(d: seq<byte>)
    requires ParsePayload(VoiceDataId, d).Ok?
    ensures Holds(0x61, d, ParsePayload(VoiceDataId, d).value)
  {
    ReadId(d, 0);
    NumberAt(d, 8);
    NumberAt(d, 12);
  }

  lemma ReadSentMessage(d: seq<byte>)
    requires ParsePayload(UserSentMessageId, d).Ok?
    ensures Holds(0x45, d, ParsePayload(UserSentMessageId, d).value)
  {
    ReadId(d, 0);
    ReadId(d, 8);
    ReadText(d, 16);
  }

  lemma ReadOthers(id: PacketId, d: seq<byte>)
    requires ParsePayload(id, d).Ok? && !id.LoginResponseId? && !id.VoiceDataId? && !id.UserSentMessageId?
    ensures Holds(IdToByte(id), d, ParsePayload(id, d).value)
  {
    if id.UserJoinedServerId? {
      ReadParticipant(d, 0);
      return;
    }
    ReadId(d, 0);
    if id.VoiceAuthRequestId? {
      ReadId(d, 8);
    } else if id.LoginRequestId? || id.ChatMessageRequestId? {
      ReadText(d, 8);
    }
  }

  lemma ReadPayload(id: PacketId, d: seq<byte>)
    requires ParsePayload(id, d).Ok?
    ensures Holds(IdToByte(id), d, ParsePayload(id, d).value)
  {
    if id.LoginResponseId? {
      ReadLoginResponse(d);
    } else if id.VoiceDataId? {
      ReadVoiceData(d);
    } else if id.UserSentMessageId? {
      ReadSentMessage(d);
    } else {
      ReadOthers(id, d);
    }
  }

  /** Whatever decodes has its type in the first byte, the length of its payload in the next two, and its fields at
      their positions in the payload; a flag is set if its byte is not zero. */
  lemma DecodedFields(b: seq<byte>)
    requires Decode(b).Ok?
    ensures 3 <= Decode(b).next <= |b| && Big2(b, 1) == Decode(b).next - 3
    ensures Holds(b[0], b[3..Decode(b).next], Decode(b).value)
  {
    NumberAt(b, 1);
    ReadPayload(IdFromByte(b[0]).value, b[3..Decode(b).next]);
  }

  // What is written

  /** The bytes that a packet's fields take. */
  function FieldBytes(p: Packet): nat
  {
    match p
    case LoginRequest(_, name) => 10 + |name|
    case VoiceAuthRequest(_, _) => 16
    case ChatMessageRequest(_, message) => 10 + |message|
    case LoginResponse(_, _, _, ps) => 26 + ListBytes(ps)
    case VoiceAuthResponse(_, _) => 9
    case JoinVoiceChannelResponse(_, _) => 9
    case LeaveVoiceChannelResponse(_, _) => 9
    case ChatMessageResponse(_, _) => 9
    case UserJoinedServer(info) => 12 + |info.username|
    case UserSentMessage(_, _, message) => 18 + |message|
    case UserMuteState(_, _) => 9
    case VoiceData(_, _, _, data) => 16 + |data|
    case _ => 8
  }

  function ListBytes(ps: seq<ParticipantInfo>): nat
  {
    if ps == [] then 0 else 12 + |ps[0].username| + ListBytes(ps[1..])
  }

  lemma {:induction false} ListTakes(ps: seq<ParticipantInfo>)
    ensures |Participants(ps)| == ListBytes(ps)
  {
    if ps != [] {
      ListTakes(ps[1..]);
    }
  }

  lemma FieldsTake(p: Packet)
    ensures |Payload(p)| == FieldBytes(p)
  {
    if p.LoginResponse? {
      ListTakes(p.participants);
      var ids := U64(p.requestId) + U64(p.id) + U64(p.voiceToken);
      assert |Payload(p)| == |ids + ToBigEndian(|p.participants|, 2) + Participants(p.participants)|;
    }
  }

  predicate HasSuccess(p: Packet)
  {
    p.VoiceAuthResponse? || p.JoinVoiceChannelResponse? || p.LeaveVoiceChannelResponse? || p.ChatMessageResponse?
  }

  /** An encoding holds the packet's fields and nothing else, with 1 for a flag that is set. A packet can be encoded if
      and only if its fields take at most 65535 bytes. */
  lemma EncodedFields(p: Packet)
    ensures Encodable(p) <==> FieldBytes(p) <= 65535
    ensures Encodable(p) ==>
      && |Encode(p)| == 3 + FieldBytes(p) && Big2(Encode(p), 1) == FieldBytes(p)
      && Holds(Encode(p)[0], Encode(p)[3..], p)
    ensures Encodable(p) && HasSuccess(p) ==> Encode(p)[11] == if p.success then 1 else 0
  {
    FieldsTake(p);
    if Encodable(p) {
      RoundTrip(p, []);
      assert Encode(p) + [] == Encode(p);
      DecodedFields(Encode(p));
      assert Encode(p)[3..] == Payload(p);
    }
  }

  // What is refused

  predicate KnownType(id: byte)
  {
    0x01 <= id <= 0x06 || 0x21 <= id <= 0x26 || 0x41 <= id <= 0x46 || id == 0x61
  }

  predicate FieldError(e: ProtocolError)
  {
    e.PacketTooShort? || e.InvalidUtf8?
  }

  lemma {:induction false} ListErrors(d: seq<byte>, at: nat, count: nat, before: seq<ParticipantInfo>)
    requires ParseParticipants(d, at, count, before).Err?
    ensures FieldError(ParseParticipants(d, at, count, before).error)
    decreases count
  {
    var p := ParseParticipant(d, at);
    if p.Ok? {
      ListErrors(d, p.next, count - 1, before + [p.value]);
    }
  }

  lemma LoginResponseErrors(d: seq<byte>)
    requires ParseLoginResponse(d).Err?
    ensures FieldError(ParseLoginResponse(d).error)
  {
    if ParseU16(d, 24).Ok? && ParseParticipants(d, 26, ParseU16(d, 24).value, []).Err? {
      ListErrors(d, 26, ParseU16(d, 24).value, []);
    }
  }

  lemma PayloadErrors(id: PacketId, d: seq<byte>)
    requires ParsePayload(id, d).Err?
    ensures FieldError(ParsePayload(id, d).error)
  {
    if id.LoginResponseId? {
      LoginResponseErrors(d);
    }
  }

  /** Bytes that do not begin with a whole packet: the header tells what is wrong or missing. Only a whole payload is
      looked into. */
  lemma DecodingErrors(b: seq<byte>)
    ensures b == [] ==> Decode(b) == Err(PacketTooShort(1, 0))
    ensures b != [] && !KnownType(b[0]) ==> Decode(b) == Err(UnknownPacketId(b[0]))
    ensures b != [] && KnownType(b[0]) && |b| < 3 ==> Decode(b) == Err(PacketTooShort(3, |b|))
    ensures |b| >= 3 && KnownType(b[0]) && |b| < 3 + Big2(b, 1) ==>
      Decode(b) == Err(IncompletePayload(Big2(b, 1), |b| - 3))
    ensures |b| >= 3 && KnownType(b[0]) && |b| >= 3 + Big2(b, 1) ==>
      Decode(b).Ok? || FieldError(Decode(b).error)
  {
    NumberAt(b, 1);
    if |b| >= 3 && KnownType(b[0]) && |b| >= 3 + Big2(b, 1) {
      WholePayload(b);
    }
  }

  lemma WholePayload(b: seq<byte>)
    requires |b| >= 3 && KnownType(b[0]) && |b| >= 3 + Big2(b, 1)
    ensures Decode(b).Ok? || FieldError(Decode(b).error)
  {
    NumberAt(b, 1);
    var d := b[3..3 + Big2(b, 1)];
    if ParsePayload(IdFromByte(b[0]).value, d).Err? {
      PayloadErrors(IdFromByte(b[0]).value, d);
    }
  }
}
