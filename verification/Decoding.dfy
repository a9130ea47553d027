/** The wire format read back: what `Packet::decode` accepts, with its errors. */
module Decoding {
  import opened Bytes
  import opened Utf8Text
  import opened Packets

  datatype ProtocolError =
    | PacketTooShort(expected: nat, got: nat)
    | UnknownPacketId(id: byte)
    | InvalidUtf8
    | IncompletePayload(expected: nat, got: nat)

  /** A value read from a cursor together with the cursor's new position, or an error. */
  datatype Parsed<+T> = Ok(value: T, next: nat) | Err(error: ProtocolError) {
    predicate IsFailure() { Err? }
    function PropagateFailure<U>(): Parsed<U> requires Err? { Err(error) }
    function Extract(): (T, nat) requires Ok? { (value, next) }
  }

  function ParseUInt(d: seq<byte>, pos: nat, width: nat): (r: Parsed<nat>)
    ensures r.Ok? ==> r.next == pos + width <= |d|
  {
    if pos + width <= |d| then Ok(FromBigEndian(d, pos, width), pos + width)
    else Err(PacketTooShort(pos + width, |d|))
  }

  function ParseU8(d: seq<byte>, pos: nat): Parsed<byte>
  {
    if pos < |d| then Ok(d[pos], pos + 1) else Err(PacketTooShort(pos + 1, |d|))
  }

  function ParseU16(d: seq<byte>, pos: nat): (r: Parsed<u16>)
    ensures r.Ok? ==> r.next == pos + 2 <= |d|
  {
    CapacityValues();
    var (n, pos) :- ParseUInt(d, pos, 2);
    Ok(n, pos)
  }

  function ParseU32(d: seq<byte>, pos: nat): (r: Parsed<u32>)
    ensures r.Ok? ==> r.next == pos + 4 <= |d|
  {
    CapacityValues();
    var (n, pos) :- ParseUInt(d, pos, 4);
    Ok(n, pos)
  }

  function ParseU64(d: seq<byte>, pos: nat): (r: Parsed<u64>)
    ensures r.Ok? ==> r.next == pos + 8 <= |d|
  {
    CapacityValues();
    var (n, pos) :- ParseUInt(d, pos, 8);
    Ok(n, pos)
  }

  function ParseBool(d: seq<byte>, pos: nat): (r: Parsed<bool>)
    ensures r.Ok? ==> r.next == pos + 1 <= |d|
  {
    var (b, pos) :- ParseU8(d, pos);
    Ok(b != 0, pos)
  }

  function ParseString(d: seq<byte>, pos: nat): (r: Parsed<Text>)
    ensures r.Ok? ==> r.next == pos + 2 + |r.value| <= |d|
  {
    var (len, pos) :- ParseU16(d, pos);
    if pos + len > |d| then Err(PacketTooShort(pos + len, |d|))
    else if ValidUtf8(d[pos..pos + len]) then Ok(d[pos..pos + len], pos + len)
    else Err(InvalidUtf8)
  }

  function ParseParticipant(d: seq<byte>, pos: nat): (r: Parsed<ParticipantInfo>)
    ensures r.Ok? ==> r.next == pos + 12 + |r.value.username| <= |d|
  {
    var (id, pos) :- ParseU64(d, pos);
    var (username, pos) :- ParseString(d, pos);
    var (inVoice, pos) :- ParseBool(d, pos);
    var (isMuted, pos) :- ParseBool(d, pos);
    Ok(ParticipantInfo(id, username, inVoice, isMuted), pos)
  }

  /** Reads `count` more participants after those in `ps`. */
  function ParseParticipants(d: seq<byte>, pos: nat, count: nat, ps: seq<ParticipantInfo>): Parsed<seq<ParticipantInfo>>
    decreases count
  {
    if count == 0 then Ok(ps, pos)
    else
      match ParseParticipant(d, pos)
      case Ok(p, next) => ParseParticipants(d, next, count - 1, ps + [p])
      case Err(error) => Err(error)
  }

  function ParseLoginResponse(d: seq<byte>): Parsed<Packet>
  {
    var (rid, pos) :- ParseU64(d, 0);
    var (id, pos) :- ParseU64(d, pos);
    var (token, pos) :- ParseU64(d, pos);
    var (count, pos) :- ParseU16(d, pos);
    var (ps, pos) :- ParseParticipants(d, pos, count, []);
    Ok(LoginResponse(rid, id, token, ps), pos)
  }

  /** A request id (or user id) followed by a flag. */
  function ParseIdFlag(d: seq<byte>): (r: Parsed<(u64, bool)>)
    ensures r.Ok? ==> r.next == 9 <= |d|
  {
    var (id, pos) :- ParseU64(d, 0);
    var (b, pos) :- ParseBool(d, pos);
    Ok((id, b), pos)
  }

  /** A request id followed by text. */
  function ParseIdText(d: seq<byte>): (r: Parsed<(u64, Text)>)
    ensures r.Ok? ==> r.next == 10 + |r.value.1| <= |d|
  {
    var (id, pos) :- ParseU64(d, 0);
    var (s, pos) :- ParseString(d, pos);
    Ok((id, s), pos)
  }

  /** Reads the fields of a packet of type `id` from exactly its payload. */
  function ParsePayload(id: PacketId, d: seq<byte>): Parsed<Packet>
  {
    match id
    case LoginRequestId => var (f, pos) :- ParseIdText(d); Ok(LoginRequest(f.0, f.1), pos)
    case VoiceAuthRequestId =>
      var (rid, pos) :- ParseU64(d, 0);
      var (token, pos) :- ParseU64(d, pos);
      Ok(VoiceAuthRequest(rid, token), pos)
    case JoinVoiceChannelRequestId => var (rid, pos) :- ParseU64(d, 0); Ok(JoinVoiceChannelRequest(rid), pos)
    case LeaveVoiceChannelRequestId => var (rid, pos) :- ParseU64(d, 0); Ok(LeaveVoiceChannelRequest(rid), pos)
    case ChatMessageRequestId => var (f, pos) :- ParseIdText(d); Ok(ChatMessageRequest(f.0, f.1), pos)
    case PingRequestId => var (rid, pos) :- ParseU64(d, 0); Ok(PingRequest(rid), pos)
    case LoginResponseId => ParseLoginResponse(d)
    case VoiceAuthResponseId => var (f, pos) :- ParseIdFlag(d); Ok(VoiceAuthResponse(f.0, f.1), pos)
    case JoinVoiceChannelResponseId => var (f, pos) :- ParseIdFlag(d); Ok(JoinVoiceChannelResponse(f.0, f.1), pos)
    case LeaveVoiceChannelResponseId => var (f, pos) :- ParseIdFlag(d); Ok(LeaveVoiceChannelResponse(f.0, f.1), pos)
    case ChatMessageResponseId => var (f, pos) :- ParseIdFlag(d); Ok(ChatMessageResponse(f.0, f.1), pos)
    case PingResponseId => var (rid, pos) :- ParseU64(d, 0); Ok(PingResponse(rid), pos)
    case UserJoinedServerId => var (p, pos) :- ParseParticipant(d, 0); Ok(UserJoinedServer(p), pos)
    case UserJoinedVoiceId => var (u, pos) :- ParseU64(d, 0); Ok(UserJoinedVoice(u), pos)
    case UserLeftVoiceId => var (u, pos) :- ParseU64(d, 0); Ok(UserLeftVoice(u), pos)
    case UserLeftServerId => var (u, pos) :- ParseU64(d, 0); Ok(UserLeftServer(u), pos)
    case UserSentMessageId =>
      var (u, pos) :- ParseU64(d, 0);
      var (sentAt, pos) :- ParseU64(d, pos);
      var (message, pos) :- ParseString(d, pos);
      Ok(UserSentMessage(u, sentAt, message), pos)
    case UserMuteStateId => var (f, pos) :- ParseIdFlag(d); Ok(UserMuteState(f.0, f.1), pos)
    case VoiceDataId =>
      var (u, pos) :- ParseU64(d, 0);
      var (sequence, pos) :- ParseU32(d, pos);
      var (timestamp, pos) :- ParseU32(d, pos);
      Ok(VoiceData(u, sequence, timestamp, d[pos..]), |d|)
  }

  /** The packet at the front of `b` and the bytes it takes, header included. */
  function Decode(b: seq<byte>): Parsed<Packet>
  {
    var (idByte, pos) :- ParseU8(b, 0);
    var id := IdFromByte(idByte);
    if id.None? then Err(UnknownPacketId(idByte)) else
    var (payloadLen, pos) :- ParseU16(b, pos);
    if |b| - pos < payloadLen then Err(IncompletePayload(payloadLen, |b| - pos))
    else
      var (packet, _) :- ParsePayload(id.value, b[pos..pos + payloadLen]);
      Ok(packet, pos + payloadLen)
  }
}
