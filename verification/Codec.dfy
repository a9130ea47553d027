/** The wire format as a function: what `Packet::encode` writes. */
module Codec {
  import opened Bytes
  import opened Utf8Text
  import opened Packets

  function U16(n: u16): seq<byte> { ToBigEndian(n, 2) }
  function U32(n: u32): seq<byte> { ToBigEndian(n, 4) }
  function U64(n: u64): seq<byte> { ToBigEndian(n, 8) }
  function Flag(b: bool): seq<byte> { [if b then 1 else 0] }
  /** Meaningful when `s` is at most 65535 bytes long; the writer refuses longer text. */
  function Str(s: Text): seq<byte> { ToBigEndian(|s|, 2) + s }

  function Participant(p: ParticipantInfo): seq<byte>
  {
    U64(p.userId) + Str(p.username) + Flag(p.inVoice) + Flag(p.isMuted)
  }

  function Participants(ps: seq<ParticipantInfo>): seq<byte>
  {
    if ps == [] then [] else Participant(ps[0]) + Participants(ps[1..])
  }

  function Payload(p: Packet): seq<byte>
  {
    match p
    case LoginRequest(rid, username) => U64(rid) + Str(username)
    case VoiceAuthRequest(rid, token) => U64(rid) + U64(token)
    case JoinVoiceChannelRequest(rid) => U64(rid)
    case LeaveVoiceChannelRequest(rid) => U64(rid)
    case ChatMessageRequest(rid, message) => U64(rid) + Str(message)
    case PingRequest(rid) => U64(rid)
    case LoginResponse(rid, id, token, ps) =>
      U64(rid) + U64(id) + U64(token) + ToBigEndian(|ps|, 2) + Participants(ps)
    case VoiceAuthResponse(rid, success) => U64(rid) + Flag(success)
    case JoinVoiceChannelResponse(rid, success) => U64(rid) + Flag(success)
    case LeaveVoiceChannelResponse(rid, success) => U64(rid) + Flag(success)
    case ChatMessageResponse(rid, success) => U64(rid) + Flag(success)
    case PingResponse(rid) => U64(rid)
    case UserJoinedServer(participant) => Participant(participant)
    case UserJoinedVoice(id) => U64(id)
    case UserLeftVoice(id) => U64(id)
    case UserLeftServer(id) => U64(id)
    case UserMuteState(id, muted) => U64(id) + Flag(muted)
    case UserSentMessage(id, sentAt, message) => U64(id) + U64(sentAt) + Str(message)
    case VoiceData(id, sequence, timestamp, data) => U64(id) + U32(sequence) + U32(timestamp) + data
  }

  /** The packets that `encode` writes without panicking. */
  predicate Encodable(p: Packet)
  {
    |Payload(p)| <= U16_MAX
  }

  function Encode(p: Packet): (s: seq<byte>)
    requires Encodable(p)
  {
    [IdToByte(TypeOf(p))] + U16(|Payload(p)|) + Payload(p)
  }
}
