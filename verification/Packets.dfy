/** The packets of the wire protocol, their type ids and their request ids. */
module Packets {
  import opened Bytes
  import opened Utf8Text

  datatype Option<+T> = None | Some(value: T)

  datatype ParticipantInfo = ParticipantInfo(userId: u64, username: Text, inVoice: bool, isMuted: bool)

  datatype Packet =
    // Requests
    | LoginRequest(requestId: u64, username: Text)
    | VoiceAuthRequest(requestId: u64, voiceToken: u64)
    | JoinVoiceChannelRequest(requestId: u64)
    | LeaveVoiceChannelRequest(requestId: u64)
    | ChatMessageRequest(requestId: u64, message: Text)
    | PingRequest(requestId: u64)
    // Responses
    | LoginResponse(requestId: u64, id: u64, voiceToken: u64, participants: seq<ParticipantInfo>)
    | VoiceAuthResponse(requestId: u64, success: bool)
    | JoinVoiceChannelResponse(requestId: u64, success: bool)
    | LeaveVoiceChannelResponse(requestId: u64, success: bool)
    | ChatMessageResponse(requestId: u64, success: bool)
    | PingResponse(requestId: u64)
    // Events
    | UserJoinedServer(participant: ParticipantInfo)
    | UserJoinedVoice(userId: u64)
    | UserLeftVoice(userId: u64)
    | UserLeftServer(userId: u64)
    | UserSentMessage(userId: u64, sentAt: u64, message: Text)
    | UserMuteState(userId: u64, isMuted: bool)
    // UDP
    | VoiceData(userId: u64, sequence: u32, timestamp: u32, data: seq<byte>)

  /** The type of a packet, without its fields. */
  datatype PacketId =
    | LoginRequestId | JoinVoiceChannelRequestId | VoiceAuthRequestId
    | LeaveVoiceChannelRequestId | ChatMessageRequestId | PingRequestId
    | LoginResponseId | VoiceAuthResponseId | JoinVoiceChannelResponseId
    | LeaveVoiceChannelResponseId | ChatMessageResponseId | PingResponseId
    | UserJoinedServerId | UserJoinedVoiceId | UserLeftVoiceId
    | UserLeftServerId | UserSentMessageId | UserMuteStateId
    | VoiceDataId

  function IdToByte(id: PacketId): byte
  {
    match id
    case LoginRequestId => 0x01
    case JoinVoiceChannelRequestId => 0x02
    case VoiceAuthRequestId => 0x03
    case LeaveVoiceChannelRequestId => 0x04
    case ChatMessageRequestId => 0x05
    case PingRequestId => 0x06
    case LoginResponseId => 0x21
    case VoiceAuthResponseId => 0x22
    case JoinVoiceChannelResponseId => 0x23
    case LeaveVoiceChannelResponseId => 0x24
    case ChatMessageResponseId => 0x25
    case PingResponseId => 0x26
    case UserJoinedServerId => 0x41
    case UserJoinedVoiceId => 0x42
    case UserLeftVoiceId => 0x43
    case UserLeftServerId => 0x44
    case UserSentMessageId => 0x45
    case UserMuteStateId => 0x46
    case VoiceDataId => 0x61
  }

  /** The packet type with wire value `b`; every other value is unknown. */
  function IdFromByte(b: byte): (r: Option<PacketId>)
    ensures r.Some? ==> IdToByte(r.value) == b
    ensures r.None? ==> forall id :: IdToByte(id) != b
  {
    match b
    case 0x01 => Some(LoginRequestId)
    case 0x02 => Some(JoinVoiceChannelRequestId)
    case 0x03 => Some(VoiceAuthRequestId)
    case 0x04 => Some(LeaveVoiceChannelRequestId)
    case 0x05 => Some(ChatMessageRequestId)
    case 0x06 => Some(PingRequestId)
    case 0x21 => Some(LoginResponseId)
    case 0x22 => Some(VoiceAuthResponseId)
    case 0x23 => Some(JoinVoiceChannelResponseId)
    case 0x24 => Some(LeaveVoiceChannelResponseId)
    case 0x25 => Some(ChatMessageResponseId)
    case 0x26 => Some(PingResponseId)
    case 0x41 => Some(UserJoinedServerId)
    case 0x42 => Some(UserJoinedVoiceId)
    case 0x43 => Some(UserLeftVoiceId)
    case 0x44 => Some(UserLeftServerId)
    case 0x45 => Some(UserSentMessageId)
    case 0x46 => Some(UserMuteStateId)
    case 0x61 => Some(VoiceDataId)
    case _ => None
  }

  function TypeOf(p: Packet): PacketId
  {
    match p
    case LoginRequest(_, _) => LoginRequestId
    case VoiceAuthRequest(_, _) => VoiceAuthRequestId
    case JoinVoiceChannelRequest(_) => JoinVoiceChannelRequestId
    case LeaveVoiceChannelRequest(_) => LeaveVoiceChannelRequestId
    case ChatMessageRequest(_, _) => ChatMessageRequestId
    case PingRequest(_) => PingRequestId
    case LoginResponse(_, _, _, _) => LoginResponseId
    case VoiceAuthResponse(_, _) => VoiceAuthResponseId
    case JoinVoiceChannelResponse(_, _) => JoinVoiceChannelResponseId
    case LeaveVoiceChannelResponse(_, _) => LeaveVoiceChannelResponseId
    case ChatMessageResponse(_, _) => ChatMessageResponseId
    case PingResponse(_) => PingResponseId
    case UserJoinedServer(_) => UserJoinedServerId
    case UserJoinedVoice(_) => UserJoinedVoiceId
    case UserLeftVoice(_) => UserLeftVoiceId
    case UserLeftServer(_) => UserLeftServerId
    case UserSentMessage(_, _, _) => UserSentMessageId
    case UserMuteState(_, _) => UserMuteStateId
    case VoiceData(_, _, _, _) => VoiceDataId
  }

  /** The request id of a request or response; events and voice data have none. */
  function RequestId(p: Packet): Option<u64>
  {
    match p
    case LoginRequest(rid, _) => Some(rid)
    case VoiceAuthRequest(rid, _) => Some(rid)
    case JoinVoiceChannelRequest(rid) => Some(rid)
    case LeaveVoiceChannelRequest(rid) => Some(rid)
    case ChatMessageRequest(rid, _) => Some(rid)
    case PingRequest(rid) => Some(rid)
    case LoginResponse(rid, _, _, _) => Some(rid)
    case VoiceAuthResponse(rid, _) => Some(rid)
    case JoinVoiceChannelResponse(rid, _) => Some(rid)
    case LeaveVoiceChannelResponse(rid, _) => Some(rid)
    case ChatMessageResponse(rid, _) => Some(rid)
    case PingResponse(rid) => Some(rid)
    case _ => None
  }
}
