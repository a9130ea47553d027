/** The imperative reader, writer, encoder and decoder, proved against the functions of `Codec`. */
module CodecIO {
  import opened Bytes
  import opened Sequences
  import opened Utf8Text
  import opened Packets
  import opened Codec
  import opened Decoding
  import opened CodecProofs

  datatype Result<+T> = Success(value: T) | Failure(error: ProtocolError) {
    predicate IsFailure() { Failure? }
    function PropagateFailure<U>(): Result<U> requires Failure? { Failure(error) }
    function Extract(): T requires Success? { value }
  }

  /** A read that ended with result `r` and cursor `pos` did what the specification `p` says. */
  predicate Agrees<T(==)>(p: Parsed<T>, r: Result<T>, pos: nat)
  {
    match p
    case Ok(value, next) => r == Success(value) && pos == next
    case Err(error) => r == Failure(error)
  }

  /** A cursor over a byte slice. */
  class Reader {
    const data: seq<byte>
    var pos: nat

    ghost predicate Valid()
      reads this
    {
      pos <= |data|
    }

    constructor (data: seq<byte>)
      ensures Valid() && this.data == data && pos == 0
    {
      this.data := data;
      pos := 0;
    }

    method ReadU8() returns (r: Result<byte>)
      requires Valid()
      modifies this
      ensures Valid() && Agrees(ParseU8(data, old(pos)), r, pos)
    {
      if pos >= |data| {
        return Failure(PacketTooShort(pos + 1, |data|));
      }
      var value := data[pos];
      pos := pos + 1;
      return Success(value);
    }

    method ReadUInt(width: nat) returns (r: Result<nat>)
      requires Valid()
      modifies this
      ensures Valid() && Agrees(ParseUInt(data, old(pos), width), r, pos)
    {
      if pos + width > |data| {
        return Failure(PacketTooShort(pos + width, |data|));
      }
      var value: nat := 0;
      var i := 0;
      while i < width
        invariant i <= width
        invariant value == FromBigEndian(data, pos, i)
      {
        value := 256 * value + data[pos + i];
        i := i + 1;
      }
      pos := pos + width;
      return Success(value);
    }

    method ReadU16() returns (r: Result<u16>)
      requires Valid()
      modifies this
      ensures Valid() && Agrees(ParseU16(data, old(pos)), r, pos)
    {
      CapacityValues();
      var n :- ReadUInt(2);
      return Success(n);
    }

    method ReadU32() returns (r: Result<u32>)
      requires Valid()
      modifies this
      ensures Valid() && Agrees(ParseU32(data, old(pos)), r, pos)
    {
      CapacityValues();
      var n :- ReadUInt(4);
      return Success(n);
    }

    method ReadU64() returns (r: Result<u64>)
      requires Valid()
      modifies this
      ensures Valid() && Agrees(ParseU64(data, old(pos)), r, pos)
    {
      CapacityValues();
      var n :- ReadUInt(8);
      return Success(n);
    }

    method ReadBool() returns (r: Result<bool>)
      requires Valid()
      modifies this
      ensures Valid() && Agrees(ParseBool(data, old(pos)), r, pos)
    {
      var b :- ReadU8();
      return Success(b != 0);
    }

    method ReadString() returns (r: Result<Text>)
      requires Valid()
      modifies this
      ensures Valid() && Agrees(ParseString(data, old(pos)), r, pos)
    {
      var len :- ReadU16();
      if pos + len > |data| {
        return Failure(PacketTooShort(pos + len, |data|));
      }
      var bytes := data[pos..pos + len];
      pos := pos + len;
      if !ValidUtf8(bytes) {
        return Failure(InvalidUtf8);
      }
      return Success(bytes);
    }

    method ReadParticipant() returns (r: Result<ParticipantInfo>)
      requires Valid()
      modifies this
      ensures Valid() && Agrees(ParseParticipant(data, old(pos)), r, pos)
    {
      var id :- ReadU64();
      var username :- ReadString();
      var inVoice :- ReadBool();
      var isMuted :- ReadBool();
      return Success(ParticipantInfo(id, username, inVoice, isMuted));
    }

    method ReadParticipants(count: nat) returns (r: Result<seq<ParticipantInfo>>)
      requires Valid()
      modifies this
      ensures Valid() && Agrees(ParseParticipants(data, old(pos), count, []), r, pos)
    {
      var ps := [];
      var left := count;
      while left > 0
        invariant Valid()
        invariant ParseParticipants(data, old(pos), count, []) == ParseParticipants(data, pos, left, ps)
      {
        ParseStep(data, pos, left - 1, ps);
        var p := ReadParticipant();
        if p.Failure? {
          return Failure(p.error);
        }
        ps, left := ps + [p.value], left - 1;
      }
      return Success(ps);
    }
  }

  /** An append-only buffer whose length field is filled in afterwards. */
  class Writer {
    var buf: seq<byte>

    constructor ()
      ensures buf == []
    {
      buf := [];
    }

    method WriteU8(value: byte)
      modifies this
      ensures buf == old(buf) + [value]
    {
      buf := buf + [value];
    }

    method WriteUInt(value: nat, width: nat)
      modifies this
      ensures buf == old(buf) + ToBigEndian(value, width)
    {
      buf := buf + ToBigEndian(value, width);
    }

    method WriteBool(value: bool)
      modifies this
      ensures buf == old(buf) + Flag(value)
    {
      buf := buf + [if value then 1 else 0];
    }

    method WriteBytes(bytes: seq<byte>)
      modifies this
      ensures buf == old(buf) + bytes
    {
      buf := buf + bytes;
    }

    /** `panicked` reports the "string too long" panic. */
    method WriteString(s: Text) returns (panicked: bool)
      modifies this
      ensures panicked <==> |s| > U16_MAX
      ensures !panicked ==> buf == old(buf) + Str(s)
    {
      if |s| > U16_MAX {
        return true;
      }
      WriteUInt(|s|, 2);
      WriteBytes(s);
      assert old(buf) + ToBigEndian(|s|, 2) + s == old(buf) + Str(s);
      return false;
    }

    method WriteParticipant(p: ParticipantInfo) returns (panicked: bool)
      modifies this
      ensures panicked <==> |p.username| > U16_MAX
      ensures !panicked ==> buf == old(buf) + Participant(p)
    {
      WriteUInt(p.userId, 8);
      panicked := WriteString(p.username);
      if !panicked {
        WriteBool(p.inVoice);
        WriteBool(p.isMuted);
        assert buf == old(buf) + (U64(p.userId) + Str(p.username) + Flag(p.inVoice) + Flag(p.isMuted));
      }
    }

    /** Reserves two bytes and returns their position. */
    method ReserveU16() returns (at: nat)
      modifies this
      ensures at == |old(buf)| && buf == old(buf) + [0, 0]
    {
      at := |buf|;
      buf := buf + [0, 0];
    }

    method WriteU16At(at: nat, value: u16)
      requires at + 2 <= |buf|
      modifies this
      ensures buf == old(buf)[..at] + U16(value) + old(buf)[at + 2..]
    {
      buf := buf[..at] + U16(value) + buf[at + 2..];
    }
  }

  /** Filling in the reserved length turns the bytes written into the encoding. */
  lemma BackPatch(p: Packet, buf: seq<byte>)
    requires Encodable(p) && buf == [IdToByte(TypeOf(p)), 0, 0] + Payload(p)
    ensures buf[..1] + U16(|Payload(p)|) + buf[3..] == Encode(p)
  {
    assert buf[3..] == Payload(p);
    assert buf[..1] == [IdToByte(TypeOf(p))];
  }

  /** `Packet::encode`; `None` stands for a panic. */
  method EncodePacket(p: Packet) returns (r: Option<seq<byte>>)
    ensures r == if Encodable(p) then Some(Encode(p)) else None
  {
    var w := new Writer();
    w.WriteU8(IdToByte(TypeOf(p)));
    var lenPos := w.ReserveU16();
    var payloadStart := |w.buf|;
    assert w.buf == [IdToByte(TypeOf(p)), 0, 0];
    var panicked := WritePayload(w, p);
    if panicked || |w.buf| - payloadStart > U16_MAX {
      return None;
    }
    BackPatch(p, w.buf);
    w.WriteU16At(lenPos, |w.buf| - payloadStart);
    return Some(w.buf);
  }

  /** Writes the fields of `p`; panics only when they do not fit a payload. */
  method WritePayload(w: Writer, p: Packet) returns (panicked: bool)
    modifies w
    ensures panicked ==> !Encodable(p)
    ensures !panicked ==> w.buf == old(w.buf) + Payload(p)
  {
    if IsRequest(p) {
      panicked := WriteRequest(w, p);
    } else if IsResponse(p) {
      panicked := WriteResponse(w, p);
    } else {
      panicked := WriteEvent(w, p);
    }
  }

  method WriteIdText(w: Writer, id: u64, s: Text) returns (panicked: bool)
    modifies w
    ensures panicked <==> |s| > U16_MAX
    ensures !panicked ==> w.buf == old(w.buf) + (U64(id) + Str(s))
  {
    w.WriteUInt(id, 8);
    panicked := w.WriteString(s);
  }

  method WriteRequest(w: Writer, p: Packet) returns (panicked: bool)
    requires IsRequest(p)
    modifies w
    ensures panicked ==> !Encodable(p)
    ensures !panicked ==> w.buf == old(w.buf) + Payload(p)
  {
    if p.LoginRequest? {
      panicked := WriteIdText(w, p.requestId, p.username);
      return;
    }
    if p.ChatMessageRequest? {
      panicked := WriteIdText(w, p.requestId, p.message);
      return;
    }
    w.WriteUInt(p.requestId, 8);
    if p.VoiceAuthRequest? {
      w.WriteUInt(p.voiceToken, 8);
      Assoc(old(w.buf), U64(p.requestId), U64(p.voiceToken));
    }
    return false;
  }

  method WriteResponse(w: Writer, p: Packet) returns (panicked: bool)
    requires IsResponse(p)
    modifies w
    ensures panicked ==> !Encodable(p)
    ensures !panicked ==> w.buf == old(w.buf) + Payload(p)
  {
    panicked := false;
    if p.LoginResponse? {
      panicked := WriteLoginResponse(w, p);
    } else {
      w.WriteUInt(p.requestId, 8);
      if !p.PingResponse? {
        w.WriteBool(p.success);
      }
    }
  }

  method WriteEvent(w: Writer, p: Packet) returns (panicked: bool)
    requires !IsRequest(p) && !IsResponse(p)
    modifies w
    ensures panicked ==> !Encodable(p)
    ensures !panicked ==> w.buf == old(w.buf) + Payload(p)
  {
    panicked := false;
    if p.UserJoinedServer? {
      panicked := w.WriteParticipant(p.participant);
    } else if p.UserSentMessage? {
      panicked := WriteSentMessage(w, p);
    } else if p.VoiceData? {
      WriteVoiceData(w, p);
    } else {
      w.WriteUInt(p.userId, 8);
      if p.UserMuteState? {
        w.WriteBool(p.isMuted);
      }
    }
  }

  method WriteSentMessage(w: Writer, p: Packet) returns (panicked: bool)
    requires p.UserSentMessage?
    modifies w
    ensures panicked ==> !Encodable(p)
    ensures !panicked ==> w.buf == old(w.buf) + Payload(p)
  {
    w.WriteUInt(p.userId, 8);
    w.WriteUInt(p.sentAt, 8);
    panicked := w.WriteString(p.message);
  }

  method WriteVoiceData(w: Writer, p: Packet)
    requires p.VoiceData?
    modifies w
    ensures w.buf == old(w.buf) + Payload(p)
  {
    w.WriteUInt(p.userId, 8);
    w.WriteUInt(p.sequence, 4);
    w.WriteUInt(p.timestamp, 4);
    w.WriteBytes(p.data);
  }

  method WriteLoginResponse(w: Writer, p: Packet) returns (panicked: bool)
    requires p.LoginResponse?
    modifies w
    ensures panicked ==> !Encodable(p)
    ensures !panicked ==> w.buf == old(w.buf) + Payload(p)
  {
    ghost var start := w.buf;
    w.WriteUInt(p.requestId, 8);
    w.WriteUInt(p.id, 8);
    w.WriteUInt(p.voiceToken, 8);
    Assoc(start, U64(p.requestId), U64(p.id));
    ghost var ids := U64(p.requestId) + U64(p.id) + U64(p.voiceToken);
    Assoc(start, U64(p.requestId) + U64(p.id), U64(p.voiceToken));
    if |p.participants| > U16_MAX {
      ParticipantsCount(p.participants);
      return true;
    }
    w.WriteUInt(|p.participants|, 2);
    Assoc(start, ids, ToBigEndian(|p.participants|, 2));
    panicked := WriteParticipants(w, p.participants);
    Assoc(start, ids + ToBigEndian(|p.participants|, 2), Participants(p.participants));
  }

  method WriteParticipants(w: Writer, ps: seq<ParticipantInfo>) returns (panicked: bool)
    modifies w
    ensures panicked ==> |Participants(ps)| > U16_MAX
    ensures !panicked ==> w.buf == old(w.buf) + Participants(ps)
  {
    ghost var head := w.buf;
    var i := 0;
    while i < |ps|
      invariant i <= |ps|
      invariant w.buf == head + Participants(ps[..i])
    {
      ParticipantsSplit(ps, i);
      Assoc(head, Participants(ps[..i]), Participant(ps[i]));
      panicked := w.WriteParticipant(ps[i]);
      if panicked {
        return true;
      }
      i := i + 1;
    }
    assert ps[..i] == ps;
    return false;
  }

  /** The list written up to entry `i`, entry `i`, and the rest. */
  lemma {:induction false} ParticipantsSplit(ps: seq<ParticipantInfo>, i: nat)
    requires i < |ps|
    ensures Participants(ps[..i + 1]) == Participants(ps[..i]) + Participant(ps[i])
    ensures |Participants(ps[..i])| + |Participant(ps[i])| <= |Participants(ps)|
  {
    if i > 0 {
      ParticipantsSplit(ps[1..], i - 1);
      assert ps[1..][..i] == ps[..i + 1][1..];
      assert ps[1..][..i - 1] == ps[..i][1..];
    } else {
      assert ps[..1][1..] == [];
    }
  }

  /** Reads the fields of a packet of type `id`. */
  method ReadPayload(r: Reader, id: PacketId) returns (result: Result<Packet>)
    requires r.Valid() && r.pos == 0
    modifies r
    ensures match ParsePayload(id, r.data)
      case Ok(p, _) => result == Success(p)
      case Err(e) => result == Failure(e)
  {
    match id
    case LoginRequestId =>
      var n :- r.ReadU64();
      var s :- r.ReadString();
      return Success(LoginRequest(n, s));
    case VoiceAuthRequestId =>
      var rid :- r.ReadU64();
      var token :- r.ReadU64();
      return Success(VoiceAuthRequest(rid, token));
    case JoinVoiceChannelRequestId =>
      var n :- r.ReadU64();
      return Success(JoinVoiceChannelRequest(n));
    case LeaveVoiceChannelRequestId =>
      var n :- r.ReadU64();
      return Success(LeaveVoiceChannelRequest(n));
    case ChatMessageRequestId =>
      var n :- r.ReadU64();
      var s :- r.ReadString();
      return Success(ChatMessageRequest(n, s));
    case PingRequestId =>
      var n :- r.ReadU64();
      return Success(PingRequest(n));
    case LoginResponseId =>
      result := ReadLoginResponse(r);
    case VoiceAuthResponseId =>
      var n :- r.ReadU64();
      var b :- r.ReadBool();
      return Success(VoiceAuthResponse(n, b));
    case JoinVoiceChannelResponseId =>
      var n :- r.ReadU64();
      var b :- r.ReadBool();
      return Success(JoinVoiceChannelResponse(n, b));
    case LeaveVoiceChannelResponseId =>
      var n :- r.ReadU64();
      var b :- r.ReadBool();
      return Success(LeaveVoiceChannelResponse(n, b));
    case ChatMessageResponseId =>
      var n :- r.ReadU64();
      var b :- r.ReadBool();
      return Success(ChatMessageResponse(n, b));
    case PingResponseId =>
      var n :- r.ReadU64();
      return Success(PingResponse(n));
    case UserJoinedServerId =>
      var p :- r.ReadParticipant();
      return Success(UserJoinedServer(p));
    case UserJoinedVoiceId =>
      var n :- r.ReadU64();
      return Success(UserJoinedVoice(n));
    case UserLeftVoiceId =>
      var n :- r.ReadU64();
      return Success(UserLeftVoice(n));
    case UserLeftServerId =>
      var n :- r.ReadU64();
      return Success(UserLeftServer(n));
    case UserSentMessageId =>
      var u :- r.ReadU64();
      var sentAt :- r.ReadU64();
      var message :- r.ReadString();
      return Success(UserSentMessage(u, sentAt, message));
    case UserMuteStateId =>
      var n :- r.ReadU64();
      var b :- r.ReadBool();
      return Success(UserMuteState(n, b));
    case VoiceDataId =>
      var u :- r.ReadU64();
      var sequence :- r.ReadU32();
      var timestamp :- r.ReadU32();
      return Success(VoiceData(u, sequence, timestamp, r.data[r.pos..]));
  }

  method ReadLoginResponse(r: Reader) returns (result: Result<Packet>)
    requires r.Valid() && r.pos == 0
    modifies r
    ensures match ParseLoginResponse(r.data)
      case Ok(p, _) => result == Success(p)
      case Err(e) => result == Failure(e)
  {
    var rid :- r.ReadU64();
    var id :- r.ReadU64();
    var token :- r.ReadU64();
    var count :- r.ReadU16();
    var ps :- r.ReadParticipants(count);
    return Success(LoginResponse(rid, id, token, ps));
  }

  /** `Packet::decode`. */
  method DecodePacket(buf: seq<byte>) returns (r: Result<(Packet, nat)>)
    ensures match Decode(buf)
      case Ok(p, n) => r == Success((p, n))
      case Err(e) => r == Failure(e)
  {
    var header := new Reader(buf);
    var idByte :- header.ReadU8();
    var id := IdFromByte(idByte);
    if id.None? {
      return Failure(UnknownPacketId(idByte));
    }
    var payloadLen :- header.ReadU16();
    var remaining := buf[header.pos..];
    if |remaining| < payloadLen {
      return Failure(IncompletePayload(payloadLen, |remaining|));
    }
    var body := new Reader(remaining[..payloadLen]);
    assert remaining[..payloadLen] == buf[3..3 + payloadLen];
    var packet :- ReadPayload(body, id.value);
    return Success((packet, header.pos + payloadLen));
  }
}
