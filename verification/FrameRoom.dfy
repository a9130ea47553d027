/** Which payloads have no room for their fields, told from the payload's length and the length prefixes in
    the bytes that have arrived so far. */
module FrameRoom {
  import opened Bytes
  import opened Utf8Text
  import opened Packets
  import opened Decoding

  // What is known of a payload of which only the bytes `q` are there

  /** The least value of the two-byte number at `pos`. */
  function AtLeast(q: seq<byte>, pos: nat): nat
  {
    (if pos < |q| then 256 * (q[pos] as nat) else 0) + (if pos + 1 < |q| then q[pos + 1] else 0)
  }

  /** The number at `pos` is there. */
  predicate Known(q: seq<byte>, pos: nat)
  {
    pos + 2 <= |q|
  }

  /** A payload of `n` bytes cannot hold the text whose length stands at `pos`. */
  predicate TextTooLong(q: seq<byte>, n: nat, pos: nat)
  {
    n < pos + 2 + AtLeast(q, pos)
  }

  /** The text whose length stands at `pos` is all there and valid. */
  predicate GoodText(q: seq<byte>, pos: nat)
  {
    Known(q, pos) && pos + 2 + AtLeast(q, pos) <= |q| && ValidUtf8(q[pos + 2..pos + 2 + AtLeast(q, pos)])
  }

  /** A payload of `n` bytes cannot hold the `count` participants that start at `pos`. */
  predicate ListTooLong(q: seq<byte>, n: nat, pos: nat, count: nat)
    decreases count
  {
    count > 0
    && (|| TextTooLong(q, n, pos + 8)
        || n == pos + 10
        || (GoodText(q, pos + 8)
            && var next := pos + 12 + AtLeast(q, pos + 8);
               n < next || ListTooLong(q, n, next, count - 1)))
  }

  /** A payload of `n` bytes cannot hold a login response. */
  predicate LoginResponseTooLong(q: seq<byte>, n: nat)
  {
    || n < 26
    || (if Known(q, 24) then ListTooLong(q, n, 26, AtLeast(q, 24)) else AtLeast(q, 24) > 0 && n < 37)
  }

  /** The size of packets that always have the same size, and the least size of voice data. */
  function FixedSize(id: PacketId): Option<nat>
  {
    match id
    case JoinVoiceChannelRequestId => Some(8)
    case LeaveVoiceChannelRequestId => Some(8)
    case PingRequestId => Some(8)
    case PingResponseId => Some(8)
    case UserJoinedVoiceId => Some(8)
    case UserLeftVoiceId => Some(8)
    case UserLeftServerId => Some(8)
    case VoiceAuthResponseId => Some(9)
    case JoinVoiceChannelResponseId => Some(9)
    case LeaveVoiceChannelResponseId => Some(9)
    case ChatMessageResponseId => Some(9)
    case UserMuteStateId => Some(9)
    case VoiceAuthRequestId => Some(16)
    case VoiceDataId => Some(16)
    case _ => None
  }

  /** No payload of `n` bytes that starts with `q` has room for the fields of a packet of type `id`. */
  predicate NoRoom(id: PacketId, q: seq<byte>, n: nat)
  {
    if FixedSize(id).Some? then n < FixedSize(id).value
    else
      match id
      case LoginResponseId => LoginResponseTooLong(q, n)
      case UserJoinedServerId => ListTooLong(q, n, 0, 1)
      case UserSentMessageId => TextTooLong(q, n, 16)
      case _ => TextTooLong(q, n, 8)
  }

  // A payload that is all there

  predicate TooShort<T>(r: Parsed<T>)
  {
    r.Err? && r.error.PacketTooShort?
  }

  predicate FieldError<T>(r: Parsed<T>)
  {
    r.Err? ==> r.error.PacketTooShort? || r.error.InvalidUtf8?
  }

  lemma {:induction false} ListErrors(d: seq<byte>, pos: nat, count: nat, ps: seq<ParticipantInfo>)
    ensures FieldError(ParseParticipants(d, pos, count, ps))
    decreases count
  {
    if count > 0 && ParseParticipant(d, pos).Ok? {
      var r := ParseParticipant(d, pos);
      ListErrors(d, r.next, count - 1, ps + [r.value]);
    }
  }

  /** Reading fields fails for want of bytes or over bad text only. */
  lemma PayloadErrors(id: PacketId, d: seq<byte>)
    ensures FieldError(ParsePayload(id, d))
  {
    if id.LoginResponseId? && ParseU16(d, 24).Ok? {
      ListErrors(d, 26, ParseU16(d, 24).value, []);
    }
  }

  lemma TwoBytes(d: seq<byte>, pos: nat)
    requires pos + 2 <= |d|
    ensures ParseU16(d, pos) == Ok(AtLeast(d, pos), pos + 2)
  {
    assert FromBigEndian(d, pos, 1) == 256 * FromBigEndian(d, pos, 0) + d[pos];
    assert FromBigEndian(d, pos, 2) == 256 * FromBigEndian(d, pos, 1) + d[pos + 1];
  }

  lemma TextExact(d: seq<byte>, pos: nat)
    ensures TooShort(ParseString(d, pos)) <==> TextTooLong(d, |d|, pos)
    ensures ParseString(d, pos).Ok? <==> GoodText(d, pos)
    ensures ParseString(d, pos).Ok? ==> |ParseString(d, pos).value| == AtLeast(d, pos)
  {
    if pos + 2 <= |d| {
      TwoBytes(d, pos);
    }
  }

  lemma ParticipantExact(d: seq<byte>, pos: nat)
    ensures var r := ParseParticipant(d, pos);
      && (TooShort(r) <==>
            || TextTooLong(d, |d|, pos + 8)
            || (GoodText(d, pos + 8) && |d| < pos + 12 + AtLeast(d, pos + 8)))
      && (r.Ok? <==> GoodText(d, pos + 8) && pos + 12 + AtLeast(d, pos + 8) <= |d|)
      && (r.Ok? ==> r.next == pos + 12 + AtLeast(d, pos + 8))
  {
    TextExact(d, pos + 8);
  }

  lemma FirstOfList(d: seq<byte>, pos: nat, count: nat, ps: seq<ParticipantInfo>)
    requires count > 0
    ensures var r := ParseParticipant(d, pos);
      TooShort(ParseParticipants(d, pos, count, ps)) <==>
        TooShort(r) || (r.Ok? && TooShort(ParseParticipants(d, r.next, count - 1, ps + [r.value])))
  {
  }

  lemma NoFlagsLeft(d: seq<byte>, pos: nat)
    requires |d| == pos + 10 && !TextTooLong(d, |d|, pos + 8)
    ensures AtLeast(d, pos + 8) == 0 && GoodText(d, pos + 8)
  {
  }

  /** A list whose first entry cannot be read. */
  lemma FirstFails(d: seq<byte>, pos: nat, count: nat)
    requires count > 0 && ParseParticipant(d, pos).Err?
    ensures TooShort(ParseParticipant(d, pos)) <==> ListTooLong(d, |d|, pos, count)
  {
    ParticipantExact(d, pos);
    if |d| == pos + 10 && !TextTooLong(d, |d|, pos + 8) {
      NoFlagsLeft(d, pos);
    }
  }

  lemma FirstSucceeds(d: seq<byte>, pos: nat, count: nat)
    requires count > 0 && ParseParticipant(d, pos).Ok?
    ensures ListTooLong(d, |d|, pos, count) <==> ListTooLong(d, |d|, ParseParticipant(d, pos).next, count - 1)
  {
    ParticipantExact(d, pos);
  }

  lemma {:induction false} ListExact(d: seq<byte>, pos: nat, count: nat, ps: seq<ParticipantInfo>)
    ensures TooShort(ParseParticipants(d, pos, count, ps)) <==> ListTooLong(d, |d|, pos, count)
    decreases count
  {
    if count == 0 {
      return;
    }
    FirstOfList(d, pos, count, ps);
    var r := ParseParticipant(d, pos);
    if r.Err? {
      FirstFails(d, pos, count);
      return;
    }
    FirstSucceeds(d, pos, count);
    ListExact(d, r.next, count - 1, ps + [r.value]);
  }

  lemma LoginResponseExact(d: seq<byte>)
    ensures TooShort(ParseLoginResponse(d)) <==> LoginResponseTooLong(d, |d|)
  {
    if 26 <= |d| {
      TwoBytes(d, 24);
      ListExact(d, 26, AtLeast(d, 24), []);
    }
  }

  lemma TextPacketExact(id: PacketId, d: seq<byte>)
    requires id.LoginRequestId? || id.ChatMessageRequestId? || id.UserSentMessageId?
    ensures TooShort(ParsePayload(id, d)) <==> NoRoom(id, d, |d|)
  {
    TextExact(d, 8);
    TextExact(d, 16);
  }

  lemma FixedExact(id: PacketId, d: seq<byte>)
    requires FixedSize(id).Some?
    ensures TooShort(ParsePayload(id, d)) <==> |d| < FixedSize(id).value
  {
  }

  /** For a payload that is all there, no room means that reading it runs out of bytes. */
  lemma CompleteExact(id: PacketId, d: seq<byte>)
    ensures TooShort(ParsePayload(id, d)) <==> NoRoom(id, d, |d|)
  {
    if FixedSize(id).Some? {
      FixedExact(id, d);
    } else if id.LoginResponseId? {
      LoginResponseExact(d);
    } else if id.UserJoinedServerId? {
      ListExact(d, 0, 1, []);
      assert ParseParticipants(d, 0, 1, []).Err? <==> ParseParticipant(d, 0).Err?;
    } else {
      TextPacketExact(id, d);
    }
  }

  // More bytes arrive

  /** What is known stays known. */
  lemma KnownStays(q: seq<byte>, d: seq<byte>, pos: nat)
    requires q <= d
    ensures AtLeast(q, pos) <= AtLeast(d, pos)
    ensures Known(q, pos) ==> Known(d, pos) && AtLeast(q, pos) == AtLeast(d, pos)
    ensures GoodText(q, pos) ==> GoodText(d, pos)
  {
    if GoodText(q, pos) {
      var end := pos + 2 + AtLeast(q, pos);
      assert q[pos + 2..end] == d[pos + 2..end];
    }
  }

  lemma {:induction false} ListStaysTooLong(q: seq<byte>, d: seq<byte>, n: nat, pos: nat, count: nat)
    requires q <= d && ListTooLong(q, n, pos, count)
    ensures ListTooLong(d, n, pos, count)
    decreases count
  {
    KnownStays(q, d, pos + 8);
    if GoodText(q, pos + 8) {
      var next := pos + 12 + AtLeast(q, pos + 8);
      if ListTooLong(q, n, next, count - 1) {
        ListStaysTooLong(q, d, n, next, count - 1);
      }
    }
  }

  lemma {:induction false} LongListTooLong(d: seq<byte>, n: nat, count: nat)
    requires 26 <= n < 37 && count > 0
    ensures ListTooLong(d, n, 26, count)
  {
  }

  /** Later bytes do not make room. */
  lemma NoRoomStays(id: PacketId, q: seq<byte>, d: seq<byte>, n: nat)
    requires q <= d && NoRoom(id, q, n)
    ensures NoRoom(id, d, n)
  {
    if id.LoginResponseId? {
      KnownStays(q, d, 24);
      if n >= 26 && Known(q, 24) {
        ListStaysTooLong(q, d, n, 26, AtLeast(q, 24));
      } else if n >= 26 && Known(d, 24) {
        LongListTooLong(d, n, AtLeast(d, 24));
      }
    } else if id.UserJoinedServerId? {
      ListStaysTooLong(q, d, n, 0, 1);
    } else {
      KnownStays(q, d, 8);
      KnownStays(q, d, 16);
    }
  }

  // Bytes that make the best of the room there is

  /** The next byte of a list, such that it ends well or with a fatal error if it possibly can. */
  function ListByte(q: seq<byte>, pos: nat, count: nat): byte
    decreases count
  {
    if count == 0 || |q| < pos + 9 then 0
    else if |q| == pos + 9 then (if q[pos + 8] == 0 then 1 else 0)
    else if |q| < pos + 10 + AtLeast(q, pos + 8) then 0xFF
    else ListByte(q, pos + 12 + AtLeast(q, pos + 8), count - 1)
  }

  function NextByte(id: PacketId, q: seq<byte>): byte
  {
    match id
    case LoginResponseId => if Known(q, 24) then ListByte(q, 26, AtLeast(q, 24)) else 0
    case UserJoinedServerId => ListByte(q, 0, 1)
    case _ => 0
  }

  lemma {:induction false} NotText(s: seq<byte>, i: nat)
    requires i < |s| && s[i] == 0xFF
    ensures !ValidUtf8(s)
    decreases |s|
  {
    if CharLen(s) > 0 && CharLen(s) <= i {
      NotText(s[CharLen(s)..], i - CharLen(s));
    }
  }

  /** A text that ends in the byte 0xFF is not good. */
  lemma BadText(q: seq<byte>, pos: nat)
    requires Known(q, pos) && pos + 2 < |q| == pos + 2 + AtLeast(q, pos) && q[|q| - 1] == 0xFF
    ensures !GoodText(q, pos)
  {
    assert q[pos + 2..pos + 2 + AtLeast(q, pos)] == q[pos + 2..];
    NotText(q[pos + 2..], |q| - pos - 3);
  }

  lemma {:induction false} ListStaysRoomy(q: seq<byte>, n: nat, pos: nat, count: nat)
    requires !ListTooLong(q, n, pos, count) && |q| < n
    ensures !ListTooLong(q + [ListByte(q, pos, count)], n, pos, count)
    decreases count
  {
    if count == 0 {
      return;
    }
    var d := q + [ListByte(q, pos, count)];
    KnownStays(q, d, pos + 8);
    if |q| < pos + 10 {
      return;
    }
    var end := pos + 10 + AtLeast(q, pos + 8);
    if |q| < end {
      if |d| == end {
        BadText(d, pos + 8);
      }
    } else {
      assert q[pos + 10..end] == d[pos + 10..end];
      if n >= end + 2 && GoodText(q, pos + 8) {
        ListStaysRoomy(q, n, end + 2, count - 1);
      }
    }
  }

  lemma LoginResponseStaysRoomy(q: seq<byte>, n: nat)
    requires !LoginResponseTooLong(q, n) && |q| < n
    ensures !LoginResponseTooLong(q + [NextByte(LoginResponseId, q)], n)
  {
    var d := q + [NextByte(LoginResponseId, q)];
    KnownStays(q, d, 24);
    if Known(q, 24) {
      ListStaysRoomy(q, n, 26, AtLeast(q, 24));
    } else if |d| == 26 && AtLeast(q, 24) > 0 {
      assert !Known(d, 34) && AtLeast(d, 34) == 0;
    }
  }

  lemma NextByteFits(id: PacketId, q: seq<byte>, n: nat)
    requires !NoRoom(id, q, n) && |q| < n
    ensures !NoRoom(id, q + [NextByte(id, q)], n)
  {
    if id.LoginResponseId? {
      LoginResponseStaysRoomy(q, n);
    } else if id.UserJoinedServerId? {
      ListStaysRoomy(q, n, 0, 1);
    }
  }

  /** As long as there is room, bytes may arrive that use it. */
  lemma {:induction false} Completion(id: PacketId, q: seq<byte>, n: nat) returns (d: seq<byte>)
    requires !NoRoom(id, q, n) && |q| <= n
    ensures q <= d && |d| == n && !NoRoom(id, d, n)
    decreases n - |q|
  {
    d := q;
    if |q| < n {
      NextByteFits(id, q, n);
      d := Completion(id, q + [NextByte(id, q)], n);
    }
  }
}
