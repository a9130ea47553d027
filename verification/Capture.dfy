/** The microphone pipeline: re-blocking, resampling, encoding and numbering. Samples are of any type; the
    resampler and Opus are deterministic functions of everything they have been given so far. */
module Capture {
  import opened Bytes
  import opened Sequences
  import opened Packets
  import opened Codec
  import opened Decoding
  import opened CodecProofs
  import opened RelayServer
  import opened StreamBlocks
  import opened Wrapping

  const RESAMPLER_CHUNK_SIZE: nat := 480
  const OPUS_FRAME_SIZE: nat := 48000 / 1000 * 20
  const MAX_OPUS_FRAME: nat := 4000
  const TWO_32: nat := 0x1_0000_0000

  type OpusFrame = s: seq<byte> | |s| <= MAX_OPUS_FRAME witness []

  /** What the resampler returns for the last of the blocks it has been given, or None for an error. */
  type Resampler<!S> = seq<seq<S>> -> Option<seq<S>>

  /** What Opus returns for the last of the frames it has been given, or None for an error. */
  type Opus<!S> = seq<seq<S>> -> Option<OpusFrame>

  // Specification

  function OrNothing<S>(r: Option<seq<S>>): seq<S>
  {
    if r.Some? then r.value else []
  }

  /** Everything the resampler has returned; a block with an error yields nothing. */
  function Resampled<S>(resampler: Resampler<S>, blocks: seq<seq<S>>): seq<S>
    decreases |blocks|
  {
    if blocks == [] then []
    else Resampled(resampler, blocks[..|blocks| - 1]) + OrNothing(resampler(blocks))
  }

  /** The stream to be encoded for the microphone samples `input`; at 48 kHz there is no resampler. */
  function Stream<S>(resampler: Option<Resampler<S>>, input: seq<S>): seq<S>
  {
    if resampler.None? then input
    else Resampled(resampler.value, Blocks(input, RESAMPLER_CHUNK_SIZE))
  }

  function Frames<S>(resampler: Option<Resampler<S>>, input: seq<S>): seq<seq<S>>
  {
    Blocks(Stream(resampler, input), OPUS_FRAME_SIZE)
  }

  /** The packet with number `n`; both counters wrap around. */
  function PacketAt(n: nat, data: OpusFrame): (p: Packet)
    ensures Encodable(p)
  {
    VoiceData(0, n % TWO_32, OPUS_FRAME_SIZE * n % TWO_32, data)
  }

  datatype Numbered = Numbered(n: nat, data: OpusFrame)

  /** What is sent for `frames`, and whether sending has stopped for good: it does at the first frame that
      Opus refuses or whose packet finds the sender's channel closed. */
  function Sent<S>(opus: Opus<S>, open: nat -> bool, frames: seq<seq<S>>): (seq<Numbered>, bool)
    decreases |frames|
  {
    if frames == [] then ([], false)
    else
      var n := |frames| - 1;
      var before := Sent(opus, open, frames[..n]);
      if before.1 || opus(frames).None? || !open(n) then (before.0, true)
      else (before.0 + [Numbered(n, opus(frames).value)], false)
  }

  /** The packets as bytes. */
  function Wire(ps: seq<Numbered>): seq<seq<byte>>
  {
    seq(|ps|, i requires 0 <= i < |ps| => Encode(PacketAt(ps[i].n, ps[i].data)))
  }

  lemma WireOne(ps: seq<Numbered>, p: Numbered)
    ensures Wire(ps + [p]) == Wire(ps) + [Encode(PacketAt(p.n, p.data))]
  {
  }

  /** How one more frame adds to what is sent. */
  lemma SentOne<S>(opus: Opus<S>, open: nat -> bool, frames: seq<seq<S>>, frame: seq<S>)
    requires !Sent(opus, open, frames).1
    ensures var n, longer := |frames|, frames + [frame];
      Sent(opus, open, longer) ==
        if opus(longer).None? || !open(n) then (Sent(opus, open, frames).0, true)
        else (Sent(opus, open, frames).0 + [Numbered(n, opus(longer).value)], false)
  {
    assert (frames + [frame])[..|frames|] == frames;
  }

  /** Frame number `i` has been encoded to `p`, and there was a taker for the packet. */
  ghost predicate GoesOut<S>(opus: Opus<S>, open: nat -> bool, frames: seq<seq<S>>, i: nat, p: Numbered)
  {
    i < |frames| && open(i) && p.n == i && opus(frames[..i + 1]) == Some(p.data)
  }

  lemma GoesOutLonger<S>(opus: Opus<S>, open: nat -> bool, frames: seq<seq<S>>, n: nat, i: nat, p: Numbered)
    requires n <= |frames| && GoesOut(opus, open, frames[..n], i, p)
    ensures GoesOut(opus, open, frames, i, p)
  {
    assert frames[..n][..i + 1] == frames[..i + 1];
  }

  /** The packets sent are those of the first frames, in order, up to the first frame that Opus refuses or whose
      packet finds no taker. */
  lemma {:induction false} SentUpToFailure<S>(opus: Opus<S>, open: nat -> bool, frames: seq<seq<S>>)
    ensures var ps := Sent(opus, open, frames).0;
      && |ps| <= |frames|
      && (forall i :: 0 <= i < |ps| ==> GoesOut(opus, open, frames, i, ps[i]))
      && (Sent(opus, open, frames).1 <==> |ps| < |frames|)
      && (|ps| < |frames| ==> opus(frames[..|ps| + 1]).None? || !open(|ps|))
    decreases |frames|
  {
    if frames != [] {
      var n := |frames| - 1;
      var before := Sent(opus, open, frames[..n]).0;
      SentUpToFailure(opus, open, frames[..n]);
      assert frames[..n + 1] == frames;
      forall i | 0 <= i < |before|
        ensures GoesOut(opus, open, frames, i, before[i])
      {
        GoesOutLonger(opus, open, frames, n, i, before[i]);
      }
      if |before| < n {
        assert frames[..n][..|before| + 1] == frames[..|before| + 1];
      }
    }
  }

  lemma {:induction false} SamplesBefore<S>(frames: seq<seq<S>>)
    requires forall i :: 0 <= i < |frames| ==> |frames[i]| == 960
    ensures |Flatten(frames)| == 960 * |frames|
  {
    if frames != [] {
      SamplesBefore(frames[1..]);
    }
  }

  /** The packet with sequence number `n` and timestamp `t`, both wrapped around. */
  ghost predicate HasNumbers(bytes: seq<byte>, n: nat, t: nat, data: OpusFrame)
  {
    Decode(bytes) == Ok(VoiceData(0, n % 0x1_0000_0000, t % 0x1_0000_0000, data), |bytes|) && |bytes| <= 4019
  }

  /** The `i`-th packet sent for `frames`: its sequence number is `i`, its timestamp the number of samples in the frames
      before it, both modulo 2^32. */
  ghost predicate PacketOf<S>(opus: Opus<S>, frames: seq<seq<S>>, i: nat, bytes: seq<byte>)
    requires i < |frames|
  {
    && |frames[i]| == 960 && opus(frames[..i + 1]).Some?
    && HasNumbers(bytes, i, |Flatten(frames[..i])|, opus(frames[..i + 1]).value)
  }

  lemma NumbersOf(n: nat, data: OpusFrame)
    ensures PacketAt(n, data) == VoiceData(0, n % 0x1_0000_0000, 960 * n % 0x1_0000_0000, data)
  {
  }

  lemma NumberCarried(n: nat, data: OpusFrame)
    ensures HasNumbers(Encode(PacketAt(n, data)), n, 960 * n, data)
  {
    var p := PacketAt(n, data);
    NumbersOf(n, data);
    WholeDecodes(p, data);
  }

  lemma WholeDecodes(p: Packet, data: OpusFrame)
    requires p.VoiceData? && p.data == data && Encodable(p)
    ensures Decode(Encode(p)) == Ok(p, |Encode(p)|) && |Encode(p)| <= 4019
  {
    RoundTrip(p, []);
    assert Encode(p) + [] == Encode(p);
  }

  lemma PacketOfFrame<S>(opus: Opus<S>, frames: seq<seq<S>>, i: nat, data: OpusFrame, bytes: seq<byte>)
    requires forall j :: 0 <= j < |frames| ==> |frames[j]| == 960
    requires i < |frames| && opus(frames[..i + 1]) == Some(data) && HasNumbers(bytes, i, 960 * i, data)
    ensures PacketOf(opus, frames, i, bytes)
  {
    SamplesBefore(frames[..i]);
  }

  /** Packets are numbered in order, and their timestamps count samples. */
  lemma PacketsAreNumbered<S>(opus: Opus<S>, open: nat -> bool, frames: seq<seq<S>>, i: nat)
    requires forall j :: 0 <= j < |frames| ==> |frames[j]| == 960
    requires i < |Sent(opus, open, frames).0|
    ensures |Sent(opus, open, frames).0| <= |frames|
    ensures PacketOf(opus, frames, i, Wire(Sent(opus, open, frames).0)[i])
  {
    SentUpToFailure(opus, open, frames);
    var p := Sent(opus, open, frames).0[i];
    assert GoesOut(opus, open, frames, i, p);
    NumberCarried(i, p.data);
    PacketOfFrame(opus, frames, i, p.data, Encode(PacketAt(i, p.data)));
  }

  /** Once sending has stopped, further frames change nothing. */
  lemma {:induction false} StopsForGood<S>(opus: Opus<S>, open: nat -> bool, frames: seq<seq<S>>, more: seq<seq<S>>)
    requires Sent(opus, open, frames).1
    ensures Sent(opus, open, frames + more) == Sent(opus, open, frames)
    decreases |more|
  {
    if more == [] {
      assert frames + more == frames;
    } else {
      var n := |more| - 1;
      StopsForGood(opus, open, frames, more[..n]);
      assert (frames + more)[..|frames + more| - 1] == frames + more[..n];
    }
  }

  lemma {:induction false} ResampledGrows<S>(resampler: Resampler<S>, a: seq<seq<S>>, b: seq<seq<S>>)
    ensures Resampled(resampler, a) <= Resampled(resampler, a + b)
    decreases |b|
  {
    if b == [] {
      assert a + b == a;
    } else {
      ResampledGrows(resampler, a, b[..|b| - 1]);
      assert (a + b)[..|a + b| - 1] == a + b[..|b| - 1];
    }
  }

  /** More input only adds to the stream and to the frames cut from it. */
  lemma FramesGrow<S>(resampler: Option<Resampler<S>>, input: seq<S>, more: seq<S>)
    ensures Stream(resampler, input) <= Stream(resampler, input + more)
    ensures Frames(resampler, input) <= Frames(resampler, input + more)
  {
    if resampler.Some? {
      BlocksAppend(input, more, RESAMPLER_CHUNK_SIZE);
      ResampledGrows(resampler.value, Blocks(input, RESAMPLER_CHUNK_SIZE),
        Blocks(Rest(input, RESAMPLER_CHUNK_SIZE) + more, RESAMPLER_CHUNK_SIZE));
    }
    var before, after := Stream(resampler, input), Stream(resampler, input + more);
    assert after == before + after[|before|..];
    BlocksAppend(before, after[|before|..], OPUS_FRAME_SIZE);
  }

  lemma MoreFrames<S>(resampler: Option<Resampler<S>>, parts: seq<seq<S>>, i: nat)
    requires i <= |parts|
    ensures Frames(resampler, Flatten(parts[..i])) <= Frames(resampler, Flatten(parts))
  {
    SplitAt(parts, i);
    FlattenAppend(parts[..i], parts[i..]);
    FramesGrow(resampler, Flatten(parts[..i]), Flatten(parts[i..]));
  }

  lemma StaysStopped<S>(opus: Opus<S>, open: nat -> bool, frames: seq<seq<S>>, all: seq<seq<S>>)
    requires Sent(opus, open, frames).1 && frames <= all
    ensures Sent(opus, open, all) == Sent(opus, open, frames)
  {
    SplitAt(all, |frames|);
    assert all[..|frames|] == frames;
    StopsForGood(opus, open, frames, all[|frames|..]);
  }

  // The encoder

  function Padded<S>(samples: seq<S>, silence: S): seq<S>
    requires |samples| <= OPUS_FRAME_SIZE
  {
    samples + seq(OPUS_FRAME_SIZE - |samples|, i => silence)
  }

  lemma FullFrame<S>(frame: seq<S>, silence: S)
    requires |frame| == OPUS_FRAME_SIZE
    ensures Padded(frame, silence) == frame
  {
  }

  class Encoder<!S> {
    const opus: Opus<S>
    const silence: S
    // What the Opus encoder has been given
    var history: seq<seq<S>>
    var sequence: u32
    var timestamp: u32

    constructor (opus: Opus<S>, silence: S)
      ensures this.opus == opus && this.silence == silence && history == [] && sequence == 0 && timestamp == 0
    {
      this.opus, this.silence, history, sequence, timestamp := opus, silence, [], 0, 0;
    }

    /** Encodes up to one frame of samples, padded with silence. */
    method Encode(samples: seq<S>) returns (r: Option<Packet>)
      modifies this
      ensures |samples| > 960 ==> r.None? && unchanged(this)
      ensures |samples| <= 960 ==>
        && history == old(history) + [Padded(samples, silence)]
        && |history[|old(history)|]| == 960 && samples <= history[|old(history)|]
        && (forall i :: |samples| <= i < 960 ==> history[|old(history)|][i] == silence)
        && match opus(history)
           case None => r.None? && sequence == old(sequence) && timestamp == old(timestamp)
           case Some(data) =>
             && r == Some(VoiceData(0, old(sequence), old(timestamp), data))
             && sequence == (old(sequence) + 1) % 0x1_0000_0000
             && timestamp == (old(timestamp) + 960) % 0x1_0000_0000
    {
      if |samples| > OPUS_FRAME_SIZE {
        return None;
      }
      var padded := samples;
      while |padded| < OPUS_FRAME_SIZE
        invariant |samples| <= |padded| <= OPUS_FRAME_SIZE
        invariant padded == samples + seq(|padded| - |samples|, i => silence)
      {
        padded := padded + [silence];
      }
      history := history + [padded];
      var frame := opus(history);
      if frame.None? {
        return None;
      }
      r := Some(VoiceData(0, sequence, timestamp, frame.value));
      sequence := (sequence + 1) % TWO_32;
      timestamp := (timestamp + OPUS_FRAME_SIZE) % TWO_32;
    }
  }

  /** The counters of an encoder that has encoded `n` frames. */
  predicate Counts(n: nat, sequence: u32, timestamp: u32)
  {
    sequence == n % TWO_32 && timestamp == 960 * n % TWO_32
  }

  lemma CountsOn(n: nat, sequence: u32, timestamp: u32)
    requires Counts(n, sequence, timestamp)
    ensures Counts(n + 1, (sequence + 1) % TWO_32, (timestamp + 960) % TWO_32)
  {
    WrapAdd(n, 1, TWO_32);
    WrapAdd(960 * n, 960, TWO_32);
  }

  // The pipeline

  class InputPipeline<!S> {
    const resampler: Option<Resampler<S>>
    const encoder: Encoder<S>
    // Whether the channel to the UDP sender takes the n-th packet
    const open: nat -> bool
    // What the resampler has been given
    var fed: seq<seq<S>>
    var resampleBuffer: seq<S>
    var encodeBuffer: seq<S>
    var sent: seq<seq<byte>>
    ghost var input: seq<S>

    constructor (resampler: Option<Resampler<S>>, opus: Opus<S>, silence: S, open: nat -> bool)
      ensures fresh(encoder) && encoder.opus == opus && this.resampler == resampler && this.open == open
      ensures Running() && input == []
    {
      this.resampler, this.open := resampler, open;
      encoder := new Encoder(opus, silence);
      fed, resampleBuffer, encodeBuffer, sent, input := [], [], [], [], [];
    }

    /** Every sample is accounted for on the way to the resampler. */
    ghost predicate FeedsAll()
      reads this
    {
      if resampler.None? then fed == [] && resampleBuffer == []
      else fed == Blocks(input, RESAMPLER_CHUNK_SIZE) && resampleBuffer == Rest(input, RESAMPLER_CHUNK_SIZE)
    }

    /** Every sample of the stream is in the frames encoded or still in the buffer. */
    ghost predicate EncodesAll()
      reads this, encoder
    {
      && Flatten(encoder.history) + encodeBuffer == Stream(resampler, input)
      && forall i :: 0 <= i < |encoder.history| ==> |encoder.history[i]| == OPUS_FRAME_SIZE
    }

    /** Exactly the packets for the frames encoded have been sent. */
    ghost predicate Sends(stopped: bool)
      reads this, encoder
    {
      var all := Sent(encoder.opus, open, encoder.history);
      sent == Wire(all.0) && stopped == all.1
    }

    ghost predicate Running()
      reads this, encoder
    {
      && FeedsAll() && EncodesAll()
      && Counts(|encoder.history|, encoder.sequence, encoder.timestamp)
      && Sends(false)
    }

    /** Gives the resampler one block from the front of its buffer. */
    method FeedOne()
      requires resampler.Some? && |resampleBuffer| >= RESAMPLER_CHUNK_SIZE
      requires Flatten(encoder.history) + encodeBuffer == Resampled(resampler.value, fed)
      modifies `resampleBuffer, `fed, `encodeBuffer
      ensures fed == old(fed) + [old(resampleBuffer)[..480]] && resampleBuffer == old(resampleBuffer)[480..]
      ensures encodeBuffer == old(encodeBuffer) + match resampler.value(fed) case Some(output) => output case None => []
      ensures Flatten(encoder.history) + encodeBuffer == Resampled(resampler.value, fed)
    {
      var chunk := resampleBuffer[..RESAMPLER_CHUNK_SIZE];
      resampleBuffer := resampleBuffer[RESAMPLER_CHUNK_SIZE..];
      assert (fed + [chunk])[..|fed|] == fed;
      fed := fed + [chunk];
      var output := resampler.value(fed);
      if output.Some? {
        Assoc(Flatten(encoder.history), encodeBuffer, output.value);
        encodeBuffer := encodeBuffer + output.value;
      }
    }

    /** Gives the resampler all whole blocks. */
    method FeedBlocks(frame: seq<S>)
      requires resampler.Some?
      requires Flatten(encoder.history) + encodeBuffer == Resampled(resampler.value, fed)
      modifies `resampleBuffer, `fed, `encodeBuffer
      ensures fed == old(fed) + Blocks(old(resampleBuffer) + frame, RESAMPLER_CHUNK_SIZE)
      ensures resampleBuffer == Rest(old(resampleBuffer) + frame, RESAMPLER_CHUNK_SIZE)
      ensures Flatten(encoder.history) + encodeBuffer == Resampled(resampler.value, fed)
    {
      resampleBuffer := resampleBuffer + frame;
      ghost var todo := resampleBuffer;
      ghost var done: seq<seq<S>> := [];
      while |resampleBuffer| >= RESAMPLER_CHUNK_SIZE
        invariant fed == old(fed) + done
        invariant Blocks(todo, RESAMPLER_CHUNK_SIZE) == done + Blocks(resampleBuffer, RESAMPLER_CHUNK_SIZE)
        invariant Rest(todo, RESAMPLER_CHUNK_SIZE) == Rest(resampleBuffer, RESAMPLER_CHUNK_SIZE)
        invariant Flatten(encoder.history) + encodeBuffer == Resampled(resampler.value, fed)
        decreases |resampleBuffer|
      {
        ghost var chunk := resampleBuffer[..RESAMPLER_CHUNK_SIZE];
        Assoc(done, [chunk], Blocks(resampleBuffer[RESAMPLER_CHUNK_SIZE..], RESAMPLER_CHUNK_SIZE));
        Assoc(old(fed), done, [chunk]);
        FeedOne();
        done := done + [chunk];
      }
      AllFed(todo, done, resampleBuffer);
    }

    /** Takes one frame of microphone samples. */
    method Resample(frame: seq<S>)
      requires Running()
      modifies `resampleBuffer, `fed, `encodeBuffer, `input
      ensures Running() && input == old(input) + frame
      ensures resampler.Some? ==>
        && Flatten(fed) + resampleBuffer == input && |resampleBuffer| < 480
        && forall i :: 0 <= i < |fed| ==> |fed[i]| == 480
    {
      if resampler.None? {
        Assoc(Flatten(encoder.history), encodeBuffer, frame);
        encodeBuffer := encodeBuffer + frame;
      } else {
        BlocksAppend(input, frame, RESAMPLER_CHUNK_SIZE);
        FeedBlocks(frame);
      }
      input := input + frame;
      BlocksConserve(input, RESAMPLER_CHUNK_SIZE);
    }

    /** Encodes one frame from the front of the buffer. */
    method EncodeFrame() returns (packet: Option<Packet>)
      requires Running() && |encodeBuffer| >= OPUS_FRAME_SIZE
      modifies this`encodeBuffer, encoder
      ensures EncodesAll() && |encodeBuffer| < |old(encodeBuffer)|
      ensures encoder.history == old(encoder.history) + [old(encodeBuffer)[..OPUS_FRAME_SIZE]]
      ensures var n, data := |old(encoder.history)|, encoder.opus(encoder.history);
        && packet == (if data.Some? then Some(PacketAt(n, data.value)) else None)
        && (data.Some? ==> Counts(n + 1, encoder.sequence, encoder.timestamp))
    {
      var frame := encodeBuffer[..OPUS_FRAME_SIZE];
      MoveFrame(encoder.history, encodeBuffer, frame, Stream(resampler, input));
      FullFrame(frame, encoder.silence);
      CountsOn(|encoder.history|, encoder.sequence, encoder.timestamp);
      encodeBuffer := encodeBuffer[OPUS_FRAME_SIZE..];
      packet := encoder.Encode(frame);
    }

    /** Encodes and sends one frame. */
    method EncodeOne() returns (ok: bool)
      requires Running() && |encodeBuffer| >= OPUS_FRAME_SIZE
      modifies this`encodeBuffer, this`sent, encoder
      ensures FeedsAll() && EncodesAll() && |encodeBuffer| < |old(encodeBuffer)|
      ensures Sends(!ok) && (ok ==> Counts(|encoder.history|, encoder.sequence, encoder.timestamp))
      ensures !ok ==> |encoder.history| == |sent| + 1
    {
      ghost var before := encoder.history;
      var n := |encoder.history|;
      SentOne(encoder.opus, open, before, encodeBuffer[..OPUS_FRAME_SIZE]);
      SentUpToFailure(encoder.opus, open, before);
      var packet := EncodeFrame();
      if packet.None? || !open(n) {
        return false;
      }
      SendPacket(packet.value, Sent(encoder.opus, open, before).0, Numbered(n, encoder.opus(encoder.history).value));
      return true;
    }

    /** Hands a packet to the UDP sender. */
    method SendPacket(p: Packet, ghost before: seq<Numbered>, ghost next: Numbered)
      requires p == PacketAt(next.n, next.data) && sent == Wire(before)
      modifies `sent
      ensures sent == Wire(before + [next])
    {
      WireOne(before, next);
      sent := sent + [Codec.Encode(p)];
    }

    /** Encodes and sends whole frames; false means that the pipeline has stopped. */
    method EncodeAndSend() returns (ok: bool)
      requires Running()
      modifies this`encodeBuffer, this`sent, encoder
      ensures FeedsAll() && EncodesAll()
      ensures ok ==> Running() && |encodeBuffer| < 960
      ensures !ok ==> Sends(true) && |encoder.history| == |sent| + 1
    {
      while |encodeBuffer| >= OPUS_FRAME_SIZE
        invariant Running()
        decreases |encodeBuffer|
      {
        ok := EncodeOne();
        if !ok {
          return false;
        }
      }
      return true;
    }

    /** Takes one frame all the way. */
    method Process(frame: seq<S>) returns (ok: bool)
      requires Running() && |encodeBuffer| < OPUS_FRAME_SIZE
      modifies this, encoder
      ensures input == old(input) + frame && EncodesAll()
      ensures ok ==> Running() && |encodeBuffer| < 960
      ensures !ok ==> Sends(true) && |encoder.history| == |sent| + 1
    {
      Resample(frame);
      ok := EncodeAndSend();
    }

    /** The pipeline task: takes frames until there are no more, or until it has to stop. What has been sent
        depends only on the samples, not on how they were split into frames. */
    method Run(frames: seq<seq<S>>) returns (ok: bool)
      requires Running() && input == []
      modifies this, encoder
      ensures var all := Sent(encoder.opus, open, Frames(resampler, Flatten(frames)));
        sent == Wire(all.0) && ok == !all.1
      ensures AllNumbered() && (ok <==> |sent| == |encoder.history|)
      ensures ok ==> input == Flatten(frames) && |encodeBuffer| < 960
      ensures ok ==> Flatten(encoder.history) + encodeBuffer == Stream(resampler, input)
      ensures ok && resampler.None? ==> Flatten(encoder.history) + encodeBuffer == Flatten(frames)
      ensures !ok ==> encoder.opus(encoder.history).None? || !open(|sent|)
    {
      var i := 0;
      InitiallyEmpty();
      while i < |frames|
        invariant 0 <= i <= |frames|
        invariant Running() && |encodeBuffer| < OPUS_FRAME_SIZE
        invariant input == Flatten(frames[..i])
      {
        ok := Process(frames[i]);
        FlattenUpTo(frames, i);
        if !ok {
          Stopped(frames, i + 1);
          return false;
        }
        i := i + 1;
      }
      assert frames[..i] == frames;
      RanThrough();
      NumberedAll(false);
      return true;
    }

    /** What the pipeline leaves behind when it stops early. */
    lemma Stopped(frames: seq<seq<S>>, i: nat)
      requires i <= |frames| && input == Flatten(frames[..i]) && EncodesAll()
      requires Sends(true) && |encoder.history| == |sent| + 1
      ensures var all := Sent(encoder.opus, open, Frames(resampler, Flatten(frames))); sent == Wire(all.0) && all.1
      ensures AllNumbered() && (encoder.opus(encoder.history).None? || !open(|sent|))
    {
      StoppedIsStopped(frames, i);
      NumberedAll(true);
      assert encoder.history[..|sent| + 1] == encoder.history;
    }

    /** The packets sent are those of the first frames encoded. */
    ghost predicate AllNumbered()
      reads this, encoder
    {
      && |sent| <= |encoder.history|
      && forall i :: 0 <= i < |sent| ==> PacketOf(encoder.opus, encoder.history, i, sent[i])
    }

    lemma NumberedAll(stopped: bool)
      requires Sends(stopped) && EncodesAll()
      ensures AllNumbered() && (stopped <==> |sent| < |encoder.history|)
      ensures stopped ==> encoder.opus(encoder.history[..|sent| + 1]).None? || !open(|sent|)
    {
      SentUpToFailure(encoder.opus, open, encoder.history);
      forall i | 0 <= i < |sent|
        ensures PacketOf(encoder.opus, encoder.history, i, sent[i])
      {
        PacketsAreNumbered(encoder.opus, open, encoder.history, i);
      }
    }

    lemma RanThrough()
      requires Running() && |encodeBuffer| < OPUS_FRAME_SIZE
      ensures var all := Sent(encoder.opus, open, Frames(resampler, input)); sent == Wire(all.0) && !all.1
    {
      BlocksUnique(Stream(resampler, input), OPUS_FRAME_SIZE, encoder.history, encodeBuffer);
    }

    lemma InitiallyEmpty()
      requires Running() && input == []
      ensures encodeBuffer == [] && Flatten<S>([]) == []
    {
      assert Flatten(encoder.history) + encodeBuffer == [];
    }

    lemma StoppedIsStopped(frames: seq<seq<S>>, i: nat)
      requires i <= |frames| && input == Flatten(frames[..i]) && EncodesAll()
      requires Sends(true)
      ensures var all := Sent(encoder.opus, open, Frames(resampler, Flatten(frames))); sent == Wire(all.0) && all.1
    {
      MoreFrames(resampler, frames, i);
      HistoryIsPrefix(Stream(resampler, input), encoder.history, encodeBuffer);
      StaysStopped(encoder.opus, open, encoder.history, Frames(resampler, Flatten(frames)));
    }
  }

  lemma AllFed<S>(todo: seq<S>, done: seq<seq<S>>, kept: seq<S>)
    requires |kept| < RESAMPLER_CHUNK_SIZE
    requires Blocks(todo, RESAMPLER_CHUNK_SIZE) == done + Blocks(kept, RESAMPLER_CHUNK_SIZE)
    requires Rest(todo, RESAMPLER_CHUNK_SIZE) == Rest(kept, RESAMPLER_CHUNK_SIZE)
    ensures done == Blocks(todo, RESAMPLER_CHUNK_SIZE) && kept == Rest(todo, RESAMPLER_CHUNK_SIZE)
  {
    assert done + [] == done;
  }

  lemma MoveFrame<S>(history: seq<seq<S>>, buffer: seq<S>, frame: seq<S>, stream: seq<S>)
    requires |buffer| >= OPUS_FRAME_SIZE && frame == buffer[..OPUS_FRAME_SIZE]
    requires Flatten(history) + buffer == stream
    requires forall i :: 0 <= i < |history| ==> |history[i]| == OPUS_FRAME_SIZE
    ensures Flatten(history + [frame]) + buffer[OPUS_FRAME_SIZE..] == stream
    ensures forall i :: 0 <= i < |history + [frame]| ==> |(history + [frame])[i]| == OPUS_FRAME_SIZE
  {
    Assoc(Flatten(history), frame, buffer[OPUS_FRAME_SIZE..]);
    FlattenAppend(history, [frame]);
    assert buffer == frame + buffer[OPUS_FRAME_SIZE..];
  }

  lemma FlattenUpTo<S>(parts: seq<seq<S>>, i: nat)
    requires i < |parts|
    ensures Flatten(parts[..i + 1]) == Flatten(parts[..i]) + parts[i]
  {
    assert parts[..i + 1] == parts[..i] + [parts[i]];
    FlattenAppend(parts[..i], [parts[i]]);
  }

  /** Whole frames taken from the front of a stream are the stream's first blocks. */
  lemma HistoryIsPrefix<S>(stream: seq<S>, history: seq<seq<S>>, buffer: seq<S>)
    requires Flatten(history) + buffer == stream
    requires forall i :: 0 <= i < |history| ==> |history[i]| == OPUS_FRAME_SIZE
    ensures history <= Blocks(stream, OPUS_FRAME_SIZE)
  {
    BlocksConserve(buffer, OPUS_FRAME_SIZE);
    var all := history + Blocks(buffer, OPUS_FRAME_SIZE);
    FlattenAppend(history, Blocks(buffer, OPUS_FRAME_SIZE));
    Assoc(Flatten(history), Flatten(Blocks(buffer, OPUS_FRAME_SIZE)), Rest(buffer, OPUS_FRAME_SIZE));
    BlocksUnique(stream, OPUS_FRAME_SIZE, all, Rest(buffer, OPUS_FRAME_SIZE));
  }

  // Numbers after the wire

  /** The RTP header that the receiving decoder makes of a voice packet: only 16 bits of the sequence
      number remain. */
  datatype RtpHeader = RtpHeader(sequence: u16, timestamp: u32)

  function CreateNeteqHeader(p: Packet): RtpHeader
    requires p.VoiceData?
  {
    RtpHeader(p.sequence % 0x1_0000, p.timestamp)
  }

  /** The header of the n-th packet as any receiver makes it, after the relay has passed it on in the name
      of `sender`. */
  lemma HeaderAfterRelay(n: nat, data: OpusFrame, sender: u64)
    ensures var p := PacketAt(n, data);
      && Encodable(InNameOf(p, sender))
      && var received := Decode(Encode(InNameOf(p, sender)));
         && received.Ok? && received.value.VoiceData? && received.value.data == data
         && CreateNeteqHeader(received.value) == RtpHeader(n % 0x1_0000, 960 * n % 0x1_0000_0000)
  {
    var p := PacketAt(n, data);
    RoundTrip(p, []);
    assert Encode(p) + [] == Encode(p);
    ForwardedDecodes(Encode(p), sender);
    HeaderAt(n, data, sender);
  }

  lemma HeaderAt(n: nat, data: OpusFrame, sender: u64)
    ensures CreateNeteqHeader(InNameOf(PacketAt(n, data), sender)) == RtpHeader(n % 0x1_0000, 960 * n % 0x1_0000_0000)
  {
    WrapTwice(n, 0x1_0000, 0x1_0000);
  }

  /** Consecutive packets have consecutive RTP numbers, also where the counters wrap around. */
  lemma NumbersAreConsecutive(n: nat, data: OpusFrame, next: OpusFrame)
    ensures var a, b := CreateNeteqHeader(PacketAt(n, data)), CreateNeteqHeader(PacketAt(n + 1, next));
      && b.sequence == (a.sequence + 1) % 0x1_0000
      && b.timestamp == (a.timestamp + 960) % 0x1_0000_0000
    ensures PacketAt(n, data).timestamp == 960 * PacketAt(n, data).sequence % 0x1_0000_0000
  {
    WrapTwice(n, 0x1_0000, 0x1_0000);
    WrapTwice(n + 1, 0x1_0000, 0x1_0000);
    WrapAdd(n, 1, 0x1_0000);
    WrapAdd(960 * n, 960, TWO_32);
    WrapTimes(n, 960, TWO_32);
  }
}
