/** Filling playback buffers from a source that delivers chunks of any size, and the notification player as
    such a source. */
module Playback {
  import opened Packets
  import opened Sequences

  /** A source of audio: the n-th call of `get_audio` returns the n-th result, None being an error. */
  class AudioSource<!S> {
    const results: nat -> Option<seq<S>>
    var calls: nat

    constructor (results: nat -> Option<seq<S>>)
      ensures this.results == results && calls == 0
    {
      this.results, calls := results, 0;
    }

    method GetAudio() returns (r: Option<seq<S>>)
      modifies this
      ensures r == results(old(calls)) && calls == old(calls) + 1
    {
      r := results(calls);
      calls := calls + 1;
    }
  }

  // What filling a buffer means

  /** The samples that call number `i` returns. */
  function Returned<S>(results: nat -> Option<seq<S>>, i: nat): seq<S>
  {
    if results(i).Some? then results(i).value else []
  }

  /** The samples that the calls from number `i` up to number `j` have returned. */
  function Pulled<S>(results: nat -> Option<seq<S>>, i: nat, j: nat): seq<S>
    requires i <= j
    decreases j
  {
    if i == j then [] else Pulled(results, i, j - 1) + Returned(results, j - 1)
  }

  /** The call delivered nothing. */
  predicate Dry<S>(results: nat -> Option<seq<S>>, i: nat)
  {
    results(i).None? || results(i).value == []
  }

  datatype PlayState<S> = PlayState(leftover: seq<S>, calls: nat)

  /** All samples available between the states `s` and `t`: what was left over and what was pulled. */
  function Available<S>(results: nat -> Option<seq<S>>, s: PlayState<S>, t: PlayState<S>): seq<S>
    requires s.calls <= t.calls
  {
    s.leftover + Pulled(results, s.calls, t.calls)
  }

  /** The source is called only when there is nothing left over, and not again after a dry call. */
  predicate PullsSparingly<S>(results: nat -> Option<seq<S>>, s: PlayState<S>, t: PlayState<S>, n: nat)
    requires s.calls <= t.calls
  {
    t.calls > s.calls ==>
      && |s.leftover| + |Pulled(results, s.calls, t.calls - 1)| < n
      && forall i :: s.calls <= i < t.calls - 1 ==> !Dry(results, i)
  }

  /** `output` consists of the first available samples; the others are left over. Silence fills the end only
      when the source has run dry. */
  ghost predicate Filled<S>(
      results: nat -> Option<seq<S>>, silence: S, s: PlayState<S>, output: seq<S>, t: PlayState<S>)
  {
    && s.calls <= t.calls
    && PullsSparingly(results, s, t, |output|)
    && var all := Available(results, s, t);
       && |t.leftover| <= |all|
       && var used := |all| - |t.leftover|;
          && used <= |output|
          && all == output[..used] + t.leftover
          && (forall i :: used <= i < |output| ==> output[i] == silence)
          && (used < |output| ==> t.leftover == [] && t.calls > s.calls && Dry(results, t.calls - 1))
  }

  class OutputStream<!S> {
    const source: AudioSource<S>
    const silence: S
    var leftover: seq<S>

    constructor (source: AudioSource<S>, silence: S)
      ensures this.source == source && this.silence == silence && leftover == []
    {
      this.source, this.silence, leftover := source, silence, [];
    }

    function Now(): PlayState<S>
      reads this, source
    {
      PlayState(leftover, source.calls)
    }

    /** Pulls from the source; false means that there is nothing to play. */
    method Refill() returns (ok: bool)
      requires leftover == []
      modifies `leftover, source
      ensures source.calls == old(source.calls) + 1
      ensures leftover == Returned(source.results, old(source.calls))
      ensures ok <==> !Dry(source.results, old(source.calls))
    {
      var r := source.GetAudio();
      if r.None? {
        return false;
      }
      leftover := leftover + r.value;
      assert leftover == r.value;
      return leftover != [];
    }

    /** Writes every position of the buffer. */
    method FillOutput(buffer: array<S>)
      modifies `leftover, source, buffer
      ensures Filled(source.results, silence, old(Now()), buffer[..], Now())
    {
      var idx := 0;
      ghost var before := Now();
      while idx < buffer.Length
        invariant 0 <= idx <= buffer.Length && before.calls <= source.calls
        invariant Available(source.results, before, Now()) == buffer[..idx] + leftover
        invariant PullsSparingly(source.results, before, Now(), buffer.Length)
        invariant source.calls > before.calls ==> !Dry(source.results, source.calls - 1)
        decreases buffer.Length - idx
      {
        if leftover == [] {
          PullMore(source.results, before, Now(), buffer[..idx], buffer.Length);
          var ok := Refill();
          if !ok {
            EndInSilence(buffer, idx, before);
            return;
          }
        }
        idx := CopyOut(buffer, idx);
      }
      assert buffer[..][..idx] == buffer[..idx];
      FilledUpTo(source.results, silence, before, buffer[..], Now(), idx);
    }

    /** The source has run dry: the rest of the buffer is silence. */
    method EndInSilence(buffer: array<S>, idx: nat, ghost before: PlayState<S>)
      requires idx < buffer.Length && leftover == [] && before.calls < source.calls
      requires Available(source.results, before, Now()) == buffer[..idx] + leftover
      requires PullsSparingly(source.results, before, Now(), buffer.Length)
      requires Dry(source.results, source.calls - 1)
      modifies buffer
      ensures Filled(source.results, silence, before, buffer[..], Now())
    {
      Silence(buffer, idx);
      assert buffer[..][..idx] == buffer[..idx];
      FilledUpTo(source.results, silence, before, buffer[..], Now(), idx);
    }

    /** Fills the buffer with silence from position `idx` on. */
    method Silence(buffer: array<S>, idx: nat)
      requires idx <= buffer.Length
      modifies buffer
      ensures buffer[..idx] == old(buffer[..idx])
      ensures forall k :: idx <= k < buffer.Length ==> buffer[k] == silence
    {
      var i := idx;
      while i < buffer.Length
        invariant idx <= i <= buffer.Length
        invariant buffer[..idx] == old(buffer[..idx])
        invariant forall k :: idx <= k < i ==> buffer[k] == silence
      {
        buffer[i] := silence;
        i := i + 1;
      }
    }

    /** Moves as much of the leftover as fits to position `idx`; returns the position after it. */
    method CopyOut(buffer: array<S>, idx: nat) returns (next: nat)
      requires idx < buffer.Length && leftover != []
      modifies `leftover, buffer
      ensures idx < next <= buffer.Length
      ensures buffer[..next] + leftover == old(buffer[..idx] + leftover)
    {
      var n := if |leftover| <= buffer.Length - idx then |leftover| else buffer.Length - idx;
      Copy(buffer, idx, n);
      leftover := leftover[n..];
      next := idx + n;
    }

    /** Copies `n` samples from the front of the leftover to position `idx`. */
    method Copy(buffer: array<S>, idx: nat, n: nat)
      requires idx + n <= buffer.Length && n <= |leftover|
      modifies buffer
      ensures buffer[..idx + n] == old(buffer[..idx]) + leftover[..n]
    {
      var i := 0;
      while i < n
        invariant 0 <= i <= n
        invariant buffer[..idx] == old(buffer[..idx])
        invariant forall k :: 0 <= k < i ==> buffer[idx + k] == leftover[k]
      {
        buffer[idx + i] := leftover[i];
        i := i + 1;
      }
      assert forall k :: 0 <= k < n ==> buffer[..idx + n][idx + k] == leftover[..n][k];
      assert buffer[..idx + n][..idx] == buffer[..idx];
    }
  }

  /** What one more call makes available when nothing is left over. */
  lemma PullMore<S>(results: nat -> Option<seq<S>>, s: PlayState<S>, t: PlayState<S>, written: seq<S>, n: nat)
    requires s.calls <= t.calls && t.leftover == [] && |written| < n && PullsSparingly(results, s, t, n)
    requires Available(results, s, t) == written + t.leftover
    requires t.calls > s.calls ==> !Dry(results, t.calls - 1)
    ensures var u := PlayState(Returned(results, t.calls), t.calls + 1);
      Available(results, s, u) == written + u.leftover && PullsSparingly(results, s, u, n)
  {
    var a, b, c := s.leftover, Pulled(results, s.calls, t.calls), Returned(results, t.calls);
    assert a + (b + c) == a + b + c;
    assert written + [] == written;
  }

  lemma FilledUpTo<S>(
      results: nat -> Option<seq<S>>, silence: S, s: PlayState<S>, output: seq<S>, t: PlayState<S>, idx: nat)
    requires idx <= |output| && s.calls <= t.calls && PullsSparingly(results, s, t, |output|)
    requires Available(results, s, t) == output[..idx] + t.leftover
    requires forall i :: idx <= i < |output| ==> output[i] == silence
    requires idx < |output| ==> t.leftover == [] && t.calls > s.calls && Dry(results, t.calls - 1)
    ensures Filled(results, silence, s, output, t)
  {
  }

  lemma {:induction false} PulledSplits<S>(results: nat -> Option<seq<S>>, i: nat, j: nat, k: nat)
    requires i <= j <= k
    ensures Pulled(results, i, k) == Pulled(results, i, j) + Pulled(results, j, k)
    decreases k
  {
    if j < k {
      PulledSplits(results, i, j, k - 1);
    }
  }

  /** These conditions leave no choice: state and output after filling are determined. */
  lemma FilledIsDetermined<S>(results: nat -> Option<seq<S>>, silence: S, s: PlayState<S>,
                              x: seq<S>, t: PlayState<S>, y: seq<S>, u: PlayState<S>)
    requires Filled(results, silence, s, x, t) && Filled(results, silence, s, y, u) && |x| == |y|
    ensures x == y && t == u
  {
    if t.calls < u.calls {
      FewerCalls(results, silence, s, x, t, y, u);
    } else if u.calls < t.calls {
      FewerCalls(results, silence, s, y, u, x, t);
    } else {
      SameCalls(results, silence, s, x, t, y, u);
    }
  }

  lemma FewerCalls<S>(results: nat -> Option<seq<S>>, silence: S, s: PlayState<S>,
                      x: seq<S>, t: PlayState<S>, y: seq<S>, u: PlayState<S>)
    requires Filled(results, silence, s, x, t) && Filled(results, silence, s, y, u) && |x| == |y|
    ensures t.calls >= u.calls
  {
    if t.calls < u.calls {
      PulledSplits(results, s.calls, t.calls, u.calls - 1);
      assert false;
    }
  }

  lemma SameCalls<S>(results: nat -> Option<seq<S>>, silence: S, s: PlayState<S>,
                     x: seq<S>, t: PlayState<S>, y: seq<S>, u: PlayState<S>)
    requires Filled(results, silence, s, x, t) && Filled(results, silence, s, y, u) && |x| == |y|
    requires t.calls == u.calls
    ensures x == y && t == u
  {
    var all := Available(results, s, t);
    var a, b := |all| - |t.leftover|, |all| - |u.leftover|;
    assert a == b;
    assert x[..a] == all[..a] == y[..b];
    assert all[a..] == t.leftover && all[b..] == u.leftover;
    assert forall i :: 0 <= i < |x| ==> x[i] == y[i] by {
      assert forall i :: 0 <= i < a ==> x[i] == x[..a][i] && y[i] == y[..a][i];
    }
  }

  // Many callbacks in a row

  /** The states and outputs of consecutive callbacks. */
  ghost predicate Chain<S>(results: nat -> Option<seq<S>>, silence: S, states: seq<PlayState<S>>, outputs: seq<seq<S>>)
  {
    && |states| == |outputs| + 1
    && forall i :: 0 <= i < |outputs| ==> Filled(results, silence, states[i], outputs[i], states[i + 1])
  }

  /** The part of an output that is not filled up with silence. */
  ghost function Data<S>(
      results: nat -> Option<seq<S>>, silence: S, s: PlayState<S>, output: seq<S>, t: PlayState<S>): seq<S>
    requires Filled(results, silence, s, output, t)
  {
    output[..|Available(results, s, t)| - |t.leftover|]
  }

  ghost function AllData<S>(
      results: nat -> Option<seq<S>>, silence: S, states: seq<PlayState<S>>, outputs: seq<seq<S>>): seq<S>
    requires Chain(results, silence, states, outputs)
    decreases |outputs|
  {
    if outputs == [] then []
    else
      var n := |outputs| - 1;
      AllData(results, silence, states[..n + 1], outputs[..n])
      + Data(results, silence, states[n], outputs[n], states[n + 1])
  }

  /** Conservation: over any number of callbacks of any sizes, the samples written and those left over are
      the old leftover and the samples pulled, in order. */
  lemma {:induction false} PlaybackConserves<S>(
      results: nat -> Option<seq<S>>, silence: S, states: seq<PlayState<S>>, outputs: seq<seq<S>>)
    requires Chain(results, silence, states, outputs)
    ensures states[0].calls <= states[|outputs|].calls
    ensures AllData(results, silence, states, outputs) + states[|outputs|].leftover
         == states[0].leftover + Pulled(results, states[0].calls, states[|outputs|].calls)
    decreases |outputs|
  {
    if outputs != [] {
      var n := |outputs| - 1;
      var s, t := states[n], states[n + 1];
      PlaybackConserves(results, silence, states[..n + 1], outputs[..n]);
      PulledSplits(results, states[0].calls, s.calls, t.calls);
      Rejoin(AllData(results, silence, states[..n + 1], outputs[..n]), Data(results, silence, s, outputs[n], t),
        s.leftover, t.leftover, states[0].leftover, Pulled(results, states[0].calls, s.calls),
        Pulled(results, s.calls, t.calls));
    } else {
      assert states[0].leftover + [] == states[0].leftover;
    }
  }

  lemma Rejoin<S>(a: seq<S>, d: seq<S>, kept: seq<S>, kept': seq<S>, first: seq<S>, p: seq<S>, q: seq<S>)
    requires a + kept == first + p && kept + q == d + kept'
    ensures a + d + kept' == first + (p + q)
  {
    assert a + d + kept' == a + (d + kept') == a + (kept + q) == a + kept + q;
    assert first + p + q == first + (p + q);
  }

  // The notification player

  datatype Notification<S> = Notification(samples: seq<S>, position: nat)

  class NotificationPlayer<!S> {
    const sounds: map<string, seq<S>>
    const scale: (S, nat) -> S
    const silence: S
    const chunkSize: nat
    var current: Option<Notification<S>>

    constructor (sounds: map<string, seq<S>>, scale: (S, nat) -> S, silence: S, chunkSize: nat)
      ensures this.sounds == sounds && this.scale == scale && this.silence == silence
      ensures this.chunkSize == chunkSize && Valid() && Left() == []
    {
      this.sounds, this.scale, this.silence, this.chunkSize, current := sounds, scale, silence, chunkSize, None;
    }

    predicate Valid()
      reads this
    {
      current.Some? ==> current.value.position <= |current.value.samples|
    }

    /** The samples still to be played. */
    function Left(): seq<S>
      requires Valid()
      reads this
    {
      if current.Some? then current.value.samples[current.value.position..] else []
    }

    /** Starts a sound, in place of any other; an unknown sound changes nothing. */
    method Play(sound: string, volume: nat)
      requires Valid()
      modifies this
      ensures Valid()
      ensures sound in sounds ==>
        && |Left()| == |sounds[sound]|
        && forall i :: 0 <= i < |Left()| ==> Left()[i] == scale(sounds[sound][i], volume)
      ensures sound !in sounds ==> Left() == old(Left())
    {
      if sound in sounds {
        current := Some(Notification(Scaled(scale, sounds[sound], volume), 0));
      }
    }

    /** The next chunk of the sound, or silence. */
    method GetAudio() returns (chunk: seq<S>)
      requires Valid()
      modifies this
      ensures Valid() && chunk == NextChunk(old(Left()), chunkSize, silence)
      ensures Left() == AfterChunk(old(Left()), chunkSize)
      ensures old(Left()) != [] ==>
        chunk + Left() == old(Left()) && |chunk| <= chunkSize && (|chunk| < chunkSize ==> Left() == [])
      ensures old(Left()) == [] ==> |chunk| == chunkSize && forall i :: 0 <= i < chunkSize ==> chunk[i] == silence
    {
      if current.Some? {
        var remaining := |current.value.samples| - current.value.position;
        if remaining > 0 {
          var toCopy := if remaining <= chunkSize then remaining else chunkSize;
          var position := current.value.position;
          chunk := current.value.samples[position..position + toCopy];
          current := Some(current.value.(position := position + toCopy));
          if current.value.position >= |current.value.samples| {
            current := None;
          }
          return;
        }
      }
      return seq(chunkSize, i => silence);
    }
  }

  function Scaled<S>(scale: (S, nat) -> S, samples: seq<S>, volume: nat): seq<S>
  {
    seq(|samples|, i requires 0 <= i < |samples| => scale(samples[i], volume))
  }

  function NextChunk<S>(left: seq<S>, chunkSize: nat, silence: S): seq<S>
  {
    if left == [] then seq(chunkSize, i => silence) else left[..if |left| <= chunkSize then |left| else chunkSize]
  }

  function AfterChunk<S>(left: seq<S>, chunkSize: nat): seq<S>
  {
    left[if |left| <= chunkSize then |left| else chunkSize..]
  }

  /** What is left after `k` chunks. */
  function LeftAfter<S>(left: seq<S>, chunkSize: nat, k: nat): seq<S>
    decreases k
  {
    if k == 0 then left else AfterChunk(LeftAfter(left, chunkSize, k - 1), chunkSize)
  }

  /** The chunk that follows `k` others. */
  function ChunkAfter<S>(left: seq<S>, chunkSize: nat, silence: S, k: nat): seq<S>
  {
    NextChunk(LeftAfter(left, chunkSize, k), chunkSize, silence)
  }

  /** The player's results when the samples `left` are to be played and no other sound is started. */
  function PlayerResults<S>(left: seq<S>, chunkSize: nat, silence: S): nat -> Option<seq<S>>
  {
    (k: nat) => Some(ChunkAfter(left, chunkSize, silence, k))
  }

  /** Calls the player `n` times, as callbacks do while no other sound is started: the `k`-th call gives the
      `k`-th of the player's results. */
  method PullChunks<S>(player: NotificationPlayer<S>, n: nat) returns (chunks: seq<seq<S>>)
    requires player.Valid()
    modifies player
    ensures player.Valid() && |chunks| == n
    ensures player.Left() == LeftAfter(old(player.Left()), player.chunkSize, n)
    ensures var results := PlayerResults(old(player.Left()), player.chunkSize, player.silence);
      forall k :: 0 <= k < n ==> results(k) == Some(chunks[k])
  {
    chunks := [];
    ghost var left := player.Left();
    for i := 0 to n
      invariant player.Valid() && |chunks| == i && player.Left() == LeftAfter(left, player.chunkSize, i)
      invariant forall k :: 0 <= k < i ==> chunks[k] == ChunkAfter(left, player.chunkSize, player.silence, k)
    {
      var chunk := player.GetAudio();
      assert chunk == ChunkAfter(left, player.chunkSize, player.silence, i);
      chunks := chunks + [chunk];
    }
  }

  /** `s` is the beginning of `left` followed by silence for ever. */
  ghost predicate BeginsWith<S>(s: seq<S>, left: seq<S>, silence: S)
  {
    forall i :: 0 <= i < |s| ==> s[i] == if i < |left| then left[i] else silence
  }

  /** The chunks of the player are the sound exactly once, in order, and then silence. */
  lemma {:induction false} ChunksAreTheSound<S>(left: seq<S>, chunkSize: nat, silence: S, k: nat)
    requires chunkSize >= 1
    ensures var p := Pulled(PlayerResults(left, chunkSize, silence), 0, k);
      && BeginsWith(p, left, silence)
      && LeftAfter(left, chunkSize, k) == left[if |p| <= |left| then |p| else |left|..]
    decreases k
  {
    if k > 0 {
      var results := PlayerResults(left, chunkSize, silence);
      ChunksAreTheSound(left, chunkSize, silence, k - 1);
      assert results(k - 1) == Some(NextChunk(LeftAfter(left, chunkSize, k - 1), chunkSize, silence));
      ChunkContinues(left, chunkSize, silence, Pulled(results, 0, k - 1), LeftAfter(left, chunkSize, k - 1));
    }
  }

  lemma ChunkContinues<S>(left: seq<S>, chunkSize: nat, silence: S, p: seq<S>, l: seq<S>)
    requires chunkSize >= 1 && BeginsWith(p, left, silence)
    requires l == left[if |p| <= |left| then |p| else |left|..]
    ensures var q := p + NextChunk(l, chunkSize, silence);
      && BeginsWith(q, left, silence)
      && AfterChunk(l, chunkSize) == left[if |q| <= |left| then |q| else |left|..]
  {
  }

  /** Without dry calls there is no filling up. */
  lemma {:induction false} AllOutputIsData<S>(
      results: nat -> Option<seq<S>>, silence: S, states: seq<PlayState<S>>, outputs: seq<seq<S>>)
    requires Chain(results, silence, states, outputs) && forall k :: !Dry(results, k)
    ensures AllData(results, silence, states, outputs) == Flatten(outputs)
    decreases |outputs|
  {
    if outputs != [] {
      var n := |outputs| - 1;
      AllOutputIsData(results, silence, states[..n + 1], outputs[..n]);
      FlattenAppend(outputs[..n], [outputs[n]]);
      assert outputs == outputs[..n] + [outputs[n]];
      var used := |Available(results, states[n], states[n + 1])| - |states[n + 1].leftover|;
      assert used == |outputs[n]| && outputs[n][..used] == outputs[n];
    }
  }

  /** `left` is the sound, each sample scaled by the volume. */
  ghost predicate ScaledSound<S>(left: seq<S>, sound: seq<S>, scale: (S, nat) -> S, volume: nat)
  {
    |left| == |sound| && forall i :: 0 <= i < |sound| ==> left[i] == scale(sound[i], volume)
  }

  /** Playing a sound once it has been started, and is not superseded: however large the callbacks' buffers are, they
      play what was left over before, then each sample of the sound once, in order, at the volume asked for, and then
      silence. */
  lemma SoundIsPlayedOnce<S>(sound: seq<S>, scale: (S, nat) -> S, volume: nat, left: seq<S>, chunkSize: nat,
                             silence: S, states: seq<PlayState<S>>, outputs: seq<seq<S>>)
    requires chunkSize >= 1 && ScaledSound(left, sound, scale, volume)
    requires Chain(PlayerResults(left, chunkSize, silence), silence, states, outputs) && states[0].calls == 0
    ensures var output, n := Flatten(outputs), |states[0].leftover|;
      forall i :: 0 <= i < |output| ==>
        && (i < n ==> output[i] == states[0].leftover[i])
        && (n <= i < n + |sound| ==> output[i] == scale(sound[i - n], volume))
        && (n + |sound| <= i ==> output[i] == silence)
  {
    PlayedOnce(left, chunkSize, silence, states, outputs);
  }

  lemma PlayedOnce<S>(left: seq<S>, chunkSize: nat, silence: S, states: seq<PlayState<S>>, outputs: seq<seq<S>>)
    requires chunkSize >= 1
    requires Chain(PlayerResults(left, chunkSize, silence), silence, states, outputs) && states[0].calls == 0
    ensures BeginsWith(Flatten(outputs), states[0].leftover + left, silence)
  {
    var results := PlayerResults(left, chunkSize, silence);
    forall k: nat
      ensures !Dry(results, k)
    {
    }
    AllOutputIsData(results, silence, states, outputs);
    PlaybackConserves(results, silence, states, outputs);
    var calls := states[|outputs|].calls;
    ChunksAreTheSound(left, chunkSize, silence, calls);
    var all := states[0].leftover + Pulled(results, 0, calls);
    assert Flatten(outputs) + states[|outputs|].leftover == all;
    forall i | 0 <= i < |Flatten(outputs)|
      ensures Flatten(outputs)[i] ==
        if i < |states[0].leftover + left| then (states[0].leftover + left)[i] else silence
    {
      assert Flatten(outputs)[i] == all[i];
    }
  }
}
