/**
 * The bounded FIFO audio buffer and the metadata/warning builders
 * (backend/app/utils/audio.py).
 */
module AudioUtils {
  import opened Base
  import opened Protocol
  import Config

  /** PCM16 duration: `(size // 2) / rate * 1000` milliseconds (before rounding). */
  function ExpectedDurationMs(sizeBytes: nat, sampleRate: nat): (d: real)
    requires sampleRate > 0
    ensures d >= 0.0
    ensures d * (sampleRate as real) == ((sizeBytes / 2) * 1000) as real
  {
    ((sizeBytes / 2) as real / sampleRate as real) * 1000.0
  }

  /** Two bytes make one sample: a trailing odd byte adds no time. */
  lemma OddByteAddsNoTime(k: nat, sampleRate: nat)
    requires sampleRate > 0
    ensures ExpectedDurationMs(2 * k + 1, sampleRate) == ExpectedDurationMs(2 * k, sampleRate)
  {
    assert (2 * k + 1) / 2 == k;
    assert (2 * k) / 2 == k;
  }

  /** One second's worth of PCM16 samples lasts 1000 ms. */
  lemma OneSecondOfSamples(sampleRate: nat)
    requires sampleRate > 0
    ensures ExpectedDurationMs(2 * sampleRate, sampleRate) == 1000.0
  {
    var r := sampleRate as real;
    assert (2 * sampleRate) / 2 == sampleRate;
    assert r / r == 1.0;
  }

  /** The keys a caller may pass to `add_audio_chunk`; each one present replaces the default. */
  datatype MetadataOverrides = MetadataOverrides(sequence: Option<int>, timestamp: Option<int>)

  const NoOverrides := MetadataOverrides(None, None)

  /** The "buffered_audio" item `add_audio_chunk` stores for `audioData`. */
  function NewBufferedChunk(audioData: bytes, counter: int, now: int, overrides: MetadataOverrides): (c: BufferedChunk)
    ensures c.audioData == audioData
    ensures c.metadata.sizeBytes == |audioData|
    ensures c.metadata.sampleRate == Config.OUTPUT_SAMPLE_RATE
    ensures c.metadata.expectedDurationMs * (Config.OUTPUT_SAMPLE_RATE as real) == ((|audioData| / 2) * 1000) as real
    ensures c.metadata.buffered && !c.metadata.flushedByTimeout
    ensures c.metadata.sequence == (if overrides.sequence.Some? then overrides.sequence.value else counter)
    ensures c.metadata.timestamp == (if overrides.timestamp.Some? then overrides.timestamp.value else now)
  {
    BufferedChunk(audioData, ChunkMetadata(
      sequence := overrides.sequence.GetOr(counter),
      sizeBytes := |audioData|,
      expectedDurationMs := ExpectedDurationMs(|audioData|, Config.OUTPUT_SAMPLE_RATE),
      sampleRate := Config.OUTPUT_SAMPLE_RATE,
      timestamp := overrides.timestamp.GetOr(now),
      buffered := true,
      flushedByTimeout := false))
  }

  /** `AudioMetadata.create_metadata`; `sampleRate` None or 0 means the output rate. */
  function CreateMetadata(sequence: int, chunkSize: nat, sampleRate: Option<nat>, timestamp: int): (m: ChunkMetadata)
    ensures m.sampleRate > 0
    ensures m.sampleRate == (if sampleRate.None? || sampleRate.value == 0 then Config.OUTPUT_SAMPLE_RATE else sampleRate.value)
    ensures m.sequence == sequence && m.sizeBytes == chunkSize && m.timestamp == timestamp
    ensures m.expectedDurationMs * (m.sampleRate as real) == ((chunkSize / 2) * 1000) as real
    ensures !m.buffered && !m.flushedByTimeout
  {
    var rate := if sampleRate.None? || sampleRate.value == 0 then Config.OUTPUT_SAMPLE_RATE else sampleRate.value;
    ChunkMetadata(sequence, chunkSize, ExpectedDurationMs(chunkSize, rate), rate, timestamp, false, false)
  }

  /** `AudioMetadata.create_buffer_pressure_warning`. */
  function CreateBufferPressureWarning(bufferSize: nat, maxSize: nat, level: PressureLevel): (f: ClientFrame)
    ensures f.BufferPressure? && f.level == level && f.bufferSize == bufferSize && f.maxSize == maxSize
    ensures f.recommendedAction == "increase_playback_speed" <==> level == High
    ensures f.recommendedAction != "increase_playback_speed" ==> f.recommendedAction == "monitor"
  {
    BufferPressure(level, bufferSize, maxSize, if level == High then "increase_playback_speed" else "monitor")
  }

  /** `AudioMetadata.create_truncation_warning`. */
  function CreateTruncationWarning(chunksRemoved: nat, bufferSize: nat): (f: ClientFrame)
    ensures f.AudioTruncation? && f.chunksRemoved == chunksRemoved && f.bufferSize == bufferSize
    ensures f.reason == "buffer_overflow"
  {
    AudioTruncation(chunksRemoved, bufferSize, "buffer_overflow")
  }

  /** The result of overflow handling: what stays in the buffer and what was popped from its front. */
  datatype Split<T> = Split(kept: seq<T>, evicted: seq<T>)

  /** Overflow handling on contents `s`: pop the oldest items until at most `cap` remain. */
  function Evict<T>(s: seq<T>, cap: nat): (r: Split<T>)
    ensures r.evicted + r.kept == s
    ensures |r.kept| == if |s| <= cap then |s| else cap
  {
    if |s| <= cap then Split(s, []) else Split(s[|s| - cap..], s[..|s| - cap])
  }

  /** The newest `cap` items of `s` (all of them when there are no more than `cap`). */
  function Newest<T>(s: seq<T>, cap: nat): seq<T> {
    if |s| <= cap then s else s[|s| - cap..]
  }

  /** Buffer contents after adding the items of `xs` one at a time. */
  function AddAll<T>(s: seq<T>, xs: seq<T>, cap: nat): (r: seq<T>)
    ensures xs != [] ==> |r| == if |s| + |xs| <= cap then |s| + |xs| else cap
    decreases |xs|
  {
    if xs == [] then s else AddAll(Evict(s + [xs[0]], cap).kept, xs[1..], cap)
  }

  lemma NewestOfNewest<T>(t: seq<T>, u: seq<T>, cap: nat)
    ensures Newest(Newest(t, cap) + u, cap) == Newest(t + u, cap)
  {
    if |t| > cap {
      var n := Newest(t, cap);
      if |n + u| > cap {
        assert (n + u)[|n + u| - cap..] == (t + u)[|t + u| - cap..];
      }
    }
  }

  /**
   * However many chunks are added, the buffer holds exactly the newest
   * `cap` of everything added, in arrival order.
   */
  lemma {:induction false} AddAllKeepsNewest<T>(s: seq<T>, xs: seq<T>, cap: nat)
    requires |s| <= cap
    ensures AddAll(s, xs, cap) == Newest(s + xs, cap)
    ensures |AddAll(s, xs, cap)| <= cap
    decreases |xs|
  {
    if xs == [] {
      assert s + xs == s;
    } else {
      var k := Evict(s + [xs[0]], cap).kept;
      assert k == Newest(s + [xs[0]], cap);
      AddAllKeepsNewest(k, xs[1..], cap);
      NewestOfNewest(s + [xs[0]], xs[1..], cap);
      assert s + [xs[0]] + xs[1..] == s + xs;
    }
  }

  function FillRatio(size: nat, maxSize: nat): real
    requires maxSize > 0
  {
    size as real / maxSize as real
  }

  lemma RatioAbove(a: nat, m: nat, c: real)
    requires m > 0
    ensures a as real / m as real > c <==> a as real > c * m as real
  {
    var q := a as real / m as real;
    assert q * m as real == a as real;
    if q > c {
      assert q * m as real > c * m as real;
    } else {
      assert q * m as real <= c * m as real;
    }
  }

  /** `get_pressure_level`: the fill ratio against 0.9 and 0.8, both strict. */
  function PressureOf(size: nat, maxSize: nat): (l: PressureLevel)
    requires maxSize > 0
    ensures l == High <==> 10 * size > 9 * maxSize
    ensures l == Medium <==> 10 * size <= 9 * maxSize && 10 * size > 8 * maxSize
    ensures l == Low <==> 10 * size <= 8 * maxSize
  {
    RatioAbove(size, maxSize, 0.9);
    RatioAbove(size, maxSize, 0.8);
    var r := FillRatio(size, maxSize);
    if r > 0.9 then High else if r > 0.8 then Medium else Low
  }

  /** The boundary ratios at the default capacity. */
  lemma PressureBoundaries()
    ensures PressureOf(4501, 5000) == High
    ensures PressureOf(4500, 5000) == Medium
    ensures PressureOf(4001, 5000) == Medium
    ensures PressureOf(4000, 5000) == Low
  {
  }

  class AudioBuffer {
    const maxSize: nat
    /** The stored chunks, oldest first. */
    var buffer: seq<BufferedChunk>
    var sequenceCounter: nat

    ghost predicate Valid()
      reads this
    {
      maxSize > 0 && |buffer| <= maxSize
    }

    /** `max_size or MAX_BUFFER_SIZE`: a missing or zero capacity means the default. */
    constructor (maxSizeArg: Option<nat>)
      ensures Valid()
      ensures maxSize == if maxSizeArg.None? || maxSizeArg.value == 0 then Config.MAX_BUFFER_SIZE else maxSizeArg.value
      ensures buffer == [] && sequenceCounter == 0
    {
      maxSize := if maxSizeArg.None? || maxSizeArg.value == 0 then Config.MAX_BUFFER_SIZE else maxSizeArg.value;
      buffer := [];
      sequenceCounter := 0;
    }

    method AddAudioChunk(audioData: bytes, overrides: MetadataOverrides, now: int)
      returns (chunk: BufferedChunk, removed: seq<BufferedChunk>)
      requires Valid()
      modifies this
      ensures Valid()
      ensures sequenceCounter == old(sequenceCounter) + 1
      ensures chunk == NewBufferedChunk(audioData, sequenceCounter, now, overrides)
      ensures Split(buffer, removed) == Evict(old(buffer) + [chunk], maxSize)
      ensures |buffer| > 0 && buffer[|buffer| - 1] == chunk
      ensures |old(buffer)| < maxSize ==> removed == [] && buffer == old(buffer) + [chunk]
    {
      sequenceCounter := sequenceCounter + 1;
      chunk := NewBufferedChunk(audioData, sequenceCounter, now, overrides);
      buffer := buffer + [chunk];
      if |buffer| > maxSize {
        removed := RemoveOverflowChunks();
      } else {
        removed := [];
      }
    }

    /** The `pop(0)` loop: evict from the front until within capacity. */
    method RemoveOverflowChunks() returns (removed: seq<BufferedChunk>)
      requires maxSize > 0
      modifies this
      ensures Split(buffer, removed) == Evict(old(buffer), maxSize)
      ensures sequenceCounter == old(sequenceCounter)
    {
      removed := [];
      while |buffer| > maxSize
        invariant removed + buffer == old(buffer)
        invariant |old(buffer)| > maxSize ==> |buffer| >= maxSize
        invariant |old(buffer)| <= maxSize ==> removed == []
        invariant sequenceCounter == old(sequenceCounter)
        decreases |buffer|
      {
        removed := removed + [buffer[0]];
        buffer := buffer[1..];
      }
      ghost var s := old(buffer);
      if |s| > maxSize {
        assert |removed| == |s| - maxSize;
        assert removed == s[..|s| - maxSize] && buffer == s[|s| - maxSize..];
      }
    }

    method FlushAll() returns (chunks: seq<BufferedChunk>)
      modifies this
      ensures chunks == old(buffer) && buffer == []
      ensures sequenceCounter == old(sequenceCounter)
    {
      chunks := buffer;
      buffer := [];
    }

    method IsEmpty() returns (empty: bool)
      ensures empty <==> |buffer| == 0
    {
      empty := |buffer| == 0;
    }

    method Size() returns (n: nat)
      ensures n == |buffer|
    {
      n := |buffer|;
    }

    method GetPressureLevel() returns (level: PressureLevel)
      requires Valid()
      ensures level == High <==> 10 * |buffer| > 9 * maxSize
      ensures level == Medium <==> 10 * |buffer| <= 9 * maxSize && 10 * |buffer| > 8 * maxSize
      ensures level == Low <==> 10 * |buffer| <= 8 * maxSize
    {
      level := PressureOf(|buffer|, maxSize);
    }
  }

  /** Two flushes in a row: everything in arrival order, then nothing. */
  method FlushTwice(b: AudioBuffer) returns (first: seq<BufferedChunk>, second: seq<BufferedChunk>)
    modifies b
    ensures first == old(b.buffer) && second == [] && b.buffer == []
  {
    first := b.FlushAll();
    second := b.FlushAll();
  }
}
