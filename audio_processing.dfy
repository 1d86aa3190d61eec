/**
 * The outbound audio decision for one chunk of model audio: auto-flush on
 * timeout, live send to a ready client, or buffering with pressure and
 * truncation warnings (backend/app/handlers/audio_processor.py).
 */
module AudioProcessing {
  import opened Base
  import opened Protocol
  import opened Channels
  import opened AudioUtils
  import opened WebSocketHandling
  import Config

  /** The two sends one flushed chunk makes: its metadata, marked as flushed, then its bytes. */
  function FlushedFrames(c: BufferedChunk): seq<ClientFrame> {
    [AudioMetadataMsg(c.metadata.(flushedByTimeout := true)), AudioBytes(c.audioData)]
  }

  /** The frames a flush loop delivers and the attempts it spends. */
  datatype SendOutcome = SendOutcome(frames: seq<ClientFrame>, attempts: nat)

  /**
   * The flush loop, from attempt `k`: each chunk's two sends share one
   * `try`, so a raised send abandons the rest of that chunk only and the
   * loop goes on with the next one.
   */
  function FlushOutcome(chunks: seq<BufferedChunk>, k: nat, failures: map<nat, string>): (r: SendOutcome)
    ensures |r.frames| <= 2 * |chunks|
    decreases |chunks|
  {
    if chunks == [] then SendOutcome([], 0)
    else
      var ms := FlushedFrames(chunks[0]);
      var used := AttemptsUsed(ms, k, failures);
      var rest := FlushOutcome(chunks[1..], k + used, failures);
      SendOutcome(ms[..Delivered(ms, k, failures)] + rest.frames, used + rest.attempts)
  }

  /**
   * Whatever fails, each chunk costs one attempt (its metadata raised) or
   * two, and only frames that went through are logged.
   */
  lemma {:induction false} FlushAttemptsBounds(chunks: seq<BufferedChunk>, k: nat, failures: map<nat, string>)
    ensures var r := FlushOutcome(chunks, k, failures);
            |chunks| <= r.attempts <= 2 * |chunks| && |r.frames| <= r.attempts
    decreases |chunks|
  {
    if chunks != [] {
      var ms := FlushedFrames(chunks[0]);
      FlushAttemptsBounds(chunks[1..], k + AttemptsUsed(ms, k, failures), failures);
    }
  }

  /** Every chunk's two flush frames, in buffer order. */
  function FlushedAll(chunks: seq<BufferedChunk>): (fs: seq<ClientFrame>)
    decreases |chunks|
  {
    if chunks == [] then [] else FlushedFrames(chunks[0]) + FlushedAll(chunks[1..])
  }

  /** The frames of chunk `i` sit at positions `2 * i` (metadata, flagged flushed) and `2 * i + 1` (bytes). */
  lemma {:induction false} FlushedAllLayout(chunks: seq<BufferedChunk>)
    ensures |FlushedAll(chunks)| == 2 * |chunks|
    ensures forall i :: 0 <= i < |chunks| ==>
              && FlushedAll(chunks)[2 * i] == AudioMetadataMsg(chunks[i].metadata.(flushedByTimeout := true))
              && FlushedAll(chunks)[2 * i + 1] == AudioBytes(chunks[i].audioData)
    decreases |chunks|
  {
    if chunks != [] {
      FlushedAllLayout(chunks[1..]);
      var rest := FlushedAll(chunks[1..]);
      var all := FlushedAll(chunks);
      forall i | 0 <= i < |chunks|
        ensures all[2 * i] == AudioMetadataMsg(chunks[i].metadata.(flushedByTimeout := true))
        ensures all[2 * i + 1] == AudioBytes(chunks[i].audioData)
      {
        if i > 0 {
          assert chunks[i] == chunks[1..][i - 1];
          assert all[2 * i] == rest[2 * (i - 1)];
          assert all[2 * i + 1] == rest[2 * (i - 1) + 1];
        }
      }
    }
  }

  /**
   * When no send fails, a flush delivers every chunk in buffer order as
   * metadata (flagged flushed) immediately followed by its bytes.
   */
  lemma {:induction false} FlushWithoutFaults(chunks: seq<BufferedChunk>, k: nat, failures: map<nat, string>)
    requires forall j :: k <= j < k + 2 * |chunks| ==> j !in failures
    ensures FlushOutcome(chunks, k, failures) == SendOutcome(FlushedAll(chunks), 2 * |chunks|)
    decreases |chunks|
  {
    if chunks != [] {
      DeliveredAllWhenNoFault(FlushedFrames(chunks[0]), k, failures);
      FlushWithoutFaults(chunks[1..], k + 2, failures);
    }
  }

  /** Every audio byte frame directly follows a metadata frame, and a non-empty run opens with metadata. */
  ghost predicate MetadataLed(f: seq<ClientFrame>) {
    && (forall j :: 0 <= j < |f| && f[j].AudioBytes? ==> j > 0 && f[j - 1].AudioMetadataMsg?)
    && (|f| > 0 ==> f[0].AudioMetadataMsg?)
  }

  lemma MetadataLedAppend(a: seq<ClientFrame>, b: seq<ClientFrame>)
    requires MetadataLed(a) && MetadataLed(b)
    ensures MetadataLed(a + b)
  {
    var f := a + b;
    forall j | 0 <= j < |f| && f[j].AudioBytes?
      ensures j > 0 && f[j - 1].AudioMetadataMsg?
    {
      if j >= |a| {
        assert f[j] == b[j - |a|];
        if j > |a| {
          assert f[j - 1] == b[j - 1 - |a|];
        }
      }
    }
  }

  /** Whatever fails, every audio byte frame a flush delivers directly follows a metadata frame. */
  lemma {:induction false} FlushMetadataPrecedesBytes(chunks: seq<BufferedChunk>, k: nat, failures: map<nat, string>)
    ensures MetadataLed(FlushOutcome(chunks, k, failures).frames)
    decreases |chunks|
  {
    if chunks != [] {
      var ms := FlushedFrames(chunks[0]);
      var n := Delivered(ms, k, failures);
      var used := AttemptsUsed(ms, k, failures);
      FlushMetadataPrecedesBytes(chunks[1..], k + used, failures);
      assert MetadataLed(ms[..n]) by {
        if n == 2 { assert ms[..n] == ms; }
      }
      MetadataLedAppend(ms[..n], FlushOutcome(chunks[1..], k + used, failures).frames);
    }
  }

  /** The three sends of a live chunk, in order. */
  function LiveFrames(sequence: int, audioData: bytes, now: int, correlationId: string, disableVad: bool): (fs: seq<ClientFrame>)
    ensures |fs| == 3
    ensures fs[0] == PlaybackState(true, sequence, correlationId, !disableVad)
    ensures fs[1].AudioMetadataMsg? && fs[1].metadata.sequence == sequence
    ensures fs[1].metadata.sizeBytes == |audioData| && fs[1].metadata.sampleRate == Config.OUTPUT_SAMPLE_RATE
    ensures fs[1].metadata.timestamp == now && !fs[1].metadata.buffered
    ensures fs[2] == AudioBytes(audioData)
  {
    [PlaybackState(true, sequence, correlationId, !disableVad),
     AudioMetadataMsg(CreateMetadata(sequence, |audioData|, Some(Config.OUTPUT_SAMPLE_RATE), now)),
     AudioBytes(audioData)]
  }

  /**
   * The warnings attempted after an enqueue: a pressure warning when the
   * level after the enqueue is medium or high, then a truncation warning
   * when chunks were evicted.
   */
  function BufferWarnings(size: nat, maxSize: nat, removedCount: nat): (ws: seq<ClientFrame>)
    requires maxSize > 0
    ensures |ws| == (if PressureOf(size, maxSize) != Low then 1 else 0) + (if removedCount > 0 then 1 else 0)
    ensures PressureOf(size, maxSize) != Low ==> ws[0] == CreateBufferPressureWarning(size, maxSize, PressureOf(size, maxSize))
    ensures removedCount > 0 ==> ws[|ws| - 1] == CreateTruncationWarning(removedCount, size)
  {
    var level := PressureOf(size, maxSize);
    (if level == Medium || level == High then [CreateBufferPressureWarning(size, maxSize, level)] else [])
    + (if removedCount > 0 then [CreateTruncationWarning(removedCount, size)] else [])
  }

  /** The values one audio event changes: readiness, buffer, the client log, the session flags. */
  datatype AudioView = AudioView(
    ready: bool, buffer: seq<BufferedChunk>, bufferCounter: nat,
    log: seq<ClientFrame>, attempts: nat, active: bool, sequence: nat)

  /**
   * What `process_audio_response` does, from the values `v0` to `v2`:
   * readiness is gained on timeout and never lost, the sequence number
   * advances once, and the chunk is delivered or buffered as the two
   * predicates below say.
   */
  ghost predicate AudioResponseEffect(v0: AudioView, v2: AudioView, timedOut: bool, maxSize: nat,
                                      audioData: bytes, now: int, correlationId: string, disableVad: bool,
                                      failures: map<nat, string>)
    requires maxSize > 0
  {
    && v2.ready == (v0.ready || timedOut)
    && v2.sequence == v0.sequence + 1
    && (v2.ready ==>
          && v2.buffer == (if timedOut then [] else v0.buffer)
          && DeliveredEffect(v0, v2, if timedOut then FlushOutcome(v0.buffer, v0.attempts, failures) else SendOutcome([], 0),
                             audioData, now, correlationId, disableVad, failures))
    && (!v2.ready ==> BufferedEffect(v0, v2, maxSize, audioData, now, failures))
  }

  /**
   * Once the client is ready, the timeout flush cannot run, so a model-audio
   * event leaves the buffer exactly as it was: what was buffered before the
   * ready signal is never sent.
   */
  lemma ReadyStrandsBufferedAudio(v0: AudioView, v2: AudioView, maxSize: nat, audioData: bytes, now: int,
                                  correlationId: string, disableVad: bool, failures: map<nat, string>)
    requires maxSize > 0 && v0.ready
    requires AudioResponseEffect(v0, v2, false, maxSize, audioData, now, correlationId, disableVad, failures)
    ensures v2.ready && v2.buffer == v0.buffer
  {
  }

  /**
   * A ready client gets `flush` (the buffer flushed by the timeout, or
   * nothing) and then the chunk's three live sends; a failed live send
   * clears the processing flag.
   */
  ghost predicate DeliveredEffect(v0: AudioView, v2: AudioView, flush: SendOutcome,
                                  audioData: bytes, now: int, correlationId: string, disableVad: bool,
                                  failures: map<nat, string>)
  {
    var live := LiveFrames(v2.sequence, audioData, now, correlationId, disableVad);
    var k := v0.attempts + flush.attempts;
    var n := Delivered(live, k, failures);
    && v2.log == v0.log + flush.frames + live[..n]
    && v2.attempts == k + AttemptsUsed(live, k, failures)
    && v2.active == (v0.active && n == 3)
  }

  /** The chunk's three live sends to a ready client; a failed one clears the processing flag. */
  ghost predicate LiveSendEffect(v1: AudioView, v2: AudioView,
                                 audioData: bytes, now: int, correlationId: string, disableVad: bool,
                                 failures: map<nat, string>)
  {
    var live := LiveFrames(v2.sequence, audioData, now, correlationId, disableVad);
    var n := Delivered(live, v1.attempts, failures);
    && v2.log == v1.log + live[..n]
    && v2.attempts == v1.attempts + AttemptsUsed(live, v1.attempts, failures)
    && v2.active == (v1.active && n == 3)
  }

  /**
   * A client not yet ready: the chunk is enqueued, evicting from the front,
   * and the pressure and truncation warnings follow; a failed warning is
   * swallowed.
   */
  ghost predicate BufferedEffect(v0: AudioView, v2: AudioView, maxSize: nat, audioData: bytes, now: int,
                                 failures: map<nat, string>)
    requires maxSize > 0
  {
    var chunk := NewBufferedChunk(audioData, v0.bufferCounter + 1, now, MetadataOverrides(Some(v2.sequence), Some(now)));
    var split := Evict(v0.buffer + [chunk], maxSize);
    var warnings := BufferWarnings(|split.kept|, maxSize, |split.evicted|);
    && v2.buffer == split.kept
    && v2.log == v0.log + Survivors(warnings, v0.attempts, failures)
    && v2.attempts == v0.attempts + |warnings|
    && v2.active == v0.active
  }

  /** The timeout check followed by delivery or buffering, on the values they change. */
  lemma AudioResponseCompose(v0: AudioView, v1: AudioView, v2: AudioView, timedOut: bool, maxSize: nat,
                             audioData: bytes, now: int, correlationId: string, disableVad: bool,
                             failures: map<nat, string>)
    requires maxSize > 0
    requires timedOut ==> !v0.ready
    requires v1.ready == (v0.ready || timedOut) && v1.bufferCounter == v0.bufferCounter
    requires v1.buffer == (if timedOut then [] else v0.buffer)
    requires var flush := if timedOut then FlushOutcome(v0.buffer, v0.attempts, failures) else SendOutcome([], 0);
             v1.log == v0.log + flush.frames && v1.attempts == v0.attempts + flush.attempts
    requires v1.active == v0.active && v1.sequence == v0.sequence
    requires v2.ready == v1.ready && v2.sequence == v1.sequence + 1
    requires v2.ready ==> v2.buffer == v1.buffer
    requires v2.ready ==> LiveSendEffect(v1, v2, audioData, now, correlationId, disableVad, failures)
    requires !v2.ready ==> BufferedEffect(v1, v2, maxSize, audioData, now, failures)
    ensures AudioResponseEffect(v0, v2, timedOut, maxSize, audioData, now, correlationId, disableVad, failures)
  {
    if v2.ready {
      DeliveredAfterTimeoutCheck(v0, v1, v2, if timedOut then FlushOutcome(v0.buffer, v0.attempts, failures) else SendOutcome([], 0),
                                 audioData, now, correlationId, disableVad, failures);
    } else {
      assert v0.log + [] == v0.log;
      BufferedAfterTimeoutCheck(v0, v1, v2, maxSize, audioData, now, failures);
    }
  }

  lemma DeliveredAfterTimeoutCheck(v0: AudioView, v1: AudioView, v2: AudioView, flush: SendOutcome,
                                   audioData: bytes, now: int, correlationId: string, disableVad: bool,
                                   failures: map<nat, string>)
    requires v1.log == v0.log + flush.frames && v1.attempts == v0.attempts + flush.attempts
    requires v1.active == v0.active
    requires LiveSendEffect(v1, v2, audioData, now, correlationId, disableVad, failures)
    ensures DeliveredEffect(v0, v2, flush, audioData, now, correlationId, disableVad, failures)
  {
  }

  lemma BufferedAfterTimeoutCheck(v0: AudioView, v1: AudioView, v2: AudioView, maxSize: nat,
                                  audioData: bytes, now: int, failures: map<nat, string>)
    requires maxSize > 0
    requires v1.buffer == v0.buffer && v1.bufferCounter == v0.bufferCounter
    requires v1.log == v0.log && v1.attempts == v0.attempts && v1.active == v0.active
    requires BufferedEffect(v1, v2, maxSize, audioData, now, failures)
    ensures BufferedEffect(v0, v2, maxSize, audioData, now, failures)
  {
  }

  class AudioProcessor {
    const sessionState: SessionState

    constructor (sessionState: SessionState)
      ensures this.sessionState == sessionState
    {
      this.sessionState := sessionState;
    }

    /** `process_audio_response`: one chunk of model audio arriving at time `now`. */
    method ProcessAudioResponse(audioData: bytes, now: int, correlationId: string, disableVad: bool, ws: Channel<ClientFrame>)
      requires sessionState.Valid()
      modifies sessionState, sessionState.geminiAudioBuffer, ws
      ensures sessionState.Valid()
      ensures sessionState.clientReadyForAudio
              == (old(sessionState.clientReadyForAudio) || now - sessionState.connectionStartTime > Config.BUFFER_TIMEOUT_MS)
      ensures sessionState.audioSequenceCounter == old(sessionState.audioSequenceCounter) + 1
      ensures sessionState.ConversationFields() == old(sessionState.ConversationFields())
      ensures AudioResponseEffect(old(View(ws)), View(ws),
                                  !old(sessionState.clientReadyForAudio)
                                  && now - sessionState.connectionStartTime > Config.BUFFER_TIMEOUT_MS,
                                  sessionState.geminiAudioBuffer.maxSize, audioData, now, correlationId, disableVad, ws.failures)
    {
      ghost var v0 := View(ws);
      ghost var timedOut := !sessionState.clientReadyForAudio
                            && now - sessionState.connectionStartTime > Config.BUFFER_TIMEOUT_MS;
      CheckBufferTimeout(now, ws);
      ghost var v1 := View(ws);
      DeliverOrBuffer(audioData, now, correlationId, disableVad, ws);
      AudioResponseCompose(v0, v1, View(ws), timedOut, sessionState.geminiAudioBuffer.maxSize,
                           audioData, now, correlationId, disableVad, ws.failures);
    }

    /** The values `process_audio_response` changes. */
    ghost function View(ws: Channel<ClientFrame>): AudioView
      reads sessionState, sessionState.geminiAudioBuffer, ws
    {
      AudioView(sessionState.clientReadyForAudio, sessionState.geminiAudioBuffer.buffer,
                sessionState.geminiAudioBuffer.sequenceCounter, ws.log, ws.attempts,
                sessionState.activeProcessing, sessionState.audioSequenceCounter)
    }

    /** The timeout check that opens `process_audio_response`. */
    method CheckBufferTimeout(now: int, ws: Channel<ClientFrame>)
      requires sessionState.Valid()
      modifies sessionState, sessionState.geminiAudioBuffer, ws
      ensures sessionState.Valid()
      ensures var timedOut := !old(sessionState.clientReadyForAudio)
                              && now - sessionState.connectionStartTime > Config.BUFFER_TIMEOUT_MS;
              var flush := if timedOut
                           then FlushOutcome(old(sessionState.geminiAudioBuffer.buffer), old(ws.attempts), ws.failures)
                           else SendOutcome([], 0);
              && sessionState.clientReadyForAudio == (old(sessionState.clientReadyForAudio) || timedOut)
              && sessionState.geminiAudioBuffer.buffer == (if timedOut then [] else old(sessionState.geminiAudioBuffer.buffer))
              && sessionState.geminiAudioBuffer.sequenceCounter == old(sessionState.geminiAudioBuffer.sequenceCounter)
              && ws.log == old(ws.log) + flush.frames
              && ws.attempts == old(ws.attempts) + flush.attempts
      ensures sessionState.audioSequenceCounter == old(sessionState.audioSequenceCounter)
      ensures sessionState.activeProcessing == old(sessionState.activeProcessing)
      ensures sessionState.ConversationFields() == old(sessionState.ConversationFields())
    {
      var timeSinceConnection := now - sessionState.connectionStartTime;
      if !sessionState.clientReadyForAudio && timeSinceConnection > Config.BUFFER_TIMEOUT_MS {
        HandleBufferTimeout(ws);
      }
    }

    /** The branch of `process_audio_response` taken after the timeout check. */
    method DeliverOrBuffer(audioData: bytes, now: int, correlationId: string, disableVad: bool, ws: Channel<ClientFrame>)
      requires sessionState.Valid()
      modifies sessionState, sessionState.geminiAudioBuffer, ws
      ensures sessionState.Valid()
      ensures sessionState.clientReadyForAudio == old(sessionState.clientReadyForAudio)
      ensures sessionState.audioSequenceCounter == old(sessionState.audioSequenceCounter) + 1
      ensures sessionState.ConversationFields() == old(sessionState.ConversationFields())
      ensures sessionState.clientReadyForAudio ==>
                && sessionState.geminiAudioBuffer.buffer == old(sessionState.geminiAudioBuffer.buffer)
                && LiveSendEffect(old(View(ws)), View(ws), audioData, now, correlationId, disableVad, ws.failures)
      ensures !sessionState.clientReadyForAudio ==>
                BufferedEffect(old(View(ws)), View(ws), sessionState.geminiAudioBuffer.maxSize, audioData, now, ws.failures)
    {
      if sessionState.clientReadyForAudio {
        var err := SendAudioImmediately(audioData, now, correlationId, disableVad, ws);
        if err.Some? {
          sessionState.activeProcessing := false;
        }
      } else {
        BufferAudio(audioData, now, ws);
      }
    }

    /** `_handle_buffer_timeout`: mark the client ready and flush the model-audio buffer to it. */
    method HandleBufferTimeout(ws: Channel<ClientFrame>)
      requires sessionState.Valid()
      modifies sessionState, sessionState.geminiAudioBuffer, ws
      ensures sessionState.Valid()
      ensures sessionState.clientReadyForAudio
      ensures sessionState.geminiAudioBuffer.buffer == []
      ensures sessionState.geminiAudioBuffer.sequenceCounter == old(sessionState.geminiAudioBuffer.sequenceCounter)
      ensures var r := FlushOutcome(old(sessionState.geminiAudioBuffer.buffer), old(ws.attempts), ws.failures);
              ws.log == old(ws.log) + r.frames && ws.attempts == old(ws.attempts) + r.attempts
      ensures sessionState.audioSequenceCounter == old(sessionState.audioSequenceCounter)
      ensures sessionState.activeProcessing == old(sessionState.activeProcessing)
      ensures sessionState.ConversationFields() == old(sessionState.ConversationFields())
    {
      sessionState.clientReadyForAudio := true;
      var bufferedChunks := sessionState.geminiAudioBuffer.FlushAll();
      SendFlushedChunks(bufferedChunks, ws);
    }

    /** `_send_audio_immediately`: next sequence number, then playback state, metadata and bytes. */
    method SendAudioImmediately(audioData: bytes, now: int, correlationId: string, disableVad: bool, ws: Channel<ClientFrame>)
      returns (err: Option<string>)
      modifies sessionState, ws
      ensures sessionState.audioSequenceCounter == old(sessionState.audioSequenceCounter) + 1
      ensures var live := LiveFrames(sessionState.audioSequenceCounter, audioData, now, correlationId, disableVad);
              var n := Delivered(live, old(ws.attempts), ws.failures);
              && ws.log == old(ws.log) + live[..n]
              && ws.attempts == old(ws.attempts) + AttemptsUsed(live, old(ws.attempts), ws.failures)
              && (err.None? <==> n == 3)
      ensures sessionState.clientReadyForAudio == old(sessionState.clientReadyForAudio)
      ensures sessionState.activeProcessing == old(sessionState.activeProcessing)
      ensures sessionState.ConversationFields() == old(sessionState.ConversationFields())
    {
      sessionState.audioSequenceCounter := sessionState.audioSequenceCounter + 1;
      var sequenceNum := sessionState.audioSequenceCounter;
      err := ws.SendAll(LiveFrames(sequenceNum, audioData, now, correlationId, disableVad));
    }

    /** `_buffer_audio`: next sequence number, enqueue, then the pressure and overflow warnings. */
    method BufferAudio(audioData: bytes, now: int, ws: Channel<ClientFrame>)
      requires sessionState.Valid()
      modifies sessionState, sessionState.geminiAudioBuffer, ws
      ensures sessionState.Valid()
      ensures sessionState.audioSequenceCounter == old(sessionState.audioSequenceCounter) + 1
      ensures var chunk := NewBufferedChunk(audioData, old(sessionState.geminiAudioBuffer.sequenceCounter) + 1, now,
                                            MetadataOverrides(Some(sessionState.audioSequenceCounter), Some(now)));
              var split := Evict(old(sessionState.geminiAudioBuffer.buffer) + [chunk], sessionState.geminiAudioBuffer.maxSize);
              var warnings := BufferWarnings(|split.kept|, sessionState.geminiAudioBuffer.maxSize, |split.evicted|);
              && sessionState.geminiAudioBuffer.buffer == split.kept
              && ws.log == old(ws.log) + Survivors(warnings, old(ws.attempts), ws.failures)
              && ws.attempts == old(ws.attempts) + |warnings|
      ensures sessionState.clientReadyForAudio == old(sessionState.clientReadyForAudio)
      ensures sessionState.activeProcessing == old(sessionState.activeProcessing)
      ensures sessionState.ConversationFields() == old(sessionState.ConversationFields())
    {
      var buffer := sessionState.geminiAudioBuffer;
      sessionState.audioSequenceCounter := sessionState.audioSequenceCounter + 1;
      var sequenceNum := sessionState.audioSequenceCounter;
      var audioChunkData, removedChunks := buffer.AddAudioChunk(audioData, MetadataOverrides(Some(sequenceNum), Some(now)), now);
      ghost var a0 := ws.attempts;
      ghost var l0 := ws.log;
      HandleBufferPressure(buffer, ws);
      if |removedChunks| > 0 {
        HandleBufferOverflow(removedChunks, buffer, ws);
      }
      ghost var warnings := BufferWarnings(|buffer.buffer|, buffer.maxSize, |removedChunks|);
      ghost var level := PressureOf(|buffer.buffer|, buffer.maxSize);
      ghost var p := if level != Low then [CreateBufferPressureWarning(|buffer.buffer|, buffer.maxSize, level)] else [];
      ghost var t := if |removedChunks| > 0 then [CreateTruncationWarning(|removedChunks|, |buffer.buffer|)] else [];
      assert warnings == p + t;
      SurvivorsAppend(p, t, a0, ws.failures);
    }

    /** `_handle_buffer_pressure`: warn at medium or high pressure; a failed send is swallowed. */
    method HandleBufferPressure(buffer: AudioBuffer, ws: Channel<ClientFrame>)
      requires buffer.Valid()
      modifies ws
      ensures var level := PressureOf(|buffer.buffer|, buffer.maxSize);
              var attempted := if level != Low then [CreateBufferPressureWarning(|buffer.buffer|, buffer.maxSize, level)] else [];
              && ws.log == old(ws.log) + Survivors(attempted, old(ws.attempts), ws.failures)
              && ws.attempts == old(ws.attempts) + |attempted|
    {
      var pressureLevel := buffer.GetPressureLevel();
      if pressureLevel == Medium || pressureLevel == High {
        var size := buffer.Size();
        var pressureWarning := CreateBufferPressureWarning(size, buffer.maxSize, pressureLevel);
        var _ := ws.Send(pressureWarning);
      }
    }

    /** `_handle_buffer_overflow`: report how many chunks were evicted; a failed send is swallowed. */
    method HandleBufferOverflow(removedChunks: seq<BufferedChunk>, buffer: AudioBuffer, ws: Channel<ClientFrame>)
      modifies ws
      ensures var attempted := [CreateTruncationWarning(|removedChunks|, |buffer.buffer|)];
              && ws.log == old(ws.log) + Survivors(attempted, old(ws.attempts), ws.failures)
              && ws.attempts == old(ws.attempts) + 1
    {
      var size := buffer.Size();
      var truncationWarning := CreateTruncationWarning(|removedChunks|, size);
      var _ := ws.Send(truncationWarning);
    }
  }

  /**
   * The flush loop shared by the timeout path and the client-ready signal:
   * every chunk in order, metadata then bytes, a failed chunk skipped.
   */
  method SendFlushedChunks(chunks: seq<BufferedChunk>, ws: Channel<ClientFrame>)
    modifies ws
    ensures var r := FlushOutcome(chunks, old(ws.attempts), ws.failures);
            ws.log == old(ws.log) + r.frames && ws.attempts == old(ws.attempts) + r.attempts
  {
    ghost var k0, log0 := ws.attempts, ws.log;
    ghost var whole := FlushOutcome(chunks, k0, ws.failures);
    var remaining := chunks;
    while remaining != []
      invariant log0 + whole.frames == ws.log + FlushOutcome(remaining, ws.attempts, ws.failures).frames
      invariant k0 + whole.attempts == ws.attempts + FlushOutcome(remaining, ws.attempts, ws.failures).attempts
      decreases |remaining|
    {
      var chunk := remaining[0];
      FlushStep(remaining, ws.attempts, ws.failures, ws.log, log0 + whole.frames);
      var _ := ws.SendAll(FlushedFrames(chunk));
      remaining := remaining[1..];
    }
  }

  /** One turn of the flush loop, as `FlushOutcome` unfolds it. */
  lemma FlushStep(tail: seq<BufferedChunk>, k: nat, failures: map<nat, string>,
                  log: seq<ClientFrame>, total: seq<ClientFrame>)
    requires tail != []
    requires total == log + FlushOutcome(tail, k, failures).frames
    ensures var ms := FlushedFrames(tail[0]);
            var used := AttemptsUsed(ms, k, failures);
            var rest := FlushOutcome(tail[1..], k + used, failures);
            && total == (log + ms[..Delivered(ms, k, failures)]) + rest.frames
            && FlushOutcome(tail, k, failures).attempts == used + rest.attempts
  {
    var ms := FlushedFrames(tail[0]);
    var sent := ms[..Delivered(ms, k, failures)];
    var rest := FlushOutcome(tail[1..], k + AttemptsUsed(ms, k, failures), failures);
    assert log + (sent + rest.frames) == (log + sent) + rest.frames;
  }
}
