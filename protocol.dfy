/**
 * The messages the relay exchanges: frames it sends to the browser client,
 * messages it sends to the upstream live session, and the events the live
 * session delivers. Each dict shape of the relay becomes one variant.
 */
module Protocol {
  import opened Base

  /** Utterance ids; the relay draws them from a fresh-id source (uuid4 in the relay). */
  type UtteranceId = nat

  /** Buffer fill level reported to the client. */
  datatype PressureLevel = Low | Medium | High {
    function Name(): string {
      match this
      case Low => "low"
      case Medium => "medium"
      case High => "high"
    }
  }

  /**
   * The metadata record of one audio chunk. `buffered` and
   * `flushedByTimeout` stand for keys that are either present with value
   * True or absent.
   */
  datatype ChunkMetadata = ChunkMetadata(
    sequence: int,
    sizeBytes: nat,
    expectedDurationMs: real,
    sampleRate: nat,
    timestamp: int,
    buffered: bool,
    flushedByTimeout: bool)

  /** A stored buffer item, the dict of type "buffered_audio". */
  datatype BufferedChunk = BufferedChunk(audioData: bytes, metadata: ChunkMetadata)

  /** What the relay sends to the browser client. */
  datatype ClientFrame =
    | PlaybackState(playing: bool, sequence: int, correlationId: string, vadShouldActivate: bool)
    | AudioMetadataMsg(metadata: ChunkMetadata)
    | AudioBytes(data: bytes)
    | BufferPressure(level: PressureLevel, bufferSize: nat, maxSize: nat, recommendedAction: string)
    | AudioTruncation(chunksRemoved: nat, bufferSize: nat, reason: string)
    | InterruptPlayback
    | TranscriptUpdate(id: UtteranceId, text: string, sender: string, kind: string, isFinal: bool)
    | ErrorText(text: string)

  /** A conversation turn (role plus text parts). */
  datatype Content = Content(role: string, parts: seq<string>)

  datatype FunctionCall = FunctionCall(id: string, name: string, args: map<string, Json>)

  datatype FunctionResponse = FunctionResponse(id: string, name: string, response: map<string, Json>)

  /** What the relay sends to the upstream live session. */
  datatype UpstreamMsg =
    | ClientContent(turns: seq<Content>)
    | RealtimeAudio(mimeType: string, data: bytes)
    | ToolResponse(functionResponses: seq<FunctionResponse>)

  datatype ResumptionUpdate = ResumptionUpdate(resumable: bool, newHandle: Option<string>)

  /** A transcription object; its `text` may be missing. */
  datatype Transcription = Transcription(text: Option<string>)

  datatype Part = Part(text: Option<string>)

  datatype ServerContent = ServerContent(
    interrupted: bool,
    inputTranscription: Option<Transcription>,
    outputTranscription: Option<Transcription>,
    generationComplete: bool,
    turnComplete: bool,
    text: Option<string>,
    modelTurn: Option<seq<Part>>,
    outputText: Option<string>)

  datatype ToolCall = ToolCall(functionCalls: seq<FunctionCall>)

  /** An upstream error: its `message` attribute if it has one, else its string form. */
  datatype GeminiError = GeminiError(message: Option<string>, rendered: string)

  /** One event of the live session; several fields may be set at once. */
  datatype Response = Response(
    sessionResumptionUpdate: Option<ResumptionUpdate>,
    sessionHandle: Option<string>,
    data: Option<bytes>,
    serverContent: Option<ServerContent>,
    toolCall: Option<ToolCall>,
    error: Option<GeminiError>)

  /** Truthiness of an optional string attribute: present and non-empty. */
  predicate HasText(s: Option<string>) {
    s.Some? && s.value != ""
  }
}
