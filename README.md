# Gemini live relay: a verified model of the per-connection core

The backend relays one browser WebSocket connection to a Gemini Live
session. For each connection it keeps one session record. Two loops run
beside each other:

- one forwards what the browser sends (text prompts, microphone audio, the
  "client ready" signal) to the live session;
- one takes what the live session delivers (model audio, transcripts, tool
  calls, errors, session-resumption handles) and relays it to the browser.

Model audio that arrives before the browser says it is ready goes into a
bounded FIFO buffer. Only the auto-flush empties that buffer. It runs when a
model-audio chunk arrives while the client is still not ready, more than 3 s
after the connection started: the buffer is sent and the client is marked
ready. The browser's ready signal also marks the client ready, but it
flushes a different buffer, the microphone buffer.

Tool calls run as background tasks, and each task sends its result straight
to the live session. A separate queue holds what tool implementations post
later: system messages, and any function responses put there. The queue is
drained at a turn boundary, or after 1.5 s without model audio. A function
response in the queue is de-duplicated by a `name-uuid` key.

This project models that core in Dafny, one module per source file:

| module | models |
|---|---|
| `Config` | `backend/app/core/config.py` |
| `AudioUtils` | `backend/app/utils/audio.py` |
| `AudioProcessing` | `backend/app/handlers/audio_processor.py` |
| `Transcription` | `backend/app/handlers/transcription_processor.py` |
| `ToolCalls` | `backend/app/handlers/tool_call_processor.py` |
| `ResponseHandling` | `backend/app/handlers/gemini_response_handler.py` |
| `ClientInput` | `backend/app/handlers/client_input_handler.py` |
| `WebSocketHandling` | the session record, the tool table and the cleanup flag of `backend/app/handlers/websocket_handler.py` |

Three support modules sit under them:

- `Base`: an optional value, bytes, JSON values and decimal text.
- `Protocol`: every message shape, as a datatype variant.
- `Channels`: the outgoing channels.

**How sends are modelled.** Every `await ...send(...)` is one send attempt
on a `Channels.Channel`. The channel keeps the log of messages that
actually went through and the number of attempts. It also holds a fault
plan: a map from attempt number to exception text. An attempt raises
exactly when its number is in the plan. The proofs hold for every plan,
which covers every pattern of send failures. Two shapes recur:

- `Delivered` / `SendAll`: sends in a row with no handler between them.
  The first send that raises ends the run.
- `Survivors`: sends that each sit in their own `try`. A failure loses only
  its own message.

**Stateful objects.** These are Dafny classes whose methods update fields
in place:

- the buffer (`AudioBuffer`);
- the session record (`SessionState`);
- the handlers;
- the tool-results queue;
- the id supplier that stands in for `uuid4`.

Each method is proved against a specification function on values, for
example:

- `Evict` / `AddAll` for the buffer;
- `FlushOutcome` for the flush loops;
- `Step` for the transcript aggregator;
- `DrainFrom` for the queue drain;
- `InputFrom` for the client receive loop.

Lemmas then state what the source promises about those functions: FIFO
eviction, at-most-once delivery per key, exact transcript accumulation,
which messages are forwarded, and so on.

**Time.** Time is an integer number of milliseconds passed in as a
parameter. The 3 s buffer timeout is `BUFFER_TIMEOUT_MS = 3000`. The 1.5 s
speech gap is `SPEECH_COMPLETION_THRESHOLD_MS = 1500`. Both comparisons are
strict, as in the source.

**What the model shows about the source.**

- Nothing in the core ever adds to the microphone buffer. The flush on the
  ready signal is modelled as written, but in the running system it always
  finds that buffer empty.
- Model audio buffered before the ready signal is never sent. Once the
  signal marks the client ready, the auto-flush can no longer run, and a
  model-audio event leaves the buffer as it was (`ReadyStrandsBufferedAudio`).
  The ready signal itself never touches the model-audio buffer.

## Model

| member | source | states |
|---|---|---|
| Config.EnvFlag | backend/app/core/config.py:20 | a flag is true iff the variable is set and spells "true" in any capitalisation; unset means false |
| Config.LoadSettings | backend/app/core/config.py:16-27 | the Vertex and VAD flags follow `EnvFlag`; a missing API key is ""; a missing model name is the default model |
| Config.IsVertexAiConfigured | backend/app/core/config.py:37-42 | false outside Vertex mode; in Vertex mode, true iff project id and location are both non-empty |
| Config.ValidateConfiguration | backend/app/core/config.py:44-53 | Vertex mode is invalid iff project id or location is empty; otherwise invalid iff the API key is empty; each failure carries its own message |
| Config.VertexValidIffConfigured | backend/app/core/config.py:37-53 | in Vertex mode, validation passes iff Vertex is reported configured |
| Config.VertexIgnoresApiKey | backend/app/core/config.py:44-53 | in Vertex mode, changing the API key never changes the validation result |
| Config.EnvFlagExamples | backend/app/core/config.py:27 | unset is false; "TRUE" and "True" are true; "1" and "true " are false |
| AudioUtils.ExpectedDurationMs | backend/app/utils/audio.py:34-36 | the duration is non-negative, and duration × rate = (bytes div 2) × 1000 |
| AudioUtils.OddByteAddsNoTime | backend/app/utils/audio.py:35-36 | a trailing odd byte adds no duration (PCM16 has two bytes per sample) |
| AudioUtils.OneSecondOfSamples | backend/app/utils/audio.py:35-36 | one second of samples lasts exactly 1000 ms |
| AudioUtils.NewBufferedChunk | backend/app/utils/audio.py:31-50 | a stored chunk keeps its bytes; size = byte count; rate = output rate; flagged buffered; a caller's sequence and timestamp replace the counter and the clock |
| AudioUtils.CreateMetadata | backend/app/utils/audio.py:97-124 | a missing or zero rate means 24000; sequence, size and timestamp are kept; duration × rate = (size div 2) × 1000 |
| AudioUtils.CreateBufferPressureWarning | backend/app/utils/audio.py:126-136 | the recommended action is "increase_playback_speed" iff the level is high, else "monitor" |
| AudioUtils.CreateTruncationWarning | backend/app/utils/audio.py:138-147 | carries the evicted count and the size, with reason "buffer_overflow" |
| AudioUtils.Evict | backend/app/utils/audio.py:61-67 | evicted ++ kept is the old contents: the evicted chunks are the oldest, in order; the kept length is min(size, capacity) |
| AudioUtils.AddAll | backend/app/utils/audio.py:20-67 | after at least one add, the buffer holds min(old size + adds, capacity) chunks |
| AudioUtils.AddAllKeepsNewest | backend/app/utils/audio.py:52-67 | after any number of adds, the buffer holds exactly the newest `capacity` chunks in arrival order, never more than capacity |
| AudioUtils.PressureOf | backend/app/utils/audio.py:83-91 | high iff ratio > 0.9; medium iff 0.8 < ratio ≤ 0.9; low iff ratio ≤ 0.8 (stated on integers) |
| AudioUtils.PressureBoundaries | backend/app/utils/audio.py:83-91 | 4501/5000 is high; 4500 and 4001 are medium; 4000 is low |
| AudioUtils.AudioBuffer.constructor | backend/app/utils/audio.py:15-18 | a missing or zero capacity falls back to 5000; the buffer starts empty with counter 0 |
| AudioUtils.AudioBuffer.AddAudioChunk | backend/app/utils/audio.py:20-59 | the counter goes up by one; the new chunk is last; the new state is `Evict(old ++ [chunk])`, which keeps the capacity bound; without overflow nothing is evicted and the buffer grows by one |
| AudioUtils.AudioBuffer.RemoveOverflowChunks | backend/app/utils/audio.py:61-67 | the pop-front loop leaves `Evict(old buffer)` and returns the evicted chunks in their original order |
| AudioUtils.AudioBuffer.FlushAll | backend/app/utils/audio.py:69-73 | returns the whole buffer in insertion order and leaves it empty |
| AudioUtils.AudioBuffer.IsEmpty | backend/app/utils/audio.py:75-77 | true iff the buffer holds nothing |
| AudioUtils.AudioBuffer.Size | backend/app/utils/audio.py:79-81 | the number of stored chunks |
| AudioUtils.AudioBuffer.GetPressureLevel | backend/app/utils/audio.py:83-91 | the level of the current fill ratio, with the same thresholds as `PressureOf` |
| AudioUtils.FlushTwice | backend/app/utils/audio.py:69-73 | two flushes in a row return everything, then nothing |
| Channels.Delivered | backend/app/handlers/audio_processor.py:106-116 | the delivered prefix is fault-free, and a run cut short stops exactly at a failing attempt |
| Channels.Survivors | backend/app/handlers/audio_processor.py:140-175 | guarded sends never deliver more messages than were attempted |
| Channels.Channel.Send | backend/app/handlers/audio_processor.py:158-162 | one attempt: it raises iff its number is in the fault plan; the message is logged iff it went through |
| Channels.Channel.SendAll | backend/app/handlers/audio_processor.py:106-116 | sends in a row: the log gains the delivered prefix; the first failing send ends the run and its exception is returned |
| Channels.DeliveredAllWhenNoFault | backend/app/handlers/audio_processor.py:106-116 | with no failing attempt in range, every message of the run goes through |
| Channels.SurvivorsWithoutFaults | backend/app/handlers/audio_processor.py:158-175 | with no failing attempt, every separately guarded message goes through |
| Channels.SurvivorsAppend | backend/app/handlers/audio_processor.py:140-145 | two runs of guarded sends amount to one run of their concatenation |
| Channels.GuardedRunsCompose | backend/app/handlers/transcription_processor.py:17-26 | consecutive guarded runs compose: log, attempts, and the "no send failed" flag |
| AudioProcessing.FlushOutcome | backend/app/handlers/audio_processor.py:58-78 | a flush logs at most two frames per chunk |
| AudioProcessing.FlushAttemptsBounds | backend/app/handlers/audio_processor.py:58-78 | whatever fails, each chunk costs one or two attempts, and only frames that went through are logged |
| AudioProcessing.ReadyStrandsBufferedAudio | backend/app/handlers/audio_processor.py:30-41 | once the client is ready, a model-audio event leaves the buffer unchanged, so audio buffered earlier is never sent |
| AudioProcessing.FlushedAllLayout | backend/app/handlers/audio_processor.py:58-67 | chunk i is sent at positions 2i (metadata flagged flushed) and 2i+1 (bytes) |
| AudioProcessing.FlushWithoutFaults | backend/app/handlers/audio_processor.py:58-78 | with no failure, a flush delivers every chunk in buffer order, each as metadata then bytes, in 2 × chunks attempts |
| AudioProcessing.FlushMetadataPrecedesBytes | backend/app/handlers/audio_processor.py:58-78 | whatever fails, every delivered byte frame directly follows a metadata frame |
| AudioProcessing.LiveFrames | backend/app/handlers/audio_processor.py:90-116 | live order: playback state {playing, sequence, correlation id, VAD = not DISABLE_VAD}, then metadata with that sequence, then the bytes |
| AudioProcessing.BufferWarnings | backend/app/handlers/audio_processor.py:140-175 | a pressure warning iff the level after the enqueue is medium or high; then a truncation warning iff chunks were evicted, with that count and the size after eviction |
| AudioProcessing.AudioResponseCompose | backend/app/handlers/audio_processor.py:20-41 | the timeout check followed by the live send or the buffering amounts to `AudioResponseEffect` |
| AudioProcessing.AudioProcessor.ProcessAudioResponse | backend/app/handlers/audio_processor.py:20-41 | ready becomes old ready or timed out, and is never cleared; the sequence goes up by one; on a timeout the buffer is flushed before the live send; a ready client gets the live sends, and a failed one clears the active flag; otherwise the chunk is enqueued and the warnings follow |
| AudioProcessing.AudioProcessor.CheckBufferTimeout | backend/app/handlers/audio_processor.py:24-32 | flushes and marks ready iff not ready and more than 3000 ms have passed since the connection started |
| AudioProcessing.AudioProcessor.DeliverOrBuffer | backend/app/handlers/audio_processor.py:34-41 | ready leads to the live sends, and a failure clears the active flag; not ready leads to enqueue plus warnings, with the flag kept |
| AudioProcessing.AudioProcessor.HandleBufferTimeout | backend/app/handlers/audio_processor.py:43-80 | sets ready, empties the model-audio buffer, and sends it as `FlushOutcome` says |
| AudioProcessing.AudioProcessor.SendAudioImmediately | backend/app/handlers/audio_processor.py:82-119 | the counter goes up by one; the three live frames are sent in order; an error is returned iff one did not go through |
| AudioProcessing.AudioProcessor.BufferAudio | backend/app/handlers/audio_processor.py:121-145 | the counter goes up by one; the chunk carries that sequence and is enqueued with eviction; the attempted warnings are exactly `BufferWarnings`, each guarded |
| AudioProcessing.AudioProcessor.HandleBufferPressure | backend/app/handlers/audio_processor.py:147-162 | a warning is attempted iff the level is medium or high; a failure is swallowed |
| AudioProcessing.AudioProcessor.HandleBufferOverflow | backend/app/handlers/audio_processor.py:164-175 | one truncation warning is attempted; a failure is swallowed |
| AudioProcessing.SendFlushedChunks | backend/app/handlers/audio_processor.py:58-78 | the flush loop's log and attempts are exactly `FlushOutcome`: a failed chunk is skipped and the loop goes on |
| Transcription.IdSource.Fresh | backend/app/handlers/transcription_processor.py:40 | hands out an id never handed out before |
| Transcription.FeedAllAccumulates | backend/app/handlers/transcription_processor.py:36-44 | the final text is the old text followed by all fragments in order; an open id never changes; a closed side opens with the fresh id |
| Transcription.FeedAllExample | backend/app/handlers/transcription_processor.py:36-44 | "Hel", "", "lo world" accumulate to "Hello world" under one id |
| Transcription.StepKeepsWellformed | backend/app/handlers/transcription_processor.py:17-26 | an open side always holds text, and ids are issued and never shared between the sides |
| Transcription.QuietContentChangesNothing | backend/app/handlers/transcription_processor.py:28-34 | no fragment and no completion event means no change and no send |
| Transcription.UserFragmentExtendsOpenUtterance | backend/app/handlers/transcription_processor.py:36-59 | a fragment keeps the open id, appends to the text, and first sends that text as a non-final user update |
| Transcription.FinalModelUpdateOnlyOnGenerationComplete | backend/app/handlers/transcription_processor.py:103-150 | a final model update is sent only when generation completes, never on turn complete |
| Transcription.CompletionResets | backend/app/handlers/transcription_processor.py:91-150 | turn complete closes both sides; generation complete alone closes only the model side |
| Transcription.FullContentOrder | backend/app/handlers/transcription_processor.py:17-26 | order: user interim, model interim, model final, user final; each final repeats its interim text |
| Transcription.UserStep | backend/app/handlers/transcription_processor.py:28-59 | the model side is untouched; no text means no change and no send; a fragment keeps the open id (or takes the next one), appends to the text, and is echoed as one non-final update carrying the whole text so far |
| Transcription.ModelStep | backend/app/handlers/transcription_processor.py:61-89 | the same for the model side, with sender "model" and kind model_response_update; the user side is untouched |
| Transcription.GenerationCompleteStep | backend/app/handlers/transcription_processor.py:103-124 | closes the model side only; for a coherent side, one final update is sent iff an utterance is open, carrying its whole text |
| Transcription.TurnCompleteStep | backend/app/handlers/transcription_processor.py:126-150 | closes both sides; for a coherent side, one final user update is sent iff a user utterance is open, carrying its whole text |
| Transcription.CompletionStep | backend/app/handlers/transcription_processor.py:91-101 | at most two sends and no new id; turn complete closes both sides, generation complete alone only the model side, and neither changes nothing |
| Transcription.Step | backend/app/handlers/transcription_processor.py:17-26 | at most four sends and at most two new ids; after turn complete both sides are closed |
| Transcription.TranscriptionProcessor.ProcessTranscriptions | backend/app/handlers/transcription_processor.py:17-26 | the new state is `Step`; the sends are `Step`'s frames, each guarded; the active flag is cleared iff one failed |
| Transcription.TranscriptionProcessor.ProcessUserTranscription | backend/app/handlers/transcription_processor.py:28-59 | the state and interim update of `UserStep`; a failed send clears the flag and the accumulation still happens |
| Transcription.TranscriptionProcessor.ProcessModelTranscription | backend/app/handlers/transcription_processor.py:61-89 | the same as the user side, with sender "model" and kind model_response_update (`ModelStep`) |
| Transcription.TranscriptionProcessor.HandleCompletionEvents | backend/app/handlers/transcription_processor.py:91-101 | generation complete, then turn complete, as `CompletionStep` |
| Transcription.TranscriptionProcessor.HandleModelGenerationComplete | backend/app/handlers/transcription_processor.py:103-124 | a final model update iff the id is set and the text is non-empty; the model side always resets |
| Transcription.TranscriptionProcessor.HandleTurnComplete | backend/app/handlers/transcription_processor.py:126-150 | a final user update iff the id is set and the text is non-empty; both sides reset |
| ToolCalls.ErrorBody | backend/app/handlers/tool_call_processor.py:98-101 | exactly the keys status = "error" and message |
| ToolCalls.ExecuteFunctionCall | backend/app/handlers/tool_call_processor.py:74-116 | id and name are copied from the call; an unknown name gives "Function <name> not implemented or available."; a string result is wrapped as {content}; a dict passes through; an exception becomes an error body |
| ToolCalls.ErrorExactlyOnFailure | backend/app/handlers/tool_call_processor.py:79-107 | unless the tool returned a dict, the body reports an error iff the name is unknown or the tool raised; a string result can be read back |
| ToolCalls.TakeANapOnlyInConnectionTable | backend/app/handlers/tool_call_processor.py:76-107 | `take_a_nap` is unknown to the registry's map but callable through the connection's table |
| ToolCalls.BackgroundAttempts | backend/app/handlers/tool_call_processor.py:44-72 | the response is sent first; a second, error response is attempted iff the first send raised |
| ToolCalls.BackgroundDeliversAtMostOne | backend/app/handlers/tool_call_processor.py:44-72 | whatever fails, at most one response per call gets through, and it answers that call |
| ToolCalls.TasksFor | backend/app/handlers/tool_call_processor.py:25-34 | one task per call |
| ToolCalls.ToolCallProcessor.constructor | backend/app/handlers/tool_call_processor.py:15-17 | keeps the function table and starts with no tasks |
| ToolCalls.ToolCallProcessor.ProcessToolCall | backend/app/handlers/tool_call_processor.py:19-42 | appends exactly one task per call, in call order, to the earlier tasks, without running any |
| ToolCalls.ToolCallProcessor.ExecuteAndRespondIndividual | backend/app/handlers/tool_call_processor.py:44-72 | the sends are `BackgroundAttempts`, each guarded |
| WebSocketHandling.SessionState.constructor | backend/app/handlers/websocket_handler.py:99-113 | not ready; counter 0; active; no handle; both utterances closed; two distinct, empty buffers of capacity 5000 |
| WebSocketHandling.AvailableFunctions | backend/app/handlers/websocket_handler.py:31-44 | every name maps to the implementation of that name, and every implementation is in the table |
| WebSocketHandling.AvailableExtendsRegistry | backend/app/handlers/websocket_handler.py:32-44 | the connection's table is the registry's map plus `take_a_nap`, which the registry lacks |
| WebSocketHandling.AvailableFunctionsSize | backend/app/handlers/websocket_handler.py:32-44 | the table has 11 entries |
| WebSocketHandling.CleanupTasks | backend/app/handlers/websocket_handler.py:128-130 | processing stops; nothing else in the record changes |
| ResponseHandling.AudioEvent | backend/app/handlers/gemini_response_handler.py:102-108 | the state becomes speaking; the start time is stamped only if not already speaking; the last-audio time is always now |
| ResponseHandling.SpeechStartIsFirstAudio | backend/app/handlers/gemini_response_handler.py:102-108 | over a run of audio events, the start time is the first event's time and the last-audio time is the last event's |
| ResponseHandling.AudioEventsWhileSpeaking | backend/app/handlers/gemini_response_handler.py:102-108 | while speaking, audio events never move the start time |
| ResponseHandling.AfterDelivery | backend/app/handlers/gemini_response_handler.py:256-259 | sending nothing changes nothing; otherwise speaking stops and pending becomes max(0, pending − sent) |
| ResponseHandling.HandleAfterUpdates | backend/app/handlers/gemini_response_handler.py:143-153 | a non-empty session_handle wins; else a resumable update with a non-empty handle wins; otherwise, and only otherwise, the handle is kept |
| ResponseHandling.SessionUpdatesIdempotent | backend/app/handlers/gemini_response_handler.py:143-153 | applying one event's updates twice is the same as applying them once |
| ResponseHandling.NonResumableKeepsHandle | backend/app/handlers/gemini_response_handler.py:143-153 | with no resumable update and no session_handle, the handle is kept |
| ResponseHandling.JoinPartTextsIsJoin | backend/app/handlers/gemini_response_handler.py:206-210 | the fold equals the non-empty part texts joined by single spaces, or None when there are none |
| ResponseHandling.ExtractUnhandledText | backend/app/handlers/gemini_response_handler.py:200-214 | the content's text if set; else, when a model turn is present, the space-join of its non-empty part texts (nothing if there are none), so a model turn hides the output text; else the output text if set; a result is never empty |
| ResponseHandling.ExtractUnhandledTextExample | backend/app/handlers/gemini_response_handler.py:200-214 | empty and missing part texts are skipped: "Hi" and "there" give "Hi there" |
| ResponseHandling.DedupKey | backend/app/handlers/gemini_response_handler.py:229 | the key is one character longer than the name and the uuid text together |
| ResponseHandling.DedupKeyParts | backend/app/handlers/gemini_response_handler.py:229 | the key is the name, a dash, then the uuid text |
| ResponseHandling.DedupKeyInjective | backend/app/handlers/gemini_response_handler.py:229 | for dash-free names, equal keys mean equal names and equal uuid texts |
| ResponseHandling.DedupKeyCollision | backend/app/handlers/gemini_response_handler.py:229-231 | names with a dash can give two different responses the same key |
| ResponseHandling.DrainFrom | backend/app/handlers/gemini_response_handler.py:216-254 | count = number sent; attempts = count plus one on failure; a clean drain empties the queue; a failed one stops at the first failing attempt; the key set only grows |
| ResponseHandling.DrainWithoutFaults | backend/app/handlers/gemini_response_handler.py:222-254 | with no failing send, the queue is drained to empty without error |
| ResponseHandling.DrainSendsEachKeyOnce | backend/app/handlers/gemini_response_handler.py:229-243 | at most once per key: the sent tool responses have distinct keys, none sent before, all recorded after |
| ResponseHandling.SystemMessagesAlwaysSent | backend/app/handlers/gemini_response_handler.py:244-250 | system messages are never de-duplicated: with no failure, every one is sent as client content |
| ResponseHandling.SameNameWithoutUuidSentOnce | backend/app/handlers/gemini_response_handler.py:229-243 | two responses with the same name and no uuid lead to exactly one send |
| ResponseHandling.ToolResultsQueue.Get | backend/app/handlers/gemini_response_handler.py:223 | dequeues from the front |
| ResponseHandling.SpeechGapOpen | backend/app/handlers/gemini_response_handler.py:262-278 | the gate opens only while speaking with a non-empty queue; it stays shut without a last-audio time, and for the first 1500 ms after it |
| ResponseHandling.KeyOf | backend/app/handlers/gemini_response_handler.py:226-231 | only a tool message with exactly one function response carries a key, longer than that response's name; client content never has one, so it is never de-duplicated |
| ResponseHandling.SpeechGapBoundary | backend/app/handlers/gemini_response_handler.py:262-278 | the gate is strict: 1500 ms is closed and 1501 ms is open; an empty queue never delivers |
| ResponseHandling.NoGapRightAfterAudio | backend/app/handlers/gemini_response_handler.py:262-278 | right after an audio event the gate is closed |
| ResponseHandling.ErrorFrame | backend/app/handlers/gemini_response_handler.py:280-289 | the forwarded text starts with "[ERROR_FROM_GEMINI]: " |
| ResponseHandling.RouteOf | backend/app/handlers/gemini_response_handler.py:97-135 | exactly one route, in priority order: audio, then server content, then tool call, then error |
| ResponseHandling.GeminiResponseHandler.constructor | backend/app/handlers/gemini_response_handler.py:25-47 | not speaking, nothing pending, tool flag off, no keys recorded, fresh processors sharing the record |
| ResponseHandling.GeminiResponseHandler.SetIsToolResponse | backend/app/handlers/gemini_response_handler.py:49-51 | sets the flag and nothing else |
| ResponseHandling.GeminiResponseHandler.HandleSessionUpdates | backend/app/handlers/gemini_response_handler.py:143-153 | the handle becomes `HandleAfterUpdates`; the rest of the record is unchanged |
| ResponseHandling.GeminiResponseHandler.HandleInterruption | backend/app/handlers/gemini_response_handler.py:167-178 | sends interrupt_playback iff the tool flag is off; a failure clears the active flag |
| ResponseHandling.GeminiResponseHandler.HandleError | backend/app/handlers/gemini_response_handler.py:280-292 | one guarded error frame; a failure clears the active flag |
| ResponseHandling.GeminiResponseHandler.DeliverQueuedToolResponses | backend/app/handlers/gemini_response_handler.py:216-259 | log, attempts, queue, keys, tool flag and error are exactly `DrainFrom`; the speech state is `AfterDelivery` when no send raised |
| ResponseHandling.GeminiResponseHandler.DeliverNext | backend/app/handlers/gemini_response_handler.py:223-254 | one turn of the drain: drop a seen key, or send and record the key, as `DrainFrom` unfolds |
| ResponseHandling.GeminiResponseHandler.CheckSpeechCompletion | backend/app/handlers/gemini_response_handler.py:262-278 | drains exactly when `SpeechGapOpen` holds; otherwise nothing changes |
| ResponseHandling.PostProcess | backend/app/handlers/gemini_response_handler.py:66-74 | an error is the exception of the session's last attempt; without one, nothing failed, and a turn boundary leaves the queue empty; with no turn boundary and a closed gap, nothing changes; the log and keys only grow |
| ResponseHandling.PostProcessWithoutFaults | backend/app/handlers/gemini_response_handler.py:66-74 | with no failing send, a turn boundary delivers the whole queue and raises nothing |
| ResponseHandling.GeminiResponseHandler.AfterResponse | backend/app/handlers/gemini_response_handler.py:66-74 | session log and attempts, queue, keys, tool flag, speech state and error are exactly `PostProcess`: clear the flag and drain on turn complete, stop if that raised, then the speech-gap check |
| ResponseHandling.GeminiResponseHandler.HandleAudio | backend/app/handlers/gemini_response_handler.py:98-109 | the speech state becomes `AudioEvent`, then the effect is `AudioResponseEffect`; readiness is never lost |
| ResponseHandling.GeminiResponseHandler.HandleServerContent | backend/app/handlers/gemini_response_handler.py:155-165 | the transcript state becomes `Step`; interrupt_playback is the first frame when it goes through |
| ResponseHandling.GeminiResponseHandler.ProcessResponse | backend/app/handlers/gemini_response_handler.py:89-141 | the handle is updated; then exactly one route runs: speech plus counter on audio, transcript `Step` on content, one task per call on a tool call, an error frame on error |
| ResponseHandling.GeminiResponseHandler.HandleArrival | backend/app/handlers/gemini_response_handler.py:64-74 | `_process_response` then the post-processing. The handle is `HandleAfterUpdates`; content gives the transcript `Step`; a tool call gives one task per call. The upstream side is `PostProcess` of the speech state the event left. An error is the session's last failed attempt |
| ResponseHandling.GeminiResponseHandler.HandleGeminiResponses | backend/app/handlers/gemini_response_handler.py:53-87 | events are handled in order while processing stays active: every handled event but the last left it active. The loop stops early only on an inactive start, a raising drain, or a cleared flag. A returned error is the exception of the session's last attempt. Processing ends stopped; an inactive start handles nothing and sends nothing |
| ClientInput.PromptForRewritesOnlyTestRequest | backend/app/handlers/client_input_handler.py:108-112 | only the test request is rewritten; the result is never the test request; the rewrite is idempotent |
| ClientInput.UserTurn | backend/app/handlers/client_input_handler.py:114-118 | one user turn with one part, the rewritten text |
| ClientInput.AudioMimeTypeText | backend/app/handlers/client_input_handler.py:127-131 | the MIME type is "audio/pcm;rate=16000" |
| ClientInput.ForwardOf | backend/app/handlers/client_input_handler.py:33-47 | an event is forwarded iff it is text other than the ready signal, or non-empty binary audio |
| ClientInput.Forwarded | backend/app/handlers/client_input_handler.py:33-47 | at most one message per event, and exactly one per event when every event is forwardable |
| ClientInput.InputFrom | backend/app/handlers/client_input_handler.py:26-61 | the loop consumes no more than it receives, and makes at most one failing send |
| ClientInput.InputWithoutFaults | backend/app/handlers/client_input_handler.py:26-61 | with no stop and no failure, every event is consumed, exactly `Forwarded` is sent, and ready is seen iff a ready signal came |
| ClientInput.InputStopsAtFirstStop | backend/app/handlers/client_input_handler.py:54-61 | a close or receive error ends the loop right there, after forwarding what came before |
| ClientInput.ForwardedMessagesWellFormed | backend/app/handlers/client_input_handler.py:65-132 | the ready and test texts never reach the model; prompts are one user turn; audio is non-empty 16 kHz PCM |
| ClientInput.ClientInputHandler.constructor | backend/app/handlers/client_input_handler.py:20-22 | keeps the session and the record |
| ClientInput.ClientInputHandler.HandleClientInput | backend/app/handlers/client_input_handler.py:24-63 | the upstream log and attempts are `InputFrom`; the ready flag and the microphone flush follow the ready signals; processing ends stopped |
| ClientInput.ClientInputHandler.HandleEvent | backend/app/handlers/client_input_handler.py:28-61 | one event: stop iff close, receive error, or a raising forward; otherwise polling goes on |
| ClientInput.ClientInputHandler.HandleTextMessage | backend/app/handlers/client_input_handler.py:65-70 | exactly "CLIENT_AUDIO_READY" marks ready and flushes the microphone buffer; other text is sent as a prompt |
| ClientInput.ClientInputHandler.HandleClientReadySignal | backend/app/handlers/client_input_handler.py:72-106 | ready is set; the microphone buffer is emptied and flushed as `FlushOutcome`; the model-audio buffer is untouched |
| ClientInput.ClientInputHandler.HandleTextPrompt | backend/app/handlers/client_input_handler.py:108-118 | one attempt sending `UserTurn(text)`; a raised send is returned |
| ClientInput.ClientInputHandler.HandleAudioData | backend/app/handlers/client_input_handler.py:120-132 | empty audio is dropped with no attempt; other audio is forwarded unchanged with the 16 kHz MIME type and no buffer is touched |

## Left out

- Concurrency. The two receive loops, `asyncio.gather`, task creation and cancellation, `audio_processing_lock`, `wait_for` with 0.2 s, and the 0.1 s idle sleep are left out. Each loop is modelled on its own as sequential steps over a list of received events, and the lock only serialises. Running out of events stands for the asyncio task being cancelled or the stream ending.
- The client loop's check of the active flag after a receive timeout is not reachable in the sequential model. Only another task could clear the flag between two iterations, so in the model a timeout always keeps polling.
- Real I/O. Sockets and the live session become `Channel` logs with a fault plan, and `receive` becomes the event list. An exception from `session.receive()` other than a close is not modelled separately from the end of the event list.
- Float time. `time.time()` and the loop time are one integer millisecond clock. `round(..., 2)` on durations is not modelled: the model keeps the exact rational duration. The correlation id, built from the loop time and `id()`, is a parameter.
- `uuid.uuid4()` becomes a counter (`IdSource`) that hands out fresh numeric ids.
- Raw-bytes fallback. The flush loops' branch for buffer items other than "buffered_audio" is not modelled. `add_audio_chunk` is the only producer of buffer items, so no other kind exists.
- Caller metadata. Of the keys a caller may pass to `add_audio_chunk`, only `sequence` and `timestamp` are modelled. They are the only keys its one caller passes.
- Config.EnvFlag: case folding covers ASCII letters only. No other character lower-cases to a letter of "true", so the result is the same.
- Uuid text. `str()` of a list or dict uuid value is a fixed marker (`JsonText`), not Python's repr.
- `_handle_error` with an error whose `message` attribute exists but is None is not modelled. The source would forward the text "None". In the model a missing message means the error's string form is used.
- `_handle_unhandled_content` only prints. Only its text extraction (`ExtractUnhandledText`) is modelled.
- ResponseHandling.ExtractUnhandledText: a model turn whose `parts` attribute exists but is None is not modelled (`modelTurn` is an optional list of parts). The loop at gemini_response_handler.py:208 would raise TypeError on it; `_process_response` (:137-141) would catch that and clear `active_processing`.
- `task_done` accounting of `asyncio.Queue` is not modelled, and in the source it has a consequence. The skip path of `_deliver_queued_tool_responses` calls `task_done` and then `continue`s inside the `try`, so the `finally` calls it a second time. When nothing is put during the drain, `task_done` then runs once more than items were put. `asyncio.Queue` raises ValueError at that call, inside the same drain. The error escapes the try/finally and ends `handle_gemini_responses`. In the model a skipped item is simply dequeued and not sent. `DrainWithoutFaults` ("no error") and `SameNameWithoutUuidSentOnce` hold only because this bookkeeping is left out.
- `pending_tool_responses` and `current_turn_id` are never set anywhere else in the core. They are modelled as fields that only `AfterDelivery` touches.
- Diagnostics: all `print` output, the client audio log counter, and `_get_connection_time`, which only reads the clock for logging.
- Broken wiring. The response handler constructs `ToolCallProcessor` with three arguments, but its constructor takes two. `_execute_function_call` awaits synchronous tools called with the wrong arguments. Each component is modelled by its own code: the processor holds the function table, and the session is passed to each send. A tool's outcome (string, dict or exception) is a parameter.
- Not part of this model: the tool implementations and their mock data, the declarations and the registry (only its ten-entry map is modelled), the Gemini client construction, the logging utilities, the HTTP routes, the app bootstrap and `main`.
- Dedup keys. A dash in a tool name can make two different responses share a key (`DedupKeyCollision`). At-most-once delivery is therefore proved per key, not per response.
- ResponseHandling.GeminiResponseHandler.HandleGeminiResponses: its contract states which events are handled and why the loop stops, that a returned error is the session's last failed attempt, and the facts that only grow (readiness, sequence counter, recorded keys, upstream log). The effect of each event is stated per event by `HandleArrival`, not folded into one specification of the whole run.
- ResponseHandling.GeminiResponseHandler.HandleArrival: as for `ProcessResponse`, the client frames of the audio and content routes are stated by `HandleAudio` and `HandleServerContent`, not repeated here.
- ToolCalls.ExecuteFunctionCall: a tool outcome is a string, a dict or a raised exception. The source also passes any other result through. Such a result makes building the `FunctionResponse` raise outside the inner `try`, and then only the "Background execution failed: ..." error response is attempted. Every tool implementation returns a dict, so nothing reachable is lost.
- ResponseHandling.GeminiResponseHandler.ProcessResponse: the client frames of the audio and content routes are stated by `HandleAudio` and `HandleServerContent`, not repeated in this contract.
- ResponseHandling.GeminiResponseHandler.HandleServerContent: when the content is an interruption, the contract states the interrupt frame and the transcript state, but not the full frame log.
