/**
 * What the client sends, forwarded to the live session
 * (backend/app/handlers/client_input_handler.py): the ready signal that
 * flushes the microphone buffer to the client, text prompts, microphone
 * audio, and the receive loop with its termination rules.
 */
module ClientInput {
  import opened Base
  import opened Protocol
  import opened Channels
  import opened AudioUtils
  import opened WebSocketHandling
  import opened AudioProcessing
  import Config

  /** The only text that is a ready signal rather than a prompt. */
  const READY_SIGNAL := "CLIENT_AUDIO_READY"
  /** The text that asks for a canned test prompt. */
  const TEST_AUDIO_REQUEST := "SEND_TEST_AUDIO_PLEASE"
  const TEST_PROMPT := "Hello Gemini, please say 'testing one two three'."

  /** `_handle_text_prompt`'s rewrite: the test request becomes the canned prompt, any other text is kept. */
  function PromptFor(text: string): string {
    if text == TEST_AUDIO_REQUEST then TEST_PROMPT else text
  }

  /** The rewrite leaves every text but the test request alone, and applying it twice changes nothing more. */
  lemma PromptForRewritesOnlyTestRequest(text: string)
    ensures text == TEST_AUDIO_REQUEST <==> PromptFor(text) != text
    ensures PromptFor(text) != TEST_AUDIO_REQUEST
    ensures PromptFor(PromptFor(text)) == PromptFor(text)
  {
    assert |TEST_PROMPT| != |TEST_AUDIO_REQUEST|;
  }

  /** The user turn a text prompt is sent as: one turn, role "user", one text part. */
  function UserTurn(text: string): (m: UpstreamMsg)
    ensures m.ClientContent? && |m.turns| == 1
    ensures m.turns[0].role == "user" && m.turns[0].parts == [PromptFor(text)]
  {
    ClientContent([Content("user", [PromptFor(text)])])
  }

  /** `f"audio/pcm;rate={settings.INPUT_SAMPLE_RATE}"`. */
  function AudioMimeType(): string {
    "audio/pcm;rate=" + NatText(Config.INPUT_SAMPLE_RATE)
  }

  /** Microphone audio is labelled as 16 kHz PCM. */
  lemma AudioMimeTypeText()
    ensures AudioMimeType() == "audio/pcm;rate=16000"
  {
    assert NatText(16000) == "16000" by {
      assert NatText(1) == "1";
      assert NatText(16) == "16";
      assert NatText(160) == "160";
      assert NatText(1600) == "1600";
    }
  }

  /** What one `receive` produced: a text frame, a binary frame, some other value, or how it failed. */
  datatype ClientEvent =
    | TextFrame(text: string)
    | BinaryFrame(data: bytes)
    | OtherFrame
    | ReceiveTimeout
    | ClosedOk
    | ReceiveFailed(message: string)

  /** The events that end the loop whatever else holds: a clean close or any other receive error. */
  predicate Stops(e: ClientEvent) {
    e.ClosedOk? || e.ReceiveFailed?
  }

  /** The upstream message an event is forwarded as: a prompt, or non-empty audio. */
  function ForwardOf(e: ClientEvent): (m: Option<UpstreamMsg>)
    ensures m.Some? <==> (e.TextFrame? && e.text != READY_SIGNAL) || (e.BinaryFrame? && e.data != [])
  {
    match e
    case TextFrame(t) => if t == READY_SIGNAL then None else Some(UserTurn(t))
    case BinaryFrame(d) => if d == [] then None else Some(RealtimeAudio(AudioMimeType(), d))
    case _ => None
  }

  /**
   * What the receive loop did with a run of events: the upstream messages
   * that went through, the send attempts, how many events it consumed
   * before it stopped, and whether a ready signal was among them.
   */
  datatype InputRun = InputRun(sent: seq<UpstreamMsg>, attempts: nat, consumed: nat, readySeen: bool)

  /** `sent` went through, `consumed` events were handled and `ready` raised, then the loop went on as `r`. */
  function After(sent: seq<UpstreamMsg>, consumed: nat, ready: bool, r: InputRun): InputRun {
    InputRun(sent + r.sent, |sent| + r.attempts, consumed + r.consumed, ready || r.readySeen)
  }

  /**
   * The receive loop over `events` from upstream attempt `k`, while the
   * connection is active: a stop event ends it, as does a forwarding send
   * that raises; everything else is handled and the loop goes on.
   */
  function InputFrom(events: seq<ClientEvent>, k: nat, failures: map<nat, string>): (r: InputRun)
    ensures r.consumed <= |events|
    ensures |r.sent| <= r.attempts <= |r.sent| + 1
    decreases |events|
  {
    if events == [] then InputRun([], 0, 0, false)
    else if Stops(events[0]) then InputRun([], 0, 1, false)
    else
      match ForwardOf(events[0])
      case None => After([], 1, events[0] == TextFrame(READY_SIGNAL), InputFrom(events[1..], k, failures))
      case Some(m) =>
        if k in failures then InputRun([], 1, 1, false)
        else After([m], 1, false, InputFrom(events[1..], k + 1, failures))
  }

  /** Every message an event run asks to forward, in order (a reference for the fault-free loop). */
  function Forwarded(events: seq<ClientEvent>): (ms: seq<UpstreamMsg>)
    ensures |ms| <= |events|
    ensures (forall i :: 0 <= i < |events| ==> ForwardOf(events[i]).Some?) ==> |ms| == |events|
    decreases |events|
  {
    if events == [] then []
    else (match ForwardOf(events[0]) case None => [] case Some(m) => [m]) + Forwarded(events[1..])
  }

  /**
   * With no send failing and no stop event, the loop consumes every event,
   * forwards exactly what the events ask for, and sees a ready signal
   * exactly when one was sent.
   */
  lemma {:induction false} InputWithoutFaults(events: seq<ClientEvent>, k: nat, failures: map<nat, string>)
    requires NoFault(k, |events|, failures)
    requires forall i :: 0 <= i < |events| ==> !Stops(events[i])
    ensures InputFrom(events, k, failures).consumed == |events|
    ensures InputFrom(events, k, failures).sent == Forwarded(events)
    ensures InputFrom(events, k, failures).readySeen <==> TextFrame(READY_SIGNAL) in events
    decreases |events|
  {
    if events != [] {
      assert events == [events[0]] + events[1..];
      match ForwardOf(events[0])
      case None =>
        InputWithoutFaults(events[1..], k, failures);
      case Some(m) =>
        InputWithoutFaults(events[1..], k + 1, failures);
    }
  }

  /** With no send failing, the loop stops right at the first stop event, having forwarded what came before it. */
  lemma {:induction false} InputStopsAtFirstStop(events: seq<ClientEvent>, i: nat, k: nat, failures: map<nat, string>)
    requires i < |events| && Stops(events[i])
    requires forall j :: 0 <= j < i ==> !Stops(events[j])
    requires NoFault(k, i, failures)
    ensures InputFrom(events, k, failures).consumed == i + 1
    ensures InputFrom(events, k, failures).sent == Forwarded(events[..i])
    decreases i
  {
    if i > 0 {
      assert events[1..][..i - 1] == events[..i][1..];
      match ForwardOf(events[0])
      case None =>
        InputStopsAtFirstStop(events[1..], i - 1, k, failures);
      case Some(m) =>
        InputStopsAtFirstStop(events[1..], i - 1, k + 1, failures);
    }
  }

  /**
   * Whatever fails, the ready signal and the test request never reach the
   * model as text, every prompt is one user turn, and every audio message
   * is non-empty 16 kHz PCM.
   */
  lemma {:induction false} ForwardedMessagesWellFormed(events: seq<ClientEvent>, k: nat, failures: map<nat, string>)
    ensures forall m :: m in InputFrom(events, k, failures).sent ==>
              || (&& m.ClientContent? && |m.turns| == 1 && m.turns[0].role == "user" && |m.turns[0].parts| == 1
                  && m.turns[0].parts[0] != READY_SIGNAL && m.turns[0].parts[0] != TEST_AUDIO_REQUEST)
              || (m.RealtimeAudio? && m.data != [] && m.mimeType == "audio/pcm;rate=16000")
    decreases |events|
  {
    if events != [] && !Stops(events[0]) {
      AudioMimeTypeText();
      if events[0].TextFrame? && events[0].text != READY_SIGNAL {
        PromptForRewritesOnlyTestRequest(events[0].text);
        if events[0].text == TEST_AUDIO_REQUEST {
          assert |TEST_PROMPT| != |READY_SIGNAL|;
        }
      }
      ForwardedMessagesWellFormed(events[1..], k, failures);
      ForwardedMessagesWellFormed(events[1..], k + 1, failures);
    }
  }

  /** What a ready signal touches: the ready flag, the microphone buffer and the client channel. */
  datatype MicView = MicView(ready: bool, mic: seq<BufferedChunk>, wsLog: seq<ClientFrame>, wsAttempts: nat)

  /**
   * The state `v` left behind from `v0` once `readySeen` says whether a
   * ready signal came: it marked the client ready, emptied the microphone
   * buffer and flushed it (in order, failed chunks skipped) to the client;
   * a later ready signal finds the buffer empty and sends nothing more.
   */
  ghost predicate MicEffect(v0: MicView, v: MicView, readySeen: bool, wsFailures: map<nat, string>) {
    var flush := if readySeen then FlushOutcome(v0.mic, v0.wsAttempts, wsFailures) else SendOutcome([], 0);
    && v.ready == (v0.ready || readySeen)
    && v.mic == (if readySeen then [] else v0.mic)
    && v.wsLog == v0.wsLog + flush.frames
    && v.wsAttempts == v0.wsAttempts + flush.attempts
  }

  /** What handling event `e` does to the microphone side: only a ready signal changes it. */
  ghost predicate MicEventEffect(v: MicView, v': MicView, e: ClientEvent, wsFailures: map<nat, string>) {
    if e == TextFrame(READY_SIGNAL) then MicEffect(v, v', true, wsFailures) else v' == v
  }

  lemma MicStep(v0: MicView, v: MicView, v': MicView, ready: bool, e: ClientEvent, wsFailures: map<nat, string>)
    requires MicEffect(v0, v, ready, wsFailures)
    requires MicEventEffect(v, v', e, wsFailures)
    ensures MicEffect(v0, v', ready || e == TextFrame(READY_SIGNAL), wsFailures)
  {
    if e == TextFrame(READY_SIGNAL) {
      if ready {
        assert v'.wsLog == v.wsLog + [];
      } else {
        assert v0.wsLog + [] == v0.wsLog;
      }
    }
  }

  /** The upstream messages sent so far after one more event whose send went through. */
  function SentAfter(sent: seq<UpstreamMsg>, e: ClientEvent): seq<UpstreamMsg> {
    match ForwardOf(e)
    case None => sent
    case Some(m) => sent + [m]
  }

  /** Whether handling `e` makes an upstream send. */
  predicate Attempted(e: ClientEvent) {
    !Stops(e) && ForwardOf(e).Some?
  }

  /** The loop leaves at a stop event or at a send that raised: the run ends with what was done so far. */
  lemma RunStepLast(events: seq<ClientEvent>, remaining: seq<ClientEvent>, k0: nat, k: nat,
                    sent: seq<UpstreamMsg>, consumed: nat, ready: bool, failures: map<nat, string>)
    requires remaining != [] && (Stops(remaining[0]) || (Attempted(remaining[0]) && k in failures))
    requires InputFrom(events, k0, failures) == After(sent, consumed, ready, InputFrom(remaining, k, failures))
    ensures InputFrom(events, k0, failures)
            == InputRun(sent, |sent| + (if Attempted(remaining[0]) then 1 else 0), consumed + 1, ready)
  {
    assert sent + [] == sent;
  }

  /** An event whose message went through upstream: the loop goes on with the rest. */
  lemma RunStepSent(events: seq<ClientEvent>, remaining: seq<ClientEvent>, k0: nat, k: nat,
                    sent: seq<UpstreamMsg>, consumed: nat, ready: bool, failures: map<nat, string>)
    requires remaining != [] && Attempted(remaining[0]) && k !in failures
    requires InputFrom(events, k0, failures) == After(sent, consumed, ready, InputFrom(remaining, k, failures))
    ensures InputFrom(events, k0, failures)
            == After(sent + [ForwardOf(remaining[0]).value], consumed + 1, ready, InputFrom(remaining[1..], k + 1, failures))
  {
    var m := ForwardOf(remaining[0]).value;
    var rest := InputFrom(remaining[1..], k + 1, failures);
    assert InputFrom(remaining, k, failures) == After([m], 1, false, rest);
    assert sent + ([m] + rest.sent) == (sent + [m]) + rest.sent;
  }

  /** An event handled without an upstream send (skipped, or a ready signal): the loop goes on with the rest. */
  lemma RunStepQuiet(events: seq<ClientEvent>, remaining: seq<ClientEvent>, k0: nat, k: nat,
                     sent: seq<UpstreamMsg>, consumed: nat, ready: bool, failures: map<nat, string>)
    requires remaining != [] && !Stops(remaining[0]) && ForwardOf(remaining[0]).None?
    requires InputFrom(events, k0, failures) == After(sent, consumed, ready, InputFrom(remaining, k, failures))
    ensures InputFrom(events, k0, failures)
            == After(sent, consumed + 1, ready || remaining[0] == TextFrame(READY_SIGNAL), InputFrom(remaining[1..], k, failures))
  {
    var rest := InputFrom(remaining[1..], k, failures);
    assert InputFrom(remaining, k, failures) == After([], 1, remaining[0] == TextFrame(READY_SIGNAL), rest);
    assert sent + ([] + rest.sent) == sent + rest.sent;
  }

  /** What handling one event `e` did: `stop` says the loop leaves; the upstream side and the microphone side as stated. */
  ghost predicate EventEffect(log: seq<UpstreamMsg>, k: nat, mic: MicView,
                              log': seq<UpstreamMsg>, k': nat, mic': MicView,
                              e: ClientEvent, stop: bool, upFailures: map<nat, string>, wsFailures: map<nat, string>) {
    && stop == (Stops(e) || (Attempted(e) && k in upFailures))
    && k' == k + (if Attempted(e) then 1 else 0)
    && log' == (if stop then log else SentAfter(log, e))
    && MicEventEffect(mic, mic', e, wsFailures)
  }

  /** The receive loop's ghost bookkeeping: what is left, what went through, and the state it has reached. */
  datatype LoopView = LoopView(remaining: seq<ClientEvent>, sent: seq<UpstreamMsg>, consumed: nat, ready: bool,
                               log: seq<UpstreamMsg>, attempts: nat, mic: MicView)

  /** The loop over `events`, begun at `(log0, k0, mic0)`, is on track at `w`. */
  ghost predicate OnTrack(events: seq<ClientEvent>, log0: seq<UpstreamMsg>, k0: nat, mic0: MicView, w: LoopView,
                          upFailures: map<nat, string>, wsFailures: map<nat, string>) {
    && InputFrom(events, k0, upFailures) == After(w.sent, w.consumed, w.ready, InputFrom(w.remaining, w.attempts, upFailures))
    && w.log == log0 + w.sent
    && w.attempts == k0 + |w.sent|
    && MicEffect(mic0, w.mic, w.ready, wsFailures)
  }

  /** The loop has done all it does: the state is what the run of all events leaves behind. */
  ghost predicate InputDone(log0: seq<UpstreamMsg>, k0: nat, mic0: MicView, log: seq<UpstreamMsg>, k: nat, mic: MicView,
                            r: InputRun, wsFailures: map<nat, string>) {
    && log == log0 + r.sent
    && k == k0 + r.attempts
    && MicEffect(mic0, mic, r.readySeen, wsFailures)
  }

  /** The bookkeeping after one more event handled without leaving. */
  function Advance(w: LoopView, log: seq<UpstreamMsg>, k: nat, mic: MicView): LoopView
    requires w.remaining != []
  {
    var e := w.remaining[0];
    LoopView(w.remaining[1..], SentAfter(w.sent, e), w.consumed + 1, w.ready || e == TextFrame(READY_SIGNAL), log, k, mic)
  }

  lemma OnTrackStart(events: seq<ClientEvent>, log0: seq<UpstreamMsg>, k0: nat, mic0: MicView,
                     upFailures: map<nat, string>, wsFailures: map<nat, string>)
    ensures OnTrack(events, log0, k0, mic0, LoopView(events, [], 0, false, log0, k0, mic0), upFailures, wsFailures)
  {
    assert mic0.wsLog + [] == mic0.wsLog && log0 + [] == log0;
    assert InputFrom(events, k0, upFailures) == After([], 0, false, InputFrom(events, k0, upFailures));
  }

  /** An event whose message went through upstream keeps the loop on track. */
  lemma OnTrackSent(events: seq<ClientEvent>, log0: seq<UpstreamMsg>, k0: nat, mic0: MicView, w: LoopView,
                    log: seq<UpstreamMsg>, k: nat, mic: MicView, upFailures: map<nat, string>, wsFailures: map<nat, string>)
    requires OnTrack(events, log0, k0, mic0, w, upFailures, wsFailures) && w.remaining != []
    requires Attempted(w.remaining[0])
    requires EventEffect(w.log, w.attempts, w.mic, log, k, mic, w.remaining[0], false, upFailures, wsFailures)
    ensures OnTrack(events, log0, k0, mic0, Advance(w, log, k, mic), upFailures, wsFailures)
  {
    var e := w.remaining[0];
    var m := ForwardOf(e).value;
    var w' := Advance(w, log, k, mic);
    assert w' == LoopView(w.remaining[1..], w.sent + [m], w.consumed + 1, w.ready, log, k, mic);
    assert InputFrom(events, k0, upFailures) == After(w'.sent, w'.consumed, w'.ready, InputFrom(w'.remaining, w'.attempts, upFailures)) by {
      RunStepSent(events, w.remaining, k0, w.attempts, w.sent, w.consumed, w.ready, upFailures);
    }
    assert w'.log == log0 + w'.sent by {
      assert (log0 + w.sent) + [m] == log0 + (w.sent + [m]);
    }
    assert MicEffect(mic0, w'.mic, w'.ready, wsFailures) by {
      assert mic == w.mic;
    }
  }

  /** An event handled without an upstream send (skipped, or a ready signal) keeps the loop on track. */
  lemma OnTrackQuiet(events: seq<ClientEvent>, log0: seq<UpstreamMsg>, k0: nat, mic0: MicView, w: LoopView,
                     log: seq<UpstreamMsg>, k: nat, mic: MicView, upFailures: map<nat, string>, wsFailures: map<nat, string>)
    requires OnTrack(events, log0, k0, mic0, w, upFailures, wsFailures) && w.remaining != []
    requires !Attempted(w.remaining[0])
    requires EventEffect(w.log, w.attempts, w.mic, log, k, mic, w.remaining[0], false, upFailures, wsFailures)
    ensures OnTrack(events, log0, k0, mic0, Advance(w, log, k, mic), upFailures, wsFailures)
  {
    var e := w.remaining[0];
    assert log == w.log && k == w.attempts;
    MicStep(mic0, w.mic, mic, w.ready, e, wsFailures);
    RunStepQuiet(events, w.remaining, k0, w.attempts, w.sent, w.consumed, w.ready, upFailures);
  }

  /** The loop leaves at a stop event or a send that raised: it has done all it does. */
  lemma OnTrackLast(events: seq<ClientEvent>, log0: seq<UpstreamMsg>, k0: nat, mic0: MicView, w: LoopView,
                    log: seq<UpstreamMsg>, k: nat, mic: MicView, upFailures: map<nat, string>, wsFailures: map<nat, string>)
    requires OnTrack(events, log0, k0, mic0, w, upFailures, wsFailures) && w.remaining != []
    requires EventEffect(w.log, w.attempts, w.mic, log, k, mic, w.remaining[0], true, upFailures, wsFailures)
    ensures InputDone(log0, k0, mic0, log, k, mic, InputFrom(events, k0, upFailures), wsFailures)
  {
    MicStep(mic0, w.mic, mic, w.ready, w.remaining[0], wsFailures);
    RunStepLast(events, w.remaining, k0, w.attempts, w.sent, w.consumed, w.ready, upFailures);
  }

  /** The loop ran out of events: it has done all it does. */
  lemma OnTrackEnd(events: seq<ClientEvent>, log0: seq<UpstreamMsg>, k0: nat, mic0: MicView, w: LoopView,
                   upFailures: map<nat, string>, wsFailures: map<nat, string>)
    requires OnTrack(events, log0, k0, mic0, w, upFailures, wsFailures) && w.remaining == []
    ensures InputDone(log0, k0, mic0, w.log, w.attempts, w.mic, InputFrom(events, k0, upFailures), wsFailures)
  {
    assert w.sent + [] == w.sent;
  }

  class ClientInputHandler {
    /** The upstream live session. */
    const session: Channel<UpstreamMsg>
    const sessionState: SessionState

    constructor (session: Channel<UpstreamMsg>, sessionState: SessionState)
      ensures this.session == session && this.sessionState == sessionState
    {
      this.session := session;
      this.sessionState := sessionState;
    }

    ghost function Mic(ws: Channel<ClientFrame>): MicView
      reads sessionState, sessionState.micAudioBuffer, ws
    {
      MicView(sessionState.clientReadyForAudio, sessionState.micAudioBuffer.buffer, ws.log, ws.attempts)
    }

    /**
     * `handle_client_input` over the events `receive` produces, in order.
     * A timeout goes on polling; a clean close, any other receive error,
     * or a send that raises while forwarding clears `active_processing`
     * and leaves; and on the way out the flag is cleared in any case.
     * Running out of events stands for the loop's task being cancelled.
     */
    method HandleClientInput(events: seq<ClientEvent>, ws: Channel<ClientFrame>)
      requires sessionState.Valid()
      modifies sessionState, sessionState.micAudioBuffer, session, ws
      ensures sessionState.Valid()
      ensures !sessionState.activeProcessing
      ensures InputDone(old(session.log), old(session.attempts), old(Mic(ws)), session.log, session.attempts, Mic(ws),
                        if old(sessionState.activeProcessing) then InputFrom(events, old(session.attempts), session.failures)
                        else InputRun([], 0, 0, false),
                        ws.failures)
      ensures sessionState.audioSequenceCounter == old(sessionState.audioSequenceCounter)
      ensures sessionState.ConversationFields() == old(sessionState.ConversationFields())
    {
      ghost var log0, k0, mic0 := session.log, session.attempts, Mic(ws);
      ghost var w := LoopView(events, [], 0, false, log0, k0, mic0);
      OnTrackStart(events, log0, k0, mic0, session.failures, ws.failures);
      ghost var done := false;
      var remaining := events;
      while sessionState.activeProcessing && remaining != []
        invariant sessionState.Valid()
        invariant sessionState.activeProcessing == old(sessionState.activeProcessing)
        invariant w.remaining == remaining && w.log == session.log && w.attempts == session.attempts && w.mic == Mic(ws)
        invariant OnTrack(events, log0, k0, mic0, w, session.failures, ws.failures)
        invariant !sessionState.activeProcessing ==> w == LoopView(events, [], 0, false, log0, k0, mic0)
        invariant sessionState.audioSequenceCounter == old(sessionState.audioSequenceCounter)
        invariant sessionState.ConversationFields() == old(sessionState.ConversationFields())
        decreases |remaining|
      {
        var stop := HandleEvent(remaining[0], ws);
        if stop {
          OnTrackLast(events, log0, k0, mic0, w, session.log, session.attempts, Mic(ws), session.failures, ws.failures);
          done := true;
          break;
        }
        if Attempted(remaining[0]) {
          OnTrackSent(events, log0, k0, mic0, w, session.log, session.attempts, Mic(ws), session.failures, ws.failures);
        } else {
          OnTrackQuiet(events, log0, k0, mic0, w, session.log, session.attempts, Mic(ws), session.failures, ws.failures);
        }
        w := Advance(w, session.log, session.attempts, Mic(ws));
        remaining := remaining[1..];
      }
      if !done && old(sessionState.activeProcessing) {
        OnTrackEnd(events, log0, k0, mic0, w, session.failures, ws.failures);
      }
      ghost var micEnd := Mic(ws);
      sessionState.activeProcessing := false;
      assert Mic(ws) == micEnd;
    }

    /**
     * The body of the receive loop's `try` for one event, with its
     * handlers: a clean close, a receive error or a send that raises while
     * forwarding clears `active_processing`, and `stop` says the loop
     * leaves. The flag is still set at a receive timeout here, so polling
     * goes on.
     */
    method HandleEvent(event: ClientEvent, ws: Channel<ClientFrame>) returns (stop: bool)
      requires sessionState.Valid() && sessionState.activeProcessing
      modifies sessionState, sessionState.micAudioBuffer, session, ws
      ensures sessionState.Valid()
      ensures EventEffect(old(session.log), old(session.attempts), old(Mic(ws)), session.log, session.attempts, Mic(ws),
                          event, stop, session.failures, ws.failures)
      ensures sessionState.activeProcessing == !stop
      ensures sessionState.audioSequenceCounter == old(sessionState.audioSequenceCounter)
      ensures sessionState.ConversationFields() == old(sessionState.ConversationFields())
    {
      stop := false;
      match event {
        case TextFrame(t) =>
          var err := HandleTextMessage(t, ws);
          stop := err.Some?;
        case BinaryFrame(d) =>
          var err := HandleAudioData(d);
          stop := err.Some?;
        case OtherFrame =>
        case ReceiveTimeout =>
        case ClosedOk =>
          stop := true;
        case ReceiveFailed(_) =>
          stop := true;
      }
      if stop {
        sessionState.activeProcessing := false;
      }
    }

    /** `_handle_text_message`: the exact ready text is the ready signal, any other text a prompt. */
    method HandleTextMessage(text: string, ws: Channel<ClientFrame>) returns (err: Option<string>)
      requires sessionState.Valid()
      modifies sessionState, sessionState.micAudioBuffer, session, ws
      ensures sessionState.Valid()
      ensures text == READY_SIGNAL ==>
                && err.None? && session.log == old(session.log) && session.attempts == old(session.attempts)
                && sessionState.clientReadyForAudio && sessionState.micAudioBuffer.buffer == []
                && var r := FlushOutcome(old(sessionState.micAudioBuffer.buffer), old(ws.attempts), ws.failures);
                   ws.log == old(ws.log) + r.frames && ws.attempts == old(ws.attempts) + r.attempts
      ensures text != READY_SIGNAL ==>
                && session.attempts == old(session.attempts) + 1
                && err == Fault(session.failures, old(session.attempts))
                && session.log == old(session.log) + (if err.None? then [UserTurn(text)] else [])
                && sessionState.clientReadyForAudio == old(sessionState.clientReadyForAudio)
                && sessionState.micAudioBuffer.buffer == old(sessionState.micAudioBuffer.buffer)
                && ws.log == old(ws.log) && ws.attempts == old(ws.attempts)
      ensures sessionState.activeProcessing == old(sessionState.activeProcessing)
      ensures sessionState.audioSequenceCounter == old(sessionState.audioSequenceCounter)
      ensures sessionState.ConversationFields() == old(sessionState.ConversationFields())
    {
      if text == READY_SIGNAL {
        HandleClientReadySignal(ws);
        err := None;
      } else {
        err := HandleTextPrompt(text);
      }
    }

    /**
     * `_handle_client_ready_signal`: mark the client ready, empty the
     * microphone buffer and send its chunks to the client, each as metadata
     * flagged flushed then its bytes, a chunk whose send raises skipped.
     * The model-audio buffer is not touched.
     */
    method HandleClientReadySignal(ws: Channel<ClientFrame>)
      requires sessionState.Valid()
      modifies sessionState, sessionState.micAudioBuffer, ws
      ensures sessionState.Valid()
      ensures sessionState.clientReadyForAudio
      ensures sessionState.micAudioBuffer.buffer == []
      ensures sessionState.micAudioBuffer.sequenceCounter == old(sessionState.micAudioBuffer.sequenceCounter)
      ensures var r := FlushOutcome(old(sessionState.micAudioBuffer.buffer), old(ws.attempts), ws.failures);
              ws.log == old(ws.log) + r.frames && ws.attempts == old(ws.attempts) + r.attempts
      ensures sessionState.activeProcessing == old(sessionState.activeProcessing)
      ensures sessionState.audioSequenceCounter == old(sessionState.audioSequenceCounter)
      ensures sessionState.ConversationFields() == old(sessionState.ConversationFields())
    {
      sessionState.clientReadyForAudio := true;
      var bufferedChunks := sessionState.micAudioBuffer.FlushAll();
      SendFlushedChunks(bufferedChunks, ws);
    }

    /** `_handle_text_prompt`: send the (rewritten) prompt as one user turn; a raised send is returned. */
    method HandleTextPrompt(text: string) returns (err: Option<string>)
      modifies session
      ensures session.attempts == old(session.attempts) + 1
      ensures err == Fault(session.failures, old(session.attempts))
      ensures session.log == old(session.log) + (if err.None? then [UserTurn(text)] else [])
    {
      var promptForGemini := text;
      if text == TEST_AUDIO_REQUEST {
        promptForGemini := TEST_PROMPT;
      }
      var userContent := Content("user", [promptForGemini]);
      err := session.Send(ClientContent([userContent]));
    }

    /**
     * `_handle_audio_data`: an empty chunk is dropped; any other is
     * forwarded unchanged as 16 kHz PCM. It never reaches a buffer.
     */
    method HandleAudioData(audioChunk: bytes) returns (err: Option<string>)
      modifies session
      ensures audioChunk == [] ==> err.None? && session.log == old(session.log) && session.attempts == old(session.attempts)
      ensures audioChunk != [] ==>
                && session.attempts == old(session.attempts) + 1
                && err == Fault(session.failures, old(session.attempts))
                && session.log == old(session.log) + (if err.None? then [RealtimeAudio(AudioMimeType(), audioChunk)] else [])
    {
      if audioChunk == [] {
        return None;
      }
      err := session.Send(RealtimeAudio(AudioMimeType(), audioChunk));
    }
  }
}
