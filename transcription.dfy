/**
 * The transcript aggregator (backend/app/handlers/transcription_processor.py):
 * each side of the conversation, user and model, has at most one open
 * utterance; fragments are appended to it and re-sent as interim updates,
 * and the completion events send the final text and close utterances.
 */
module Transcription {
  import opened Base
  import opened Protocol
  import opened Channels
  import opened WebSocketHandling

  /** The supplier of fresh utterance ids that stands in for `uuid.uuid4()`. */
  class IdSource {
    var next: nat

    constructor ()
      ensures next == 0
    {
      next := 0;
    }

    /** Hands out an id never handed out before: ids only grow. */
    method Fresh() returns (id: UtteranceId)
      modifies this
      ensures id == old(next) && next == old(next) + 1
    {
      id := next;
      next := next + 1;
    }
  }

  /** One side's utterance: its id while open, and the text accumulated so far. */
  datatype Utterance = Utterance(id: Option<UtteranceId>, text: string)

  /** No utterance open. */
  const Closed := Utterance(None, "")

  /** An open utterance always holds text and a closed one holds none. */
  predicate Coherent(u: Utterance) {
    u.id.None? <==> u.text == ""
  }

  /** The `text` of an optional transcription object. */
  function Fragment(t: Option<Transcription>): Option<string> {
    if t.Some? then t.value.text else None
  }

  /** A fragment opens a new utterance when it carries text and none is open. */
  predicate Opens(u: Utterance, fragment: Option<string>) {
    HasText(fragment) && u.id.None?
  }

  /** One fragment: open with `freshId` and empty text if needed, then append. */
  function Feed(u: Utterance, fragment: Option<string>, freshId: UtteranceId): Utterance {
    if !HasText(fragment) then u
    else if u.id.None? then Utterance(Some(freshId), fragment.value)
    else Utterance(u.id, u.text + fragment.value)
  }

  /** The concatenation of a run of fragments. */
  function Concat(fragments: seq<string>): string {
    if fragments == [] then "" else fragments[0] + Concat(fragments[1..])
  }

  /** Feeding a run of fragments one after another. */
  function FeedAll(u: Utterance, fragments: seq<string>, freshId: UtteranceId): Utterance
    decreases |fragments|
  {
    if fragments == [] then u else FeedAll(Feed(u, Some(fragments[0]), freshId), fragments[1..], freshId)
  }

  /**
   * Exact accumulation: fed to a coherent utterance, a run of fragments
   * leaves the id of an open utterance unchanged (or opens one with the
   * fresh id once some fragment carries text), and the text is the old text
   * followed by every fragment, in order.
   */
  lemma {:induction false} FeedAllAccumulates(u: Utterance, fragments: seq<string>, freshId: UtteranceId)
    requires Coherent(u)
    ensures FeedAll(u, fragments, freshId).text == u.text + Concat(fragments)
    ensures FeedAll(u, fragments, freshId).id
            == (if u.id.Some? then u.id else if Concat(fragments) == "" then None else Some(freshId))
    ensures Coherent(FeedAll(u, fragments, freshId))
    decreases |fragments|
  {
    if fragments != [] {
      var v := Feed(u, Some(fragments[0]), freshId);
      assert Coherent(v);
      FeedAllAccumulates(v, fragments[1..], freshId);
      assert v.text == u.text + fragments[0];
      assert u.text + fragments[0] + Concat(fragments[1..]) == u.text + (fragments[0] + Concat(fragments[1..]));
    }
  }

  /** A concrete run: three fragments of one user utterance. */
  lemma FeedAllExample()
    ensures FeedAll(Closed, ["Hel", "", "lo world"], 7) == Utterance(Some(7), "Hello world")
  {
    FeedAllAccumulates(Closed, ["Hel", "", "lo world"], 7);
    assert Concat(["Hel", "", "lo world"]) == "Hel" + ("" + ("lo world" + ""));
  }

  /** The message carrying an utterance's current text. */
  function UpdateFrame(u: Utterance, sender: string, kind: string, isFinal: bool): ClientFrame
    requires u.id.Some?
  {
    TranscriptUpdate(u.id.value, u.text, sender, kind, isFinal)
  }

  /** The interim update sent after a fragment, given the utterance after appending it. */
  function InterimFrames(after: Utterance, fragment: Option<string>, sender: string, kind: string): seq<ClientFrame> {
    if HasText(fragment) && after.id.Some? && after.text != "" then [UpdateFrame(after, sender, kind, false)] else []
  }

  /** The final update sent when an utterance is closed, if it is open and holds text. */
  function FinalFrames(u: Utterance, sender: string, kind: string): seq<ClientFrame> {
    if u.id.Some? && u.text != "" then [UpdateFrame(u, sender, kind, true)] else []
  }

  const USER := "user"
  const USER_KIND := "user_transcription_update"
  const MODEL := "model"
  const MODEL_KIND := "model_response_update"

  /** Both utterances and the id supplier, as the aggregator sees them. */
  datatype TranscriptState = TranscriptState(user: Utterance, model: Utterance, nextId: nat)

  /** The state after a step and the updates it attempts to send, in order. */
  datatype StepResult = StepResult(state: TranscriptState, frames: seq<ClientFrame>)

  /** Every id in use was handed out before `nextId`. */
  predicate IdsIssued(st: TranscriptState) {
    && (st.user.id.Some? ==> st.user.id.value < st.nextId)
    && (st.model.id.Some? ==> st.model.id.value < st.nextId)
  }

  /** Both sides coherent, every id in use issued, and the two sides never sharing an id. */
  predicate Wellformed(st: TranscriptState) {
    && Coherent(st.user) && Coherent(st.model) && IdsIssued(st)
    && (st.user.id.Some? && st.model.id.Some? ==> st.user.id != st.model.id)
  }

  /** `_process_user_transcription`. */
  function UserStep(st: TranscriptState, sc: ServerContent): (r: StepResult)
    ensures r.state.model == st.model
    ensures !HasText(Fragment(sc.inputTranscription)) ==> r == StepResult(st, [])
    ensures HasText(Fragment(sc.inputTranscription)) && Coherent(st.user) ==>
              r.state.user.text == st.user.text + Fragment(sc.inputTranscription).value
    ensures HasText(Fragment(sc.inputTranscription)) ==>
              && r.state.user.id == (if st.user.id.Some? then st.user.id else Some(st.nextId))
              && r.frames == [TranscriptUpdate(r.state.user.id.value, r.state.user.text, USER, USER_KIND, false)]
  {
    var fragment := Fragment(sc.inputTranscription);
    var user := Feed(st.user, fragment, st.nextId);
    var next := if Opens(st.user, fragment) then st.nextId + 1 else st.nextId;
    StepResult(st.(user := user, nextId := next), InterimFrames(user, fragment, USER, USER_KIND))
  }

  /** `_process_model_transcription`. */
  function ModelStep(st: TranscriptState, sc: ServerContent): (r: StepResult)
    ensures r.state.user == st.user
    ensures !HasText(Fragment(sc.outputTranscription)) ==> r == StepResult(st, [])
    ensures HasText(Fragment(sc.outputTranscription)) && Coherent(st.model) ==>
              r.state.model.text == st.model.text + Fragment(sc.outputTranscription).value
    ensures HasText(Fragment(sc.outputTranscription)) ==>
              && r.state.model.id == (if st.model.id.Some? then st.model.id else Some(st.nextId))
              && r.frames == [TranscriptUpdate(r.state.model.id.value, r.state.model.text, MODEL, MODEL_KIND, false)]
  {
    var fragment := Fragment(sc.outputTranscription);
    var model := Feed(st.model, fragment, st.nextId);
    var next := if Opens(st.model, fragment) then st.nextId + 1 else st.nextId;
    StepResult(st.(model := model, nextId := next), InterimFrames(model, fragment, MODEL, MODEL_KIND))
  }

  /** `_handle_model_generation_complete`: send the model's final text, then close the model side. */
  function GenerationCompleteStep(st: TranscriptState): (r: StepResult)
    ensures r.state.model == Closed && r.state.user == st.user && r.state.nextId == st.nextId
    ensures Coherent(st.model) ==> (r.frames != [] <==> st.model.id.Some?)
    ensures r.frames != [] ==>
              st.model.id.Some? && st.model.text != ""
              && r.frames == [TranscriptUpdate(st.model.id.value, st.model.text, MODEL, MODEL_KIND, true)]
  {
    StepResult(st.(model := Closed), FinalFrames(st.model, MODEL, MODEL_KIND))
  }

  /** `_handle_turn_complete`: send the user's final text, then close both sides. */
  function TurnCompleteStep(st: TranscriptState): (r: StepResult)
    ensures r.state.user == Closed && r.state.model == Closed && r.state.nextId == st.nextId
    ensures Coherent(st.user) ==> (r.frames != [] <==> st.user.id.Some?)
    ensures r.frames != [] ==>
              st.user.id.Some? && st.user.text != ""
              && r.frames == [TranscriptUpdate(st.user.id.value, st.user.text, USER, USER_KIND, true)]
  {
    StepResult(st.(user := Closed, model := Closed), FinalFrames(st.user, USER, USER_KIND))
  }

  /** `_handle_completion_events`: generation complete first, then turn complete. */
  function CompletionStep(st: TranscriptState, sc: ServerContent): (r: StepResult)
    ensures r.state.nextId == st.nextId && |r.frames| <= 2
    ensures sc.turnComplete ==> r.state.user == Closed && r.state.model == Closed
    ensures sc.generationComplete && !sc.turnComplete ==> r.state.model == Closed && r.state.user == st.user
    ensures !sc.generationComplete && !sc.turnComplete ==> r == StepResult(st, [])
  {
    var g := if sc.generationComplete then GenerationCompleteStep(st) else StepResult(st, []);
    var t := if sc.turnComplete then TurnCompleteStep(g.state) else StepResult(g.state, []);
    StepResult(t.state, g.frames + t.frames)
  }

  /** `process_transcriptions`: user fragment, model fragment, then the completion events. */
  function Step(st: TranscriptState, sc: ServerContent): (r: StepResult)
    ensures st.nextId <= r.state.nextId <= st.nextId + 2
    ensures |r.frames| <= 4
    ensures sc.turnComplete ==> r.state.user == Closed && r.state.model == Closed
  {
    var a := UserStep(st, sc);
    var b := ModelStep(a.state, sc);
    var c := CompletionStep(b.state, sc);
    StepResult(c.state, a.frames + b.frames + c.frames)
  }

  /**
   * A step keeps the state well formed: a newly opened utterance takes the
   * supplier's next id, which neither side holds.
   */
  lemma StepKeepsWellformed(st: TranscriptState, sc: ServerContent)
    requires Wellformed(st)
    ensures Wellformed(Step(st, sc).state)
    ensures Step(st, sc).state.nextId >= st.nextId
  {
  }

  /** A server content with no fragment and no completion event changes nothing and sends nothing. */
  lemma QuietContentChangesNothing(st: TranscriptState, sc: ServerContent)
    requires !HasText(Fragment(sc.inputTranscription)) && !HasText(Fragment(sc.outputTranscription))
    requires !sc.generationComplete && !sc.turnComplete
    ensures Step(st, sc) == StepResult(st, [])
  {
  }

  /**
   * A user fragment on an open utterance keeps its id, extends its text and
   * sends exactly that text as the first, non-final update.
   */
  lemma UserFragmentExtendsOpenUtterance(st: TranscriptState, sc: ServerContent)
    requires st.user.id.Some? && HasText(Fragment(sc.inputTranscription))
    requires !sc.turnComplete
    ensures var r := Step(st, sc);
            var text := st.user.text + Fragment(sc.inputTranscription).value;
            && r.state.user == Utterance(st.user.id, text)
            && |r.frames| >= 1
            && r.frames[0] == TranscriptUpdate(st.user.id.value, text, USER, USER_KIND, false)
  {
  }

  /** Only generation complete finalises the model side: turn complete never sends a final model update. */
  lemma FinalModelUpdateOnlyOnGenerationComplete(st: TranscriptState, sc: ServerContent)
    ensures forall f :: f in Step(st, sc).frames && f.TranscriptUpdate? && f.sender == MODEL && f.isFinal
                        ==> sc.generationComplete
  {
    var a := UserStep(st, sc);
    var b := ModelStep(a.state, sc);
    var g := if sc.generationComplete then GenerationCompleteStep(b.state) else StepResult(b.state, []);
    var t := if sc.turnComplete then TurnCompleteStep(g.state) else StepResult(g.state, []);
    assert Step(st, sc).frames == a.frames + b.frames + (g.frames + t.frames);
    assert forall f :: f in t.frames ==> f.sender == USER;
  }

  /**
   * Turn complete closes both sides; generation complete alone closes the
   * model side and leaves the user's utterance as the fragments left it.
   */
  lemma CompletionResets(st: TranscriptState, sc: ServerContent)
    ensures sc.turnComplete ==> Step(st, sc).state.user == Closed && Step(st, sc).state.model == Closed
    ensures sc.generationComplete && !sc.turnComplete ==>
              && Step(st, sc).state.model == Closed
              && Step(st, sc).state.user == UserStep(st, sc).state.user
  {
  }

  /**
   * A server content carrying a fragment for both sides and both completion
   * events sends, in order: the user's interim update, the model's interim
   * update, the model's final update and the user's final update; each final
   * repeats the text of the same side's interim update.
   */
  lemma FullContentOrder(st: TranscriptState, sc: ServerContent)
    requires Wellformed(st)
    requires HasText(Fragment(sc.inputTranscription)) && HasText(Fragment(sc.outputTranscription))
    requires sc.generationComplete && sc.turnComplete
    ensures var f := Step(st, sc).frames;
            && |f| == 4
            && f[0].TranscriptUpdate? && f[0].sender == USER && !f[0].isFinal
            && f[1].TranscriptUpdate? && f[1].sender == MODEL && !f[1].isFinal
            && f[2] == f[1].(isFinal := true)
            && f[3] == f[0].(isFinal := true)
  {
  }

  /** The aggregator's view of the session record and the id supplier. */
  function StateOf(s: SessionState, ids: IdSource): TranscriptState
    reads s, ids
  {
    TranscriptState(Utterance(s.currentUserUtteranceId, s.accumulatedUserSpeechText),
                    Utterance(s.currentModelUtteranceId, s.accumulatedModelSpeechText),
                    ids.next)
  }

  class TranscriptionProcessor {
    const sessionState: SessionState

    constructor (sessionState: SessionState)
      ensures this.sessionState == sessionState
    {
      this.sessionState := sessionState;
    }

    /** `process_transcriptions`: every send is guarded on its own; a failure only clears the active flag. */
    method ProcessTranscriptions(sc: ServerContent, ws: Channel<ClientFrame>, ids: IdSource)
      modifies sessionState, ws, ids
      ensures var r := Step(old(StateOf(sessionState, ids)), sc);
              && StateOf(sessionState, ids) == r.state
              && ws.log == old(ws.log) + Survivors(r.frames, old(ws.attempts), ws.failures)
              && ws.attempts == old(ws.attempts) + |r.frames|
              && sessionState.activeProcessing
                 == (old(sessionState.activeProcessing) && NoFault(old(ws.attempts), |r.frames|, ws.failures))
      ensures sessionState.clientReadyForAudio == old(sessionState.clientReadyForAudio)
      ensures sessionState.audioSequenceCounter == old(sessionState.audioSequenceCounter)
      ensures sessionState.currentSessionHandle == old(sessionState.currentSessionHandle)
    {
      ghost var st0 := StateOf(sessionState, ids);
      ghost var k0 := ws.attempts;
      ghost var log0 := ws.log;
      ghost var active0 := sessionState.activeProcessing;
      ProcessUserTranscription(sc, ws, ids);
      ghost var st1 := StateOf(sessionState, ids);
      ghost var k1 := ws.attempts;
      ghost var log1 := ws.log;
      ghost var active1 := sessionState.activeProcessing;
      ProcessModelTranscription(sc, ws, ids);
      ghost var st2 := StateOf(sessionState, ids);
      ghost var k2 := ws.attempts;
      ghost var log2 := ws.log;
      ghost var active2 := sessionState.activeProcessing;
      HandleCompletionEvents(sc, ws, ids);
      ghost var a := UserStep(st0, sc);
      ghost var b := ModelStep(st1, sc);
      ghost var c := CompletionStep(st2, sc);
      assert Step(st0, sc) == StepResult(c.state, a.frames + b.frames + c.frames);
      GuardedRunsCompose(ws.failures, a.frames, b.frames, k0, log0, active0, k1, log1, active1, k2, log2, active2);
      GuardedRunsCompose(ws.failures, a.frames + b.frames, c.frames, k0, log0, active0, k2, log2, active2,
                         ws.attempts, ws.log, sessionState.activeProcessing);
    }

    /** `_process_user_transcription`. */
    method ProcessUserTranscription(sc: ServerContent, ws: Channel<ClientFrame>, ids: IdSource)
      modifies sessionState, ws, ids
      ensures var r := UserStep(old(StateOf(sessionState, ids)), sc);
              && StateOf(sessionState, ids) == r.state
              && ws.log == old(ws.log) + Survivors(r.frames, old(ws.attempts), ws.failures)
              && ws.attempts == old(ws.attempts) + |r.frames|
              && sessionState.activeProcessing
                 == (old(sessionState.activeProcessing) && NoFault(old(ws.attempts), |r.frames|, ws.failures))
      ensures sessionState.clientReadyForAudio == old(sessionState.clientReadyForAudio)
      ensures sessionState.audioSequenceCounter == old(sessionState.audioSequenceCounter)
      ensures sessionState.currentSessionHandle == old(sessionState.currentSessionHandle)
    {
      var fragment := Fragment(sc.inputTranscription);
      if !HasText(fragment) {
        return;
      }
      if sessionState.currentUserUtteranceId.None? {
        var id := ids.Fresh();
        sessionState.currentUserUtteranceId := Some(id);
        sessionState.accumulatedUserSpeechText := "";
      }
      sessionState.accumulatedUserSpeechText := sessionState.accumulatedUserSpeechText + fragment.value;
      if sessionState.accumulatedUserSpeechText != "" {
        var payload := TranscriptUpdate(sessionState.currentUserUtteranceId.value,
                                        sessionState.accumulatedUserSpeechText, USER, USER_KIND, false);
        var err := ws.Send(payload);
        if err.Some? {
          sessionState.activeProcessing := false;
        }
      }
    }

    /** `_process_model_transcription`. */
    method ProcessModelTranscription(sc: ServerContent, ws: Channel<ClientFrame>, ids: IdSource)
      modifies sessionState, ws, ids
      ensures var r := ModelStep(old(StateOf(sessionState, ids)), sc);
              && StateOf(sessionState, ids) == r.state
              && ws.log == old(ws.log) + Survivors(r.frames, old(ws.attempts), ws.failures)
              && ws.attempts == old(ws.attempts) + |r.frames|
              && sessionState.activeProcessing
                 == (old(sessionState.activeProcessing) && NoFault(old(ws.attempts), |r.frames|, ws.failures))
      ensures sessionState.clientReadyForAudio == old(sessionState.clientReadyForAudio)
      ensures sessionState.audioSequenceCounter == old(sessionState.audioSequenceCounter)
      ensures sessionState.currentSessionHandle == old(sessionState.currentSessionHandle)
    {
      var fragment := Fragment(sc.outputTranscription);
      if !HasText(fragment) {
        return;
      }
      if sessionState.currentModelUtteranceId.None? {
        var id := ids.Fresh();
        sessionState.currentModelUtteranceId := Some(id);
        sessionState.accumulatedModelSpeechText := "";
      }
      var chunk := fragment.value;
      if chunk != "" {
        sessionState.accumulatedModelSpeechText := sessionState.accumulatedModelSpeechText + chunk;
        var payload := TranscriptUpdate(sessionState.currentModelUtteranceId.value,
                                        sessionState.accumulatedModelSpeechText, MODEL, MODEL_KIND, false);
        var err := ws.Send(payload);
        if err.Some? {
          sessionState.activeProcessing := false;
        }
      }
    }

    /** `_handle_completion_events`; the id supplier is only read. */
    method HandleCompletionEvents(sc: ServerContent, ws: Channel<ClientFrame>, ids: IdSource)
      modifies sessionState, ws
      ensures var r := CompletionStep(old(StateOf(sessionState, ids)), sc);
              && StateOf(sessionState, ids) == r.state
              && ws.log == old(ws.log) + Survivors(r.frames, old(ws.attempts), ws.failures)
              && ws.attempts == old(ws.attempts) + |r.frames|
              && sessionState.activeProcessing
                 == (old(sessionState.activeProcessing) && NoFault(old(ws.attempts), |r.frames|, ws.failures))
      ensures sessionState.clientReadyForAudio == old(sessionState.clientReadyForAudio)
      ensures sessionState.audioSequenceCounter == old(sessionState.audioSequenceCounter)
      ensures sessionState.currentSessionHandle == old(sessionState.currentSessionHandle)
    {
      ghost var st0, k0, log0, active0 := StateOf(sessionState, ids), ws.attempts, ws.log, sessionState.activeProcessing;
      ghost var g := if sc.generationComplete then GenerationCompleteStep(st0) else StepResult(st0, []);
      if sc.generationComplete {
        HandleModelGenerationComplete(ws, ids);
      }
      ghost var k1, log1, active1 := ws.attempts, ws.log, sessionState.activeProcessing;
      ghost var t := if sc.turnComplete then TurnCompleteStep(g.state) else StepResult(g.state, []);
      if sc.turnComplete {
        HandleTurnComplete(ws, ids);
      }
      GuardedRunsCompose(ws.failures, g.frames, t.frames, k0, log0, active0, k1, log1, active1,
                         ws.attempts, ws.log, sessionState.activeProcessing);
    }

    /** `_handle_model_generation_complete`. */
    method HandleModelGenerationComplete(ws: Channel<ClientFrame>, ids: IdSource)
      modifies sessionState, ws
      ensures var r := GenerationCompleteStep(old(StateOf(sessionState, ids)));
              && StateOf(sessionState, ids) == r.state
              && ws.log == old(ws.log) + Survivors(r.frames, old(ws.attempts), ws.failures)
              && ws.attempts == old(ws.attempts) + |r.frames|
              && sessionState.activeProcessing
                 == (old(sessionState.activeProcessing) && NoFault(old(ws.attempts), |r.frames|, ws.failures))
      ensures sessionState.clientReadyForAudio == old(sessionState.clientReadyForAudio)
      ensures sessionState.audioSequenceCounter == old(sessionState.audioSequenceCounter)
      ensures sessionState.currentSessionHandle == old(sessionState.currentSessionHandle)
    {
      if sessionState.currentModelUtteranceId.Some? && sessionState.accumulatedModelSpeechText != "" {
        var payload := TranscriptUpdate(sessionState.currentModelUtteranceId.value,
                                        sessionState.accumulatedModelSpeechText, MODEL, MODEL_KIND, true);
        var err := ws.Send(payload);
        if err.Some? {
          sessionState.activeProcessing := false;
        }
      }
      sessionState.currentModelUtteranceId := None;
      sessionState.accumulatedModelSpeechText := "";
    }

    /** `_handle_turn_complete`. */
    method HandleTurnComplete(ws: Channel<ClientFrame>, ids: IdSource)
      modifies sessionState, ws
      ensures var r := TurnCompleteStep(old(StateOf(sessionState, ids)));
              && StateOf(sessionState, ids) == r.state
              && ws.log == old(ws.log) + Survivors(r.frames, old(ws.attempts), ws.failures)
              && ws.attempts == old(ws.attempts) + |r.frames|
              && sessionState.activeProcessing
                 == (old(sessionState.activeProcessing) && NoFault(old(ws.attempts), |r.frames|, ws.failures))
      ensures sessionState.clientReadyForAudio == old(sessionState.clientReadyForAudio)
      ensures sessionState.audioSequenceCounter == old(sessionState.audioSequenceCounter)
      ensures sessionState.currentSessionHandle == old(sessionState.currentSessionHandle)
    {
      if sessionState.currentUserUtteranceId.Some? && sessionState.accumulatedUserSpeechText != "" {
        var payload := TranscriptUpdate(sessionState.currentUserUtteranceId.value,
                                        sessionState.accumulatedUserSpeechText, USER, USER_KIND, true);
        var err := ws.Send(payload);
        if err.Some? {
          sessionState.activeProcessing := false;
        }
      }
      sessionState.currentUserUtteranceId := None;
      sessionState.accumulatedUserSpeechText := "";
      sessionState.currentModelUtteranceId := None;
      sessionState.accumulatedModelSpeechText := "";
    }
  }
}
