/**
 * The per-connection handler of live-session events
 * (backend/app/handlers/gemini_response_handler.py): session-handle
 * updates, the speaking/not-speaking state, interruption, the drain of
 * queued tool results with de-duplication, the speech-gap delivery gate,
 * error forwarding, and the dispatch of one event to the audio,
 * transcription and tool-call processors.
 */
module ResponseHandling {
  import opened Base
  import opened Protocol
  import opened Channels
  import opened AudioUtils
  import opened WebSocketHandling
  import opened AudioProcessing
  import opened Transcription
  import opened ToolCalls
  import Config

  // ---------------------------------------------------------------------
  // Speech state

  /** The handler's `speech_state` dict; times are milliseconds. */
  datatype SpeechState = SpeechState(
    isGeminiSpeaking: bool,
    currentTurnId: Option<string>,
    lastAudioTimestamp: Option<int>,
    speechStartTime: Option<int>,
    pendingToolResponses: nat)

  const InitialSpeechState := SpeechState(false, None, None, None, 0)

  /** An audio event at `now`: speaking from now on, and the latest audio is now. */
  function AudioEvent(s: SpeechState, now: int): (r: SpeechState)
    ensures r.isGeminiSpeaking && r.lastAudioTimestamp == Some(now)
    ensures r.speechStartTime == if s.isGeminiSpeaking then s.speechStartTime else Some(now)
    ensures r.currentTurnId == s.currentTurnId && r.pendingToolResponses == s.pendingToolResponses
  {
    var started := if s.isGeminiSpeaking then s else s.(isGeminiSpeaking := true, speechStartTime := Some(now));
    started.(lastAudioTimestamp := Some(now))
  }

  /** A run of audio events keeps the start time of the first one. */
  lemma {:induction false} SpeechStartIsFirstAudio(s: SpeechState, times: seq<int>)
    requires !s.isGeminiSpeaking && |times| > 0
    ensures AudioEvents(s, times).speechStartTime == Some(times[0])
    ensures AudioEvents(s, times).lastAudioTimestamp == Some(times[|times| - 1])
    ensures AudioEvents(s, times).isGeminiSpeaking
  {
    var s1 := AudioEvent(s, times[0]);
    if |times| > 1 {
      AudioEventsWhileSpeaking(s1, times[1..]);
      assert times[1..][|times[1..]| - 1] == times[|times| - 1];
    }
  }

  /** Audio events applied in order. */
  function AudioEvents(s: SpeechState, times: seq<int>): SpeechState
    decreases |times|
  {
    if times == [] then s else AudioEvents(AudioEvent(s, times[0]), times[1..])
  }

  lemma {:induction false} AudioEventsWhileSpeaking(s: SpeechState, times: seq<int>)
    requires s.isGeminiSpeaking && |times| > 0
    ensures AudioEvents(s, times).speechStartTime == s.speechStartTime
    ensures AudioEvents(s, times).lastAudioTimestamp == Some(times[|times| - 1])
    ensures AudioEvents(s, times).isGeminiSpeaking
    decreases |times|
  {
    if |times| > 1 {
      AudioEventsWhileSpeaking(AudioEvent(s, times[0]), times[1..]);
      assert times[1..][|times[1..]| - 1] == times[|times| - 1];
    }
  }

  /** After a drain that sent `count` items: speech is over and that many pending responses are settled. */
  function AfterDelivery(s: SpeechState, count: nat): (r: SpeechState)
    ensures count == 0 ==> r == s
    ensures count > 0 ==> !r.isGeminiSpeaking
    ensures r.pendingToolResponses == if count == 0 then s.pendingToolResponses
                                      else if s.pendingToolResponses > count then s.pendingToolResponses - count else 0
    ensures r.lastAudioTimestamp == s.lastAudioTimestamp && r.speechStartTime == s.speechStartTime
  {
    if count > 0 then
      var pending := s.pendingToolResponses - count;
      s.(isGeminiSpeaking := false, pendingToolResponses := if pending > 0 then pending else 0)
    else s
  }

  // ---------------------------------------------------------------------
  // Session handle

  /**
   * `_handle_session_updates`: a resumable update with a non-empty new
   * handle replaces the handle; then a non-empty `session_handle` that
   * differs from the current one replaces it.
   */
  function HandleAfterUpdates(handle: Option<string>, r: Response): (h: Option<string>)
    ensures h == handle || HasText(h)
    ensures HasText(r.sessionHandle) ==> h == r.sessionHandle
    ensures !HasText(r.sessionHandle) && r.sessionResumptionUpdate.Some?
            && r.sessionResumptionUpdate.value.resumable && HasText(r.sessionResumptionUpdate.value.newHandle)
            ==> h == r.sessionResumptionUpdate.value.newHandle
    ensures !HasText(r.sessionHandle)
            && !(r.sessionResumptionUpdate.Some? && r.sessionResumptionUpdate.value.resumable
                 && HasText(r.sessionResumptionUpdate.value.newHandle))
            ==> h == handle
  {
    var afterUpdate :=
      if r.sessionResumptionUpdate.Some? && r.sessionResumptionUpdate.value.resumable
         && HasText(r.sessionResumptionUpdate.value.newHandle)
      then r.sessionResumptionUpdate.value.newHandle
      else handle;
    if HasText(r.sessionHandle) && r.sessionHandle != afterUpdate then r.sessionHandle else afterUpdate
  }

  /** Applying the same event's updates twice is applying them once. */
  lemma SessionUpdatesIdempotent(handle: Option<string>, r: Response)
    ensures HandleAfterUpdates(HandleAfterUpdates(handle, r), r) == HandleAfterUpdates(handle, r)
  {
  }

  /** A non-resumable update never changes the handle. */
  lemma NonResumableKeepsHandle(handle: Option<string>, r: Response)
    requires r.sessionResumptionUpdate.Some? ==> !r.sessionResumptionUpdate.value.resumable
    requires !HasText(r.sessionHandle)
    ensures HandleAfterUpdates(handle, r) == handle
  {
  }

  // ---------------------------------------------------------------------
  // Text not handled elsewhere

  /**
   * The fold of `_extract_unhandled_text` over model-turn parts: each part
   * with text is appended, after a space when something was collected.
   */
  function JoinPartTexts(acc: Option<string>, parts: seq<Part>): (r: Option<string>)
    ensures (acc.Some? ==> acc.value != "") ==> (r.Some? ==> r.value != "")
    decreases |parts|
  {
    if parts == [] then acc
    else
      var p := parts[0];
      var acc' := if HasText(p.text) then Some((if HasText(acc) then acc.value + " " else "") + p.text.value) else acc;
      JoinPartTexts(acc', parts[1..])
  }

  /** The non-empty texts of the parts, in order. */
  function PartTexts(parts: seq<Part>): (ts: seq<string>)
    ensures forall i :: 0 <= i < |ts| ==> ts[i] != ""
    decreases |parts|
  {
    if parts == [] then []
    else (if HasText(parts[0].text) then [parts[0].text.value] else []) + PartTexts(parts[1..])
  }

  /** `sep`-free join of a run of words with single spaces. */
  function JoinWithSpaces(ws: seq<string>): (r: string)
    ensures ws != [] ==> |r| >= |ws[0]|
    decreases |ws|
  {
    if ws == [] then "" else if |ws| == 1 then ws[0] else ws[0] + " " + JoinWithSpaces(ws[1..])
  }

  /** The fold from a collected text `a` appends the joined rest after a space. */
  lemma {:induction false} JoinPartTextsFrom(a: string, parts: seq<Part>)
    requires a != ""
    ensures JoinPartTexts(Some(a), parts)
            == Some(if PartTexts(parts) == [] then a else a + " " + JoinWithSpaces(PartTexts(parts)))
    decreases |parts|
  {
    if parts != [] {
      var p := parts[0];
      if HasText(p.text) {
        var a' := a + " " + p.text.value;
        JoinPartTextsFrom(a', parts[1..]);
        var rest := PartTexts(parts[1..]);
        assert PartTexts(parts) == [p.text.value] + rest;
        if rest != [] {
          assert JoinWithSpaces([p.text.value] + rest) == p.text.value + " " + JoinWithSpaces(rest);
          assert a' + " " + JoinWithSpaces(rest) == a + " " + (p.text.value + " " + JoinWithSpaces(rest));
        } else {
          assert JoinWithSpaces([p.text.value]) == p.text.value;
        }
      } else {
        JoinPartTextsFrom(a, parts[1..]);
        assert PartTexts(parts) == PartTexts(parts[1..]);
      }
    }
  }

  /**
   * The fold equals the reference definition: the non-empty part texts
   * joined with single spaces, or nothing when no part has text.
   */
  lemma {:induction false} JoinPartTextsIsJoin(parts: seq<Part>)
    ensures JoinPartTexts(None, parts) == if PartTexts(parts) == [] then None else Some(JoinWithSpaces(PartTexts(parts)))
    decreases |parts|
  {
    if parts != [] {
      var p := parts[0];
      if HasText(p.text) {
        assert "" + p.text.value == p.text.value;
        assert JoinPartTexts(None, parts) == JoinPartTexts(Some(p.text.value), parts[1..]);
        JoinPartTextsFrom(p.text.value, parts[1..]);
        var rest := PartTexts(parts[1..]);
        assert PartTexts(parts) == [p.text.value] + rest;
        if rest != [] {
          assert JoinWithSpaces([p.text.value] + rest) == p.text.value + " " + JoinWithSpaces(rest);
        } else {
          assert JoinWithSpaces([p.text.value]) == p.text.value;
        }
      } else {
        JoinPartTextsIsJoin(parts[1..]);
        assert PartTexts(parts) == PartTexts(parts[1..]);
      }
    }
  }

  /**
   * `_extract_unhandled_text`: the content's own text, else the texts of
   * the model turn's parts, else the output text; nothing when none is set.
   * A model turn, even one without any part text, hides the output text.
   */
  function ExtractUnhandledText(sc: ServerContent): (r: Option<string>)
    ensures HasText(sc.text) ==> r == sc.text
    ensures !HasText(sc.text) && sc.modelTurn.Some? ==>
      r == if PartTexts(sc.modelTurn.value) == [] then None
           else Some(JoinWithSpaces(PartTexts(sc.modelTurn.value)))
    ensures !HasText(sc.text) && sc.modelTurn.None? ==>
      r == if HasText(sc.outputText) then sc.outputText else None
    ensures r.Some? ==> r.value != ""
  {
    if HasText(sc.text) then sc.text
    else if sc.modelTurn.Some? then
      JoinPartTextsIsJoin(sc.modelTurn.value);
      JoinPartTexts(None, sc.modelTurn.value)
    else if HasText(sc.outputText) then sc.outputText
    else None
  }

  /** A concrete model turn: empty and missing texts are skipped. */
  lemma ExtractUnhandledTextExample()
    ensures ExtractUnhandledText(ServerContent(false, None, None, false, false, None,
                                               Some([Part(Some("Hi")), Part(Some("")), Part(None), Part(Some("there"))]), None))
            == Some("Hi there")
  {
    var parts := [Part(Some("Hi")), Part(Some("")), Part(None), Part(Some("there"))];
    assert "" + "Hi" == "Hi" && "Hi" + " " + "there" == "Hi there";
    calc {
      JoinPartTexts(None, parts);
      JoinPartTexts(Some("Hi"), parts[1..]);
      JoinPartTexts(Some("Hi"), parts[2..]);
      JoinPartTexts(Some("Hi"), parts[3..]);
      JoinPartTexts(Some("Hi there"), parts[4..]);
    }
  }

  // ---------------------------------------------------------------------
  // Tool-result queue and its drain

  /**
   * An item of the tool-results queue: a function response (it has `name`
   * and `response` attributes) or a system message dict, which is sent as
   * client content.
   */
  datatype QueueItem =
    | FunctionResult(fr: FunctionResponse)
    | SystemMessage(content: Content)

  /** The text `str()` gives a `uuid` value; containers are rendered by a fixed marker. */
  function JsonText(j: Json): string {
    match j
    case JNull => "None"
    case JBool(b) => if b then "True" else "False"
    case JInt(i) => IntText(i)
    case JStr(s) => s
    case JArr(_) => "[...]"
    case JObj(_) => "{...}"
  }

  /** `response.get('uuid', '')` as text. */
  function UuidText(response: map<string, Json>): string {
    if "uuid" in response then JsonText(response["uuid"]) else ""
  }

  /** The de-duplication key of a function response: its name, a dash, its uuid. */
  function DedupKey(fr: FunctionResponse): (key: string)
    ensures |key| == |fr.name| + 1 + |UuidText(fr.response)|
  {
    fr.name + "-" + UuidText(fr.response)
  }

  /** Where a key's parts sit: the name, the dash right after it, then the uuid text. */
  lemma DedupKeyParts(fr: FunctionResponse)
    ensures var key := DedupKey(fr);
            && key[|fr.name|] == '-'
            && key[..|fr.name|] == fr.name && key[|fr.name| + 1..] == UuidText(fr.response)
  {
  }

  /**
   * Keys tell responses apart when names contain no dash: equal keys mean
   * equal names and equal uuid texts.
   */
  lemma DedupKeyInjective(a: FunctionResponse, b: FunctionResponse)
    requires '-' !in a.name && '-' !in b.name
    requires DedupKey(a) == DedupKey(b)
    ensures a.name == b.name && UuidText(a.response) == UuidText(b.response)
  {
    DedupKeyParts(a);
    DedupKeyParts(b);
    if |a.name| < |b.name| {
      assert false;
    } else if |a.name| > |b.name| {
      assert false;
    }
  }

  /** With a dash in a name, two different responses can share a key. */
  lemma DedupKeyCollision()
    ensures var a := FunctionResponse("1", "a-b", map["uuid" := JStr("c")]);
            var b := FunctionResponse("2", "a", map["uuid" := JStr("b-c")]);
            a.name != b.name && DedupKey(a) == DedupKey(b)
  {
  }

  /** The de-duplication key a sent upstream message carries, if it is a tool response. */
  function KeyOf(m: UpstreamMsg): (key: Option<string>)
    ensures !m.ToolResponse? ==> key.None?
    ensures key.Some? ==> m.ToolResponse? && |m.functionResponses| == 1 && |key.value| > |m.functionResponses[0].name|
  {
    if m.ToolResponse? && |m.functionResponses| == 1 then Some(DedupKey(m.functionResponses[0])) else None
  }

  /** What draining the queue did: see `DrainFrom`. */
  datatype DrainOutcome = DrainOutcome(
    sent: seq<UpstreamMsg>,
    count: nat,
    processed: set<string>,
    remaining: seq<QueueItem>,
    attempts: nat,
    toolFlag: bool,
    err: Option<string>)

  /**
   * `_deliver_queued_tool_responses` from attempt `k` with the keys
   * `processed` already sent: items are taken in FIFO order; a function
   * response whose key was already sent is dropped unsent and uncounted;
   * any other function response raises `is_tool_response`, is sent and its
   * key recorded; a system message is sent as client content; the first
   * send that raises ends the drain, leaving the items behind it queued.
   */
  function DrainFrom(items: seq<QueueItem>, processed: set<string>, k: nat, failures: map<nat, string>): (d: DrainOutcome)
    ensures d.count == |d.sent|
    ensures d.attempts == d.count + (if d.err.Some? then 1 else 0)
    ensures d.err.None? ==> d.remaining == [] && NoFault(k, d.attempts, failures)
    ensures d.err.Some? ==> NoFault(k, d.count, failures) && k + d.count in failures
                            && d.err == Some(failures[k + d.count]) && |d.remaining| < |items|
    ensures processed <= d.processed
    decreases |items|
  {
    if items == [] then DrainOutcome([], 0, processed, [], 0, false, None)
    else
      match items[0]
      case FunctionResult(fr) =>
        if DedupKey(fr) in processed then DrainFrom(items[1..], processed, k, failures)
        else if k in failures then DrainOutcome([], 0, processed, items[1..], 1, true, Some(failures[k]))
        else
          var rest := DrainFrom(items[1..], processed + {DedupKey(fr)}, k + 1, failures);
          Prepend([ToolResponse([fr])], true, rest)
      case SystemMessage(c) =>
        if k in failures then DrainOutcome([], 0, processed, items[1..], 1, false, Some(failures[k]))
        else
          var rest := DrainFrom(items[1..], processed, k + 1, failures);
          Prepend([ClientContent([c])], false, rest)
  }

  /** A drain that first sent `sent` (without failure) and raised `flag`, then went on as `r`. */
  function Prepend(sent: seq<UpstreamMsg>, flag: bool, r: DrainOutcome): DrainOutcome {
    DrainOutcome(sent + r.sent, |sent| + r.count, r.processed, r.remaining, |sent| + r.attempts, flag || r.toolFlag, r.err)
  }

  lemma PrependPrepend(s: seq<UpstreamMsg>, f: bool, t: seq<UpstreamMsg>, g: bool, r: DrainOutcome)
    ensures Prepend(s, f, Prepend(t, g, r)) == Prepend(s + t, f || g, r)
  {
    assert s + (t + r.sent) == (s + t) + r.sent;
  }

  /** What the drain loop works on: the session's log and attempt count, the queue, and the recorded keys. */
  datatype DrainView = DrainView(log: seq<UpstreamMsg>, attempts: nat, items: seq<QueueItem>, processed: set<string>)

  /**
   * The drain that started at `v0` has so far sent `sent` and raised
   * `flag`, and what is left of it is the drain of what is left at `v`.
   */
  ghost predicate DrainSoFar(v0: DrainView, v: DrainView, sent: seq<UpstreamMsg>, flag: bool, failures: map<nat, string>) {
    && DrainFrom(v0.items, v0.processed, v0.attempts, failures)
       == Prepend(sent, flag, DrainFrom(v.items, v.processed, v.attempts, failures))
    && v.log == v0.log + sent
    && v.attempts == v0.attempts + |sent|
  }

  /** One more message that went through keeps the drain on track. */
  lemma DrainSoFarStep(v0: DrainView, v: DrainView, v': DrainView, sent: seq<UpstreamMsg>, flag: bool,
                       m: UpstreamMsg, failures: map<nat, string>)
    requires DrainSoFar(v0, v, sent, flag, failures)
    requires DrainFrom(v.items, v.processed, v.attempts, failures)
             == Prepend([m], m.ToolResponse?, DrainFrom(v'.items, v'.processed, v'.attempts, failures))
    requires v'.log == v.log + [m] && v'.attempts == v.attempts + 1
    ensures DrainSoFar(v0, v', sent + [m], flag || m.ToolResponse?, failures)
  {
    PrependPrepend(sent, flag, [m], m.ToolResponse?, DrainFrom(v'.items, v'.processed, v'.attempts, failures));
    assert (v0.log + sent) + [m] == v0.log + (sent + [m]);
  }

  /** With no failing send in range, the queue is drained to empty. */
  lemma {:induction false} DrainWithoutFaults(items: seq<QueueItem>, processed: set<string>, k: nat, failures: map<nat, string>)
    requires NoFault(k, |items|, failures)
    ensures DrainFrom(items, processed, k, failures).err.None?
    ensures DrainFrom(items, processed, k, failures).remaining == []
    decreases |items|
  {
    if items != [] {
      match items[0]
      case FunctionResult(fr) =>
        if DedupKey(fr) in processed {
          DrainWithoutFaults(items[1..], processed, k, failures);
          assert NoFault(k, |items[1..]|, failures);
        } else {
          DrainWithoutFaults(items[1..], processed + {DedupKey(fr)}, k + 1, failures);
        }
      case SystemMessage(c) =>
        DrainWithoutFaults(items[1..], processed, k + 1, failures);
    }
  }

  /**
   * The tool responses of `sent` carry pairwise distinct keys, none of them
   * in `before` and all of them in `after`.
   */
  predicate SentOnce(sent: seq<UpstreamMsg>, before: set<string>, after: set<string>) {
    && (forall i :: 0 <= i < |sent| && KeyOf(sent[i]).Some? ==>
          KeyOf(sent[i]).value !in before && KeyOf(sent[i]).value in after)
    && (forall i, j :: 0 <= i < j < |sent| && KeyOf(sent[i]).Some? ==> KeyOf(sent[i]) != KeyOf(sent[j]))
  }

  /** The key a sent message records, as a set. */
  function KeySet(m: UpstreamMsg): (ks: set<string>)
    ensures KeyOf(m).Some? ==> ks == {KeyOf(m).value}
    ensures KeyOf(m).None? ==> ks == {}
  {
    if KeyOf(m).Some? then {KeyOf(m).value} else {}
  }

  /** A message sent first, then a run that avoided its key as well. */
  lemma SentOnceCons(m: UpstreamMsg, flag: bool, rest: DrainOutcome, before: set<string>)
    requires KeyOf(m).Some? ==> KeyOf(m).value !in before && KeyOf(m).value in rest.processed
    requires SentOnce(rest.sent, before + KeySet(m), rest.processed)
    ensures SentOnce(Prepend([m], flag, rest).sent, before, Prepend([m], flag, rest).processed)
  {
    var sent := [m] + rest.sent;
    assert forall i :: 1 <= i < |sent| ==> sent[i] == rest.sent[i - 1];
  }

  /**
   * At most once per key: the tool responses of one drain carry pairwise
   * distinct keys, none of them sent before, and all recorded afterwards.
   */
  lemma {:induction false} DrainSendsEachKeyOnce(items: seq<QueueItem>, processed: set<string>, k: nat, failures: map<nat, string>)
    ensures var d := DrainFrom(items, processed, k, failures);
            SentOnce(d.sent, processed, d.processed)
    decreases |items|
  {
    if items != [] {
      match items[0]
      case FunctionResult(fr) =>
        if DedupKey(fr) in processed {
          DrainSendsEachKeyOnce(items[1..], processed, k, failures);
        } else if k !in failures {
          var m := ToolResponse([fr]);
          var p' := processed + KeySet(m);
          DrainSendsEachKeyOnce(items[1..], p', k + 1, failures);
          SentOnceCons(m, true, DrainFrom(items[1..], p', k + 1, failures), processed);
        }
      case SystemMessage(c) =>
        if k !in failures {
          var m := ClientContent([c]);
          DrainSendsEachKeyOnce(items[1..], processed, k + 1, failures);
          assert processed + KeySet(m) == processed;
          SentOnceCons(m, false, DrainFrom(items[1..], processed, k + 1, failures), processed);
        }
    }
  }

  /** How many system messages a run of queue items holds. */
  function SystemMessages(items: seq<QueueItem>): nat
    decreases |items|
  {
    if items == [] then 0 else (if items[0].SystemMessage? then 1 else 0) + SystemMessages(items[1..])
  }

  /** How many client-content messages a run of sends holds. */
  function ClientContents(ms: seq<UpstreamMsg>): nat
    decreases |ms|
  {
    if ms == [] then 0 else (if ms[0].ClientContent? then 1 else 0) + ClientContents(ms[1..])
  }

  /** System messages are never de-duplicated: with no failure, every one of them is sent. */
  lemma {:induction false} SystemMessagesAlwaysSent(items: seq<QueueItem>, processed: set<string>, k: nat, failures: map<nat, string>)
    requires NoFault(k, |items|, failures)
    ensures ClientContents(DrainFrom(items, processed, k, failures).sent) == SystemMessages(items)
    decreases |items|
  {
    if items != [] {
      match items[0]
      case FunctionResult(fr) =>
        if DedupKey(fr) in processed {
          SystemMessagesAlwaysSent(items[1..], processed, k, failures);
        } else {
          SystemMessagesAlwaysSent(items[1..], processed + {DedupKey(fr)}, k + 1, failures);
          var rest := DrainFrom(items[1..], processed + {DedupKey(fr)}, k + 1, failures);
          assert ([ToolResponse([fr])] + rest.sent)[1..] == rest.sent;
        }
      case SystemMessage(c) =>
        SystemMessagesAlwaysSent(items[1..], processed, k + 1, failures);
        var rest := DrainFrom(items[1..], processed, k + 1, failures);
        assert ([ClientContent([c])] + rest.sent)[1..] == rest.sent;
    }
  }

  /** Two responses of one tool without a uuid in the queue: only the first is sent. */
  lemma SameNameWithoutUuidSentOnce(a: FunctionResponse, b: FunctionResponse, failures: map<nat, string>)
    requires a.name == b.name && "uuid" !in a.response && "uuid" !in b.response
    requires 0 !in failures
    ensures var d := DrainFrom([FunctionResult(a), FunctionResult(b)], {}, 0, failures);
            d.sent == [ToolResponse([a])] && d.count == 1 && d.remaining == [] && d.err.None?
  {
    var items := [FunctionResult(a), FunctionResult(b)];
    var p := {DedupKey(a)};
    assert items[1..] == [FunctionResult(b)];
    assert DedupKey(b) == DedupKey(a);
    assert DrainFrom([FunctionResult(b)], p, 1, failures) == DrainFrom([], p, 1, failures);
    assert DrainFrom(items, {}, 0, failures) == Prepend([ToolResponse([a])], true, DrainFrom(items[1..], {} + p, 1, failures));
  }

  /** The tool-results queue shared with the tool implementations. */
  class ToolResultsQueue {
    var items: seq<QueueItem>

    constructor ()
      ensures items == []
    {
      items := [];
    }

    /** `put`: enqueue at the back. */
    method Put(item: QueueItem)
      modifies this
      ensures items == old(items) + [item]
    {
      items := items + [item];
    }

    /** `get` on a non-empty queue: dequeue from the front. */
    method Get() returns (item: QueueItem)
      requires items != []
      modifies this
      ensures item == old(items)[0] && items == old(items)[1..]
    {
      item := items[0];
      items := items[1..];
    }
  }

  // ---------------------------------------------------------------------
  // The handler

  /** Audio silent for longer than this (strictly) counts as the end of speech. */
  const SPEECH_COMPLETION_THRESHOLD_MS := 1500

  /** `_check_speech_completion_and_deliver_responses` delivers exactly when this holds. */
  predicate SpeechGapOpen(s: SpeechState, queueEmpty: bool, now: int): (open: bool)
    ensures open ==> !queueEmpty && s.isGeminiSpeaking
    ensures s.lastAudioTimestamp.None? ==> !open
    ensures s.lastAudioTimestamp.Some? && now <= s.lastAudioTimestamp.value + SPEECH_COMPLETION_THRESHOLD_MS ==> !open
  {
    && s.isGeminiSpeaking
    && !queueEmpty
    && s.lastAudioTimestamp.Some?
    && now - s.lastAudioTimestamp.value > SPEECH_COMPLETION_THRESHOLD_MS
  }

  /** The gate is strict: exactly 1.5 s of silence is not yet a gap; a millisecond more is. */
  lemma SpeechGapBoundary(s: SpeechState, t: int)
    requires s.isGeminiSpeaking && s.lastAudioTimestamp == Some(t)
    ensures !SpeechGapOpen(s, false, t + 1500)
    ensures SpeechGapOpen(s, false, t + 1501)
    ensures !SpeechGapOpen(s, true, t + 1501)
  {
  }

  /** Right after an audio event the gate is closed, however long the queue. */
  lemma NoGapRightAfterAudio(s: SpeechState, now: int, queueEmpty: bool)
    ensures !SpeechGapOpen(AudioEvent(s, now), queueEmpty, now)
  {
  }

  /** The frame forwarding an upstream error to the client. */
  function ErrorFrame(e: GeminiError): (f: ClientFrame)
    ensures f.ErrorText? && |f.text| >= 21 && f.text[..21] == "[ERROR_FROM_GEMINI]: "
  {
    var details := if e.message.Some? then e.message.value else e.rendered;
    ErrorText("[ERROR_FROM_GEMINI]: " + details)
  }

  /** Which processor `_process_response` hands an event to. */
  datatype Route = AudioRoute | ContentRoute | ToolCallRoute | ErrorRoute | UnknownRoute

  /** The dispatch: audio first, then server content, then a tool call, then an error. */
  function RouteOf(r: Response): (route: Route)
    ensures route == AudioRoute <==> r.data.Some?
    ensures route == ContentRoute <==> r.data.None? && r.serverContent.Some?
    ensures route == ToolCallRoute <==> r.data.None? && r.serverContent.None? && r.toolCall.Some?
    ensures route == ErrorRoute <==> r.data.None? && r.serverContent.None? && r.toolCall.None? && r.error.Some?
  {
    if r.data.Some? then AudioRoute
    else if r.serverContent.Some? then ContentRoute
    else if r.toolCall.Some? then ToolCallRoute
    else if r.error.Some? then ErrorRoute
    else UnknownRoute
  }

  /** One event the live session delivered, with the time it is handled at and its correlation id. */
  datatype Arrival = Arrival(response: Response, now: int, correlationId: string)

  /** Whether the event's server content marks the turn complete. */
  predicate TurnComplete(r: Response) {
    r.serverContent.Some? && r.serverContent.value.turnComplete
  }

  /**
   * What the post-processing of an event works on: the session's log and
   * attempt count, the tool-results queue, the recorded keys, the
   * tool-response flag and the speech state.
   */
  datatype PostView = PostView(log: seq<UpstreamMsg>, attempts: nat, items: seq<QueueItem>,
                               processed: set<string>, toolFlag: bool, speech: SpeechState)

  /** `_deliver_queued_tool_responses` on `v`, with the exception it let through, if any. */
  function Drained(v: PostView, failures: map<nat, string>): (PostView, Option<string>) {
    var d := DrainFrom(v.items, v.processed, v.attempts, failures);
    (PostView(v.log + d.sent, v.attempts + d.attempts, d.remaining, d.processed, v.toolFlag || d.toolFlag,
              if d.err.None? then AfterDelivery(v.speech, d.count) else v.speech),
     d.err)
  }

  /**
   * The post-processing of one event at time `now` in
   * `handle_gemini_responses`: on turn complete, clear the tool-response
   * flag and drain the queue, and stop there if a send raised; then drain
   * the queue iff the speech gap is open. The error is the exception of
   * the session's last attempt, and without one a turn boundary leaves the
   * queue empty.
   */
  function PostProcess(v: PostView, turnComplete: bool, now: int, failures: map<nat, string>)
    : (r: (PostView, Option<string>))
    ensures v.log <= r.0.log && v.processed <= r.0.processed && v.attempts <= r.0.attempts
    ensures r.1.Some? ==> v.attempts < r.0.attempts && r.0.attempts - 1 in failures
                          && r.1.value == failures[r.0.attempts - 1]
    ensures r.1.None? ==> NoFault(v.attempts, r.0.attempts - v.attempts, failures)
    ensures turnComplete && r.1.None? ==> r.0.items == []
    ensures !turnComplete && !SpeechGapOpen(v.speech, v.items == [], now) ==> r == (v, None)
  {
    if turnComplete then
      var (w, err) := Drained(v.(toolFlag := false), failures);
      if err.Some? || !SpeechGapOpen(w.speech, w.items == [], now) then (w, err) else Drained(w, failures)
    else if SpeechGapOpen(v.speech, v.items == [], now) then Drained(v, failures)
    else (v, None)
  }

  /** With no failing send, a turn boundary delivers the whole queue and raises nothing. */
  lemma PostProcessWithoutFaults(v: PostView, now: int, failures: map<nat, string>)
    requires NoFault(v.attempts, |v.items|, failures)
    ensures PostProcess(v, true, now, failures).1.None?
    ensures PostProcess(v, true, now, failures).0.items == []
  {
    DrainWithoutFaults(v.items, v.processed, v.attempts, failures);
  }

  class GeminiResponseHandler {
    const sessionState: SessionState
    const audioProcessor: AudioProcessor
    const transcriptionProcessor: TranscriptionProcessor
    const toolProcessor: ToolCallProcessor
    const toolResultsQueue: ToolResultsQueue
    /** `DISABLE_VAD` of the settings. */
    const disableVad: bool
    var speechState: SpeechState
    var isToolResponse: bool
    /** Keys of the tool responses sent so far; never shrinks. */
    var processedToolCalls: set<string>

    ghost predicate Valid()
      reads this, sessionState, sessionState.micAudioBuffer, sessionState.geminiAudioBuffer
    {
      && audioProcessor.sessionState == sessionState
      && transcriptionProcessor.sessionState == sessionState
      && sessionState.Valid()
    }

    constructor (sessionState: SessionState, availableFunctions: map<string, ToolImpl>,
                 toolResultsQueue: ToolResultsQueue, disableVad: bool)
      requires sessionState.Valid()
      ensures Valid()
      ensures this.sessionState == sessionState && this.toolResultsQueue == toolResultsQueue
      ensures this.disableVad == disableVad
      ensures speechState == InitialSpeechState && !isToolResponse && processedToolCalls == {}
      ensures fresh(audioProcessor) && fresh(transcriptionProcessor) && fresh(toolProcessor)
      ensures toolProcessor.availableFunctions == availableFunctions && toolProcessor.backgroundTasks == []
    {
      this.sessionState := sessionState;
      this.toolResultsQueue := toolResultsQueue;
      this.disableVad := disableVad;
      speechState := InitialSpeechState;
      audioProcessor := new AudioProcessor(sessionState);
      transcriptionProcessor := new TranscriptionProcessor(sessionState);
      toolProcessor := new ToolCallProcessor(availableFunctions);
      isToolResponse := false;
      processedToolCalls := {};
    }

    /** `set_is_tool_response`. */
    method SetIsToolResponse(value: bool)
      modifies this
      ensures isToolResponse == value
      ensures speechState == old(speechState) && processedToolCalls == old(processedToolCalls)
    {
      isToolResponse := value;
    }

    /** `_handle_session_updates`. */
    method HandleSessionUpdates(r: Response)
      modifies sessionState
      ensures sessionState.currentSessionHandle == HandleAfterUpdates(old(sessionState.currentSessionHandle), r)
      ensures sessionState.activeProcessing == old(sessionState.activeProcessing)
      ensures sessionState.clientReadyForAudio == old(sessionState.clientReadyForAudio)
      ensures sessionState.audioSequenceCounter == old(sessionState.audioSequenceCounter)
      ensures sessionState.currentUserUtteranceId == old(sessionState.currentUserUtteranceId)
      ensures sessionState.accumulatedUserSpeechText == old(sessionState.accumulatedUserSpeechText)
      ensures sessionState.currentModelUtteranceId == old(sessionState.currentModelUtteranceId)
      ensures sessionState.accumulatedModelSpeechText == old(sessionState.accumulatedModelSpeechText)
    {
      if r.sessionResumptionUpdate.Some? {
        var update := r.sessionResumptionUpdate.value;
        if update.resumable && HasText(update.newHandle) {
          sessionState.currentSessionHandle := update.newHandle;
        }
      }
      if HasText(r.sessionHandle) {
        var newHandle := r.sessionHandle;
        if newHandle != sessionState.currentSessionHandle {
          sessionState.currentSessionHandle := newHandle;
        }
      }
    }

    /** `_handle_interruption`: tell the client to stop playback unless a tool response is being spoken. */
    method HandleInterruption(ws: Channel<ClientFrame>)
      modifies sessionState, ws
      ensures var attempted := if isToolResponse then [] else [InterruptPlayback];
              && ws.log == old(ws.log) + Survivors(attempted, old(ws.attempts), ws.failures)
              && ws.attempts == old(ws.attempts) + |attempted|
              && sessionState.activeProcessing
                 == (old(sessionState.activeProcessing) && NoFault(old(ws.attempts), |attempted|, ws.failures))
      ensures sessionState.ConversationFields() == old(sessionState.ConversationFields())
      ensures sessionState.clientReadyForAudio == old(sessionState.clientReadyForAudio)
      ensures sessionState.audioSequenceCounter == old(sessionState.audioSequenceCounter)
    {
      if !isToolResponse {
        var err := ws.Send(InterruptPlayback);
        if err.Some? {
          sessionState.activeProcessing := false;
        }
      }
    }

    /** `_handle_error`: forward the error's message (else its string form) to the client. */
    method HandleError(e: GeminiError, ws: Channel<ClientFrame>)
      modifies sessionState, ws
      ensures ws.log == old(ws.log) + Survivors([ErrorFrame(e)], old(ws.attempts), ws.failures)
      ensures ws.attempts == old(ws.attempts) + 1
      ensures sessionState.activeProcessing == (old(sessionState.activeProcessing) && old(ws.attempts) !in ws.failures)
      ensures sessionState.ConversationFields() == old(sessionState.ConversationFields())
      ensures sessionState.clientReadyForAudio == old(sessionState.clientReadyForAudio)
      ensures sessionState.audioSequenceCounter == old(sessionState.audioSequenceCounter)
    {
      var errorDetails := if e.message.Some? then e.message.value else e.rendered;
      var err := ws.Send(ErrorText("[ERROR_FROM_GEMINI]: " + errorDetails));
      if err.Some? {
        sessionState.activeProcessing := false;
      }
    }

    /**
     * `_deliver_queued_tool_responses`: drain the queue as `DrainFrom`
     * says. A send that raises is not caught here: it ends the drain and is
     * returned, and the speech state is then left as it was.
     */
    method DeliverQueuedToolResponses(session: Channel<UpstreamMsg>) returns (err: Option<string>)
      modifies this, toolResultsQueue, session
      ensures var d := DrainFrom(old(toolResultsQueue.items), old(processedToolCalls), old(session.attempts), session.failures);
              && session.log == old(session.log) + d.sent
              && session.attempts == old(session.attempts) + d.attempts
              && toolResultsQueue.items == d.remaining
              && processedToolCalls == d.processed
              && isToolResponse == (old(isToolResponse) || d.toolFlag)
              && err == d.err
              && speechState == if err.None? then AfterDelivery(old(speechState), d.count) else old(speechState)
    {
      if toolResultsQueue.items == [] {
        return None;
      }
      ghost var v0 := DrainViewOf(session);
      ghost var flag0 := isToolResponse;
      ghost var sent: seq<UpstreamMsg> := [];
      ghost var flag := false;
      var responseCount: nat := 0;
      while toolResultsQueue.items != []
        invariant DrainSoFar(v0, DrainViewOf(session), sent, flag, session.failures)
        invariant responseCount == |sent|
        invariant isToolResponse == (flag0 || flag)
        invariant speechState == old(speechState)
        decreases |toolResultsQueue.items|
      {
        ghost var v := DrainViewOf(session);
        var sentOne, e := DeliverNext(session);
        if e.Some? {
          return e;
        }
        if sentOne.Some? {
          DrainSoFarStep(v0, v, DrainViewOf(session), sent, flag, sentOne.value, session.failures);
          sent := sent + [sentOne.value];
          flag := flag || sentOne.value.ToolResponse?;
          responseCount := responseCount + 1;
        }
      }
      if responseCount > 0 {
        speechState := AfterDelivery(speechState, responseCount);
      }
      err := None;
    }

    ghost function DrainViewOf(session: Channel<UpstreamMsg>): DrainView
      reads this, toolResultsQueue, session
    {
      DrainView(session.log, session.attempts, toolResultsQueue.items, processedToolCalls)
    }

    /**
     * One turn of the drain loop: take the front item; drop it if its key
     * was sent already, else send it (recording a tool response's key
     * after the send went through). Returns the message that went through.
     */
    method DeliverNext(session: Channel<UpstreamMsg>) returns (sentOne: Option<UpstreamMsg>, err: Option<string>)
      requires toolResultsQueue.items != []
      modifies this, toolResultsQueue, session
      ensures var d := DrainFrom(old(toolResultsQueue.items), old(processedToolCalls), old(session.attempts), session.failures);
              var rest := DrainFrom(toolResultsQueue.items, processedToolCalls, session.attempts, session.failures);
              && (err.None? && sentOne.None? ==> d == rest)
              && (err.None? && sentOne.Some? ==> d == Prepend([sentOne.value], sentOne.value.ToolResponse?, rest))
              && (err.Some? ==> d == DrainOutcome([], 0, processedToolCalls, toolResultsQueue.items, 1, d.toolFlag, err))
      ensures err.Some? ==> sentOne.None?
      ensures session.log == old(session.log) + (if sentOne.Some? then [sentOne.value] else [])
      ensures session.attempts == old(session.attempts) + (if sentOne.Some? || err.Some? then 1 else 0)
      ensures isToolResponse == (old(isToolResponse) || (sentOne.Some? && sentOne.value.ToolResponse?)
                                 || (err.Some? && DrainFrom(old(toolResultsQueue.items), old(processedToolCalls),
                                                            old(session.attempts), session.failures).toolFlag))
      ensures speechState == old(speechState)
      ensures |toolResultsQueue.items| < |old(toolResultsQueue.items)|
    {
      sentOne, err := None, None;
      ghost var items0, p0, k0, failures := toolResultsQueue.items, processedToolCalls, session.attempts, session.failures;
      ghost var d := DrainFrom(items0, p0, k0, failures);
      var item := toolResultsQueue.Get();
      match item {
        case FunctionResult(fr) =>
          var toolCallId := DedupKey(fr);
          if toolCallId in processedToolCalls {
            assert d == DrainFrom(items0[1..], p0, k0, failures);
            return;
          }
          isToolResponse := true;
          err := session.Send(ToolResponse([fr]));
          if err.None? {
            processedToolCalls := processedToolCalls + {toolCallId};
            sentOne := Some(ToolResponse([fr]));
            assert d == Prepend([ToolResponse([fr])], true, DrainFrom(items0[1..], p0 + {toolCallId}, k0 + 1, failures));
          } else {
            assert d == DrainOutcome([], 0, p0, items0[1..], 1, true, err);
          }
        case SystemMessage(c) =>
          err := session.Send(ClientContent([c]));
          if err.None? {
            sentOne := Some(ClientContent([c]));
            assert d == Prepend([ClientContent([c])], false, DrainFrom(items0[1..], p0, k0 + 1, failures));
          } else {
            assert d == DrainOutcome([], 0, p0, items0[1..], 1, false, err);
          }
      }
    }

    /**
     * `_check_speech_completion_and_deliver_responses` at time `now`: drain
     * the queue exactly when the speech gap is open.
     */
    method CheckSpeechCompletion(now: int, session: Channel<UpstreamMsg>) returns (err: Option<string>)
      modifies this, toolResultsQueue, session
      ensures !SpeechGapOpen(old(speechState), old(toolResultsQueue.items) == [], now) ==>
                && err.None? && session.log == old(session.log) && session.attempts == old(session.attempts)
                && toolResultsQueue.items == old(toolResultsQueue.items)
                && processedToolCalls == old(processedToolCalls) && isToolResponse == old(isToolResponse)
                && speechState == old(speechState)
      ensures SpeechGapOpen(old(speechState), old(toolResultsQueue.items) == [], now) ==>
                var d := DrainFrom(old(toolResultsQueue.items), old(processedToolCalls), old(session.attempts), session.failures);
                && session.log == old(session.log) + d.sent
                && session.attempts == old(session.attempts) + d.attempts
                && toolResultsQueue.items == d.remaining
                && processedToolCalls == d.processed
                && isToolResponse == (old(isToolResponse) || d.toolFlag)
                && err == d.err
                && speechState == if err.None? then AfterDelivery(old(speechState), d.count) else old(speechState)
    {
      err := None;
      if !speechState.isGeminiSpeaking || toolResultsQueue.items == [] {
        return;
      }
      if speechState.lastAudioTimestamp.Some? {
        var timeSinceAudio := now - speechState.lastAudioTimestamp.value;
        if timeSinceAudio > SPEECH_COMPLETION_THRESHOLD_MS {
          err := DeliverQueuedToolResponses(session);
        }
      }
    }

    /**
     * The post-processing of one event in `handle_gemini_responses`: on
     * turn complete, clear the tool-response flag and drain the queue; then,
     * unless that drain raised, the speech-gap check, as `PostProcess`
     * says. A drain's send failure is returned.
     */
    method AfterResponse(r: Response, now: int, session: Channel<UpstreamMsg>) returns (err: Option<string>)
      modifies this, toolResultsQueue, session
      ensures (PostViewOf(session), err) == PostProcess(old(PostViewOf(session)), TurnComplete(r), now, session.failures)
      ensures old(processedToolCalls) <= processedToolCalls
      ensures old(session.log) <= session.log
    {
      ghost var v0 := PostViewOf(session);
      err := None;
      if TurnComplete(r) {
        if isToolResponse {
          isToolResponse := false;
        }
        assert PostViewOf(session) == v0.(toolFlag := false);
        err := DeliverQueuedToolResponses(session);
        assert (PostViewOf(session), err) == Drained(v0.(toolFlag := false), session.failures);
        if err.Some? {
          return;
        }
      }
      ghost var v1 := PostViewOf(session);
      err := CheckSpeechCompletion(now, session);
      assert (PostViewOf(session), err)
             == if SpeechGapOpen(v1.speech, v1.items == [], now) then Drained(v1, session.failures) else (v1, None);
    }

    ghost function PostViewOf(session: Channel<UpstreamMsg>): PostView
      reads this, toolResultsQueue, session
    {
      PostView(session.log, session.attempts, toolResultsQueue.items, processedToolCalls, isToolResponse, speechState)
    }

    /** The audio branch of `_process_response`: track the speech, then hand the chunk to the audio processor. */
    method HandleAudio(audioData: bytes, now: int, correlationId: string, ws: Channel<ClientFrame>)
      requires Valid()
      modifies this, sessionState, sessionState.geminiAudioBuffer, ws
      ensures Valid()
      ensures speechState == AudioEvent(old(speechState), now)
      ensures isToolResponse == old(isToolResponse) && processedToolCalls == old(processedToolCalls)
      ensures old(sessionState.clientReadyForAudio) ==> sessionState.clientReadyForAudio
      ensures sessionState.audioSequenceCounter == old(sessionState.audioSequenceCounter) + 1
      ensures sessionState.ConversationFields() == old(sessionState.ConversationFields())
      ensures AudioResponseEffect(old(audioProcessor.View(ws)), audioProcessor.View(ws),
                                  !old(sessionState.clientReadyForAudio)
                                  && now - sessionState.connectionStartTime > Config.BUFFER_TIMEOUT_MS,
                                  sessionState.geminiAudioBuffer.maxSize, audioData, now, correlationId, disableVad, ws.failures)
    {
      if !speechState.isGeminiSpeaking {
        speechState := speechState.(isGeminiSpeaking := true, speechStartTime := Some(now));
      }
      speechState := speechState.(lastAudioTimestamp := Some(now));
      audioProcessor.ProcessAudioResponse(audioData, now, correlationId, disableVad, ws);
    }

    /** `_handle_server_content`: interruption, then the transcripts; other content is only logged. */
    method HandleServerContent(sc: ServerContent, ws: Channel<ClientFrame>, ids: IdSource)
      requires Valid()
      modifies sessionState, ws, ids
      ensures Valid()
      ensures StateOf(sessionState, ids) == Step(old(StateOf(sessionState, ids)), sc).state
      ensures sessionState.clientReadyForAudio == old(sessionState.clientReadyForAudio)
      ensures sessionState.audioSequenceCounter == old(sessionState.audioSequenceCounter)
      ensures sessionState.currentSessionHandle == old(sessionState.currentSessionHandle)
      ensures !sc.interrupted ==>
                var r := Step(old(StateOf(sessionState, ids)), sc);
                && ws.log == old(ws.log) + Survivors(r.frames, old(ws.attempts), ws.failures)
                && ws.attempts == old(ws.attempts) + |r.frames|
      ensures sc.interrupted && !isToolResponse && old(ws.attempts) !in ws.failures ==>
                |ws.log| > |old(ws.log)| && ws.log[|old(ws.log)|] == InterruptPlayback
    {
      if sc.interrupted {
        HandleInterruption(ws);
      }
      transcriptionProcessor.ProcessTranscriptions(sc, ws, ids);
    }

    /**
     * `_process_response` for one event at time `now`: session updates,
     * then exactly one of audio, server content, tool call or error, as
     * `RouteOf` decides.
     */
    method ProcessResponse(r: Response, now: int, correlationId: string,
                           ws: Channel<ClientFrame>, ids: IdSource)
      requires Valid()
      modifies this, sessionState, sessionState.geminiAudioBuffer, ws, ids, toolProcessor
      ensures Valid()
      ensures sessionState.currentSessionHandle == HandleAfterUpdates(old(sessionState.currentSessionHandle), r)
      ensures speechState == if r.data.Some? then AudioEvent(old(speechState), now) else old(speechState)
      ensures isToolResponse == old(isToolResponse) && processedToolCalls == old(processedToolCalls)
      ensures old(sessionState.clientReadyForAudio) ==> sessionState.clientReadyForAudio
      ensures sessionState.audioSequenceCounter
              == old(sessionState.audioSequenceCounter) + (if RouteOf(r) == AudioRoute then 1 else 0)
      ensures RouteOf(r) == ContentRoute ==>
                StateOf(sessionState, ids) == Step(old(StateOf(sessionState, ids)), r.serverContent.value).state
      ensures RouteOf(r) != ContentRoute ==> StateOf(sessionState, ids) == old(StateOf(sessionState, ids))
      ensures toolProcessor.backgroundTasks
              == old(toolProcessor.backgroundTasks)
                 + (if RouteOf(r) == ToolCallRoute then TasksFor(r.toolCall.value.functionCalls) else [])
      ensures RouteOf(r) == ErrorRoute ==>
                ws.log == old(ws.log) + Survivors([ErrorFrame(r.error.value)], old(ws.attempts), ws.failures)
      ensures RouteOf(r) == ToolCallRoute || RouteOf(r) == UnknownRoute ==>
                ws.log == old(ws.log) && ws.attempts == old(ws.attempts)
                && sessionState.activeProcessing == old(sessionState.activeProcessing)
    {
      HandleSessionUpdates(r);
      if r.data.Some? {
        HandleAudio(r.data.value, now, correlationId, ws);
      } else if r.serverContent.Some? {
        HandleServerContent(r.serverContent.value, ws, ids);
      } else if r.toolCall.Some? {
        toolProcessor.ProcessToolCall(r.toolCall.value);
      } else if r.error.Some? {
        HandleError(r.error.value, ws);
      }
    }

    /**
     * `handle_gemini_responses` over the events the live session delivers:
     * while processing is active, each event is processed and then
     * post-processed; a send that raises during a drain ends the loop and
     * is returned, and on the way out processing stops in any case.
     * Running out of events stands for the loop's task being cancelled.
     * `activeAfter` records, for each event handled, whether processing was
     * still active after it.
     */
    method HandleGeminiResponses(arrivals: seq<Arrival>, ws: Channel<ClientFrame>, ids: IdSource,
                                 session: Channel<UpstreamMsg>) returns (err: Option<string>, ghost activeAfter: seq<bool>)
      requires Valid()
      modifies this, sessionState, sessionState.geminiAudioBuffer, ws, ids, toolProcessor, toolResultsQueue, session
      ensures Valid()
      ensures !sessionState.activeProcessing
      ensures |activeAfter| <= |arrivals|
      ensures activeAfter != [] ==> old(sessionState.activeProcessing)
      ensures forall j :: 0 <= j < |activeAfter| - 1 ==> activeAfter[j]
      ensures |activeAfter| < |arrivals| ==>
                || !old(sessionState.activeProcessing)
                || err.Some?
                || (activeAfter != [] && !activeAfter[|activeAfter| - 1])
      ensures err.Some? ==>
                && activeAfter != []
                && old(session.attempts) < session.attempts
                && session.attempts - 1 in session.failures
                && err.value == session.failures[session.attempts - 1]
      ensures old(sessionState.clientReadyForAudio) ==> sessionState.clientReadyForAudio
      ensures old(sessionState.audioSequenceCounter) <= sessionState.audioSequenceCounter
      ensures old(processedToolCalls) <= processedToolCalls
      ensures old(session.log) <= session.log
      ensures !old(sessionState.activeProcessing) ==>
                && activeAfter == [] && err.None? && session.log == old(session.log) && ws.log == old(ws.log)
                && speechState == old(speechState) && processedToolCalls == old(processedToolCalls)
    {
      err := None;
      activeAfter := [];
      var i := 0;
      while i < |arrivals| && sessionState.activeProcessing
        invariant 0 <= i <= |arrivals| && |activeAfter| == i
        invariant Valid()
        invariant err.None?
        invariant i == 0 ==> sessionState.activeProcessing == old(sessionState.activeProcessing)
        invariant i > 0 ==> old(sessionState.activeProcessing) && activeAfter[i - 1] == sessionState.activeProcessing
        invariant forall j :: 0 <= j < i - 1 ==> activeAfter[j]
        invariant old(sessionState.clientReadyForAudio) ==> sessionState.clientReadyForAudio
        invariant old(sessionState.audioSequenceCounter) <= sessionState.audioSequenceCounter
        invariant old(processedToolCalls) <= processedToolCalls
        invariant old(session.log) <= session.log
        invariant old(session.attempts) <= session.attempts
        invariant !old(sessionState.activeProcessing) ==>
                    && session.log == old(session.log) && ws.log == old(ws.log)
                    && speechState == old(speechState) && processedToolCalls == old(processedToolCalls)
        decreases |arrivals| - i
      {
        err := HandleArrival(arrivals[i], ws, ids, session);
        activeAfter := activeAfter + [sessionState.activeProcessing];
        i := i + 1;
        if err.Some? {
          break;
        }
      }
      sessionState.activeProcessing := false;
    }

    /**
     * One turn of the receive loop: `_process_response`, then the
     * post-processing, which sees the speech state the event left.
     */
    method HandleArrival(a: Arrival, ws: Channel<ClientFrame>, ids: IdSource, session: Channel<UpstreamMsg>)
      returns (err: Option<string>)
      requires Valid()
      modifies this, sessionState, sessionState.geminiAudioBuffer, ws, ids, toolProcessor, toolResultsQueue, session
      ensures Valid()
      ensures sessionState.currentSessionHandle == HandleAfterUpdates(old(sessionState.currentSessionHandle), a.response)
      ensures RouteOf(a.response) == ContentRoute ==>
                StateOf(sessionState, ids) == Step(old(StateOf(sessionState, ids)), a.response.serverContent.value).state
      ensures toolProcessor.backgroundTasks
              == old(toolProcessor.backgroundTasks)
                 + (if RouteOf(a.response) == ToolCallRoute then TasksFor(a.response.toolCall.value.functionCalls) else [])
      ensures var heard := if a.response.data.Some? then AudioEvent(old(speechState), a.now) else old(speechState);
              (PostViewOf(session), err)
              == PostProcess(old(PostViewOf(session)).(speech := heard), TurnComplete(a.response), a.now, session.failures)
      ensures err.Some? ==>
                && old(session.attempts) < session.attempts
                && session.attempts - 1 in session.failures
                && err.value == session.failures[session.attempts - 1]
      ensures old(sessionState.clientReadyForAudio) ==> sessionState.clientReadyForAudio
      ensures old(sessionState.audioSequenceCounter) <= sessionState.audioSequenceCounter
      ensures old(processedToolCalls) <= processedToolCalls
      ensures old(session.log) <= session.log && old(session.attempts) <= session.attempts
    {
      ProcessResponse(a.response, a.now, a.correlationId, ws, ids);
      err := AfterResponse(a.response, a.now, session);
    }
  }
}
