/**
 * The per-connection session record, the table of callable tools, and the
 * effect of task cleanup on the session (backend/app/handlers/websocket_handler.py).
 */
module WebSocketHandling {
  import opened Base
  import opened Protocol
  import opened AudioUtils
  import Config

  /**
   * The `session_state` dict shared by the handlers of one connection.
   * Its two buffers are never replaced, only mutated.
   */
  class SessionState {
    const connectionStartTime: int
    var currentSessionHandle: Option<string>
    var clientReadyForAudio: bool
    const micAudioBuffer: AudioBuffer
    const geminiAudioBuffer: AudioBuffer
    var audioSequenceCounter: nat
    var activeProcessing: bool
    var currentUserUtteranceId: Option<UtteranceId>
    var accumulatedUserSpeechText: string
    var currentModelUtteranceId: Option<UtteranceId>
    var accumulatedModelSpeechText: string

    ghost predicate Valid()
      reads this, micAudioBuffer, geminiAudioBuffer
    {
      && micAudioBuffer != geminiAudioBuffer
      && micAudioBuffer.Valid()
      && geminiAudioBuffer.Valid()
    }

    /** The fields the audio path never writes: the resumption handle and both utterances. */
    ghost function ConversationFields(): (Option<string>, Option<UtteranceId>, string, Option<UtteranceId>, string)
      reads this
    {
      (currentSessionHandle, currentUserUtteranceId, accumulatedUserSpeechText,
       currentModelUtteranceId, accumulatedModelSpeechText)
    }

    /** `_initialize_session_state(connection_start_time)`. */
    constructor (connectionStartTime: int)
      ensures Valid()
      ensures fresh(micAudioBuffer) && fresh(geminiAudioBuffer)
      ensures this.connectionStartTime == connectionStartTime
      ensures currentSessionHandle == None
      ensures !clientReadyForAudio && audioSequenceCounter == 0 && activeProcessing
      ensures currentUserUtteranceId == None && accumulatedUserSpeechText == ""
      ensures currentModelUtteranceId == None && accumulatedModelSpeechText == ""
      ensures micAudioBuffer.buffer == [] && micAudioBuffer.maxSize == Config.MAX_BUFFER_SIZE
      ensures geminiAudioBuffer.buffer == [] && geminiAudioBuffer.maxSize == Config.MAX_BUFFER_SIZE
    {
      this.connectionStartTime := connectionStartTime;
      currentSessionHandle := None;
      clientReadyForAudio := false;
      micAudioBuffer := new AudioBuffer(None);
      geminiAudioBuffer := new AudioBuffer(None);
      audioSequenceCounter := 0;
      activeProcessing := true;
      currentUserUtteranceId := None;
      accumulatedUserSpeechText := "";
      currentModelUtteranceId := None;
      accumulatedModelSpeechText := "";
    }
  }

  /** The tool implementations a connection can call. */
  datatype ToolImpl =
    | TakeANap
    | NameCorrectionAgent
    | SpecialClaimAgent
    | EnquiryTool
    | EticketSenderAgent
    | ObservabilityAgent
    | DateChangeAgent
    | ConnectToHumanTool
    | BookingCancellationAgent
    | FlightBookingDetailsAgent
    | WebcheckinAndBoardingPassAgent
  {
    /** The name the implementation is defined under. */
    function Name(): string {
      match this
      case TakeANap => "take_a_nap"
      case NameCorrectionAgent => "NameCorrectionAgent"
      case SpecialClaimAgent => "SpecialClaimAgent"
      case EnquiryTool => "Enquiry_Tool"
      case EticketSenderAgent => "Eticket_Sender_Agent"
      case ObservabilityAgent => "ObservabilityAgent"
      case DateChangeAgent => "DateChangeAgent"
      case ConnectToHumanTool => "Connect_To_Human_Tool"
      case BookingCancellationAgent => "Booking_Cancellation_Agent"
      case FlightBookingDetailsAgent => "Flight_Booking_Details_Agent"
      case WebcheckinAndBoardingPassAgent => "Webcheckin_And_Boarding_Pass_Agent"
    }
  }

  /** The ten-entry map of the tool registry module, which lacks `take_a_nap`. */
  function RegistryFunctions(): map<string, ToolImpl> {
    map[
      "NameCorrectionAgent" := NameCorrectionAgent,
      "SpecialClaimAgent" := SpecialClaimAgent,
      "Enquiry_Tool" := EnquiryTool,
      "Eticket_Sender_Agent" := EticketSenderAgent,
      "ObservabilityAgent" := ObservabilityAgent,
      "DateChangeAgent" := DateChangeAgent,
      "Connect_To_Human_Tool" := ConnectToHumanTool,
      "Booking_Cancellation_Agent" := BookingCancellationAgent,
      "Flight_Booking_Details_Agent" := FlightBookingDetailsAgent,
      "Webcheckin_And_Boarding_Pass_Agent" := WebcheckinAndBoardingPassAgent]
  }

  /** `WebSocketHandler.available_functions`. */
  function AvailableFunctions(): (m: map<string, ToolImpl>)
    ensures forall name :: name in m ==> m[name].Name() == name
    ensures forall t: ToolImpl :: t.Name() in m && m[t.Name()] == t
  {
    map[
      "take_a_nap" := TakeANap,
      "NameCorrectionAgent" := NameCorrectionAgent,
      "SpecialClaimAgent" := SpecialClaimAgent,
      "Enquiry_Tool" := EnquiryTool,
      "Eticket_Sender_Agent" := EticketSenderAgent,
      "ObservabilityAgent" := ObservabilityAgent,
      "DateChangeAgent" := DateChangeAgent,
      "Connect_To_Human_Tool" := ConnectToHumanTool,
      "Booking_Cancellation_Agent" := BookingCancellationAgent,
      "Flight_Booking_Details_Agent" := FlightBookingDetailsAgent,
      "Webcheckin_And_Boarding_Pass_Agent" := WebcheckinAndBoardingPassAgent]
  }

  /** The connection's table is the registry's plus `take_a_nap`. */
  lemma AvailableExtendsRegistry()
    ensures "take_a_nap" !in RegistryFunctions()
    ensures AvailableFunctions() == RegistryFunctions()["take_a_nap" := TakeANap]
  {
  }

  /** The connection's table holds one entry per implementation, eleven in all. */
  lemma AvailableFunctionsSize()
    ensures |AvailableFunctions()| == 11
  {
    var r := RegistryFunctions();
    assert |r.Keys| == 10;
    AvailableExtendsRegistry();
  }

  /** `_cleanup_tasks`, as far as the session sees it: processing stops before any task is cancelled. */
  method CleanupTasks(s: SessionState)
    modifies s
    ensures !s.activeProcessing
    ensures s.clientReadyForAudio == old(s.clientReadyForAudio)
    ensures s.audioSequenceCounter == old(s.audioSequenceCounter)
    ensures s.currentSessionHandle == old(s.currentSessionHandle)
    ensures s.currentUserUtteranceId == old(s.currentUserUtteranceId)
    ensures s.accumulatedUserSpeechText == old(s.accumulatedUserSpeechText)
    ensures s.currentModelUtteranceId == old(s.currentModelUtteranceId)
    ensures s.accumulatedModelSpeechText == old(s.accumulatedModelSpeechText)
  {
    s.activeProcessing := false;
  }
}
