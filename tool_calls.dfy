/**
 * Tool calls requested by the live session
 * (backend/app/handlers/tool_call_processor.py): one background task per
 * call, the shaping of each call's outcome into a function response, and
 * the error response sent when the reply cannot be delivered.
 */
module ToolCalls {
  import opened Base
  import opened Protocol
  import opened Channels
  import opened WebSocketHandling

  /**
   * What awaiting a tool implementation produced: a string, any other
   * (dict) result, or an exception with its text. The implementations
   * themselves are not part of this model, so a call's outcome is a parameter.
   */
  datatype ToolOutcome =
    | ReturnedText(text: string)
    | ReturnedDict(dict: map<string, Json>)
    | Raised(message: string)

  /** The `{"status": "error", "message": ...}` response body. */
  function ErrorBody(message: string): (body: map<string, Json>)
    ensures body.Keys == {"status", "message"}
    ensures body["status"] == JStr("error") && body["message"] == JStr(message)
  {
    map["status" := JStr("error"), "message" := JStr(message)]
  }

  /** The message reported for a name that is not in the table. */
  function NotAvailableMessage(name: string): string {
    "Function " + name + " not implemented or available."
  }

  /**
   * `_execute_function_call`: look the name up; an unknown name, a string
   * result, a dict result and a raised exception each shape the response
   * body their own way. The response always answers the call it was made for.
   */
  function ExecuteFunctionCall(fc: FunctionCall, available: map<string, ToolImpl>, outcome: ToolOutcome): (r: FunctionResponse)
    ensures r.id == fc.id && r.name == fc.name
    ensures fc.name !in available ==> r.response == ErrorBody(NotAvailableMessage(fc.name))
    ensures fc.name in available ==>
              r.response == match outcome
                            case ReturnedText(s) => map["content" := JStr(s)]
                            case ReturnedDict(d) => d
                            case Raised(e) => ErrorBody(e)
  {
    var content :=
      if fc.name in available then
        match outcome
        case ReturnedText(s) => map["content" := JStr(s)]
        case ReturnedDict(d) => d
        case Raised(e) => ErrorBody(e)
      else
        ErrorBody(NotAvailableMessage(fc.name));
    FunctionResponse(fc.id, fc.name, content)
  }

  /** Whether a response body is shaped as an error report. */
  predicate IsErrorBody(body: map<string, Json>) {
    "status" in body && body["status"] == JStr("error")
  }

  /**
   * Unless the implementation itself returned a dict, the response reports
   * an error exactly when the name is unknown or the implementation raised;
   * a string result is always wrapped under "content" and can be read back.
   */
  lemma ErrorExactlyOnFailure(fc: FunctionCall, available: map<string, ToolImpl>, outcome: ToolOutcome)
    requires !outcome.ReturnedDict?
    ensures IsErrorBody(ExecuteFunctionCall(fc, available, outcome).response)
            <==> fc.name !in available || outcome.Raised?
    ensures fc.name in available && outcome.ReturnedText? ==>
              ExecuteFunctionCall(fc, available, outcome).response["content"] == JStr(outcome.text)
  {
    var body := ExecuteFunctionCall(fc, available, outcome).response;
    if fc.name in available && outcome.ReturnedText? {
      assert "status" !in body;
    }
  }

  /**
   * `take_a_nap` is callable through the connection's table, while a lookup
   * in the registry's map alone would report it as not available.
   */
  lemma TakeANapOnlyInConnectionTable(fc: FunctionCall, outcome: ToolOutcome)
    requires fc.name == "take_a_nap"
    ensures ExecuteFunctionCall(fc, RegistryFunctions(), outcome).response == ErrorBody(NotAvailableMessage(fc.name))
    ensures outcome.ReturnedText? ==>
              ExecuteFunctionCall(fc, AvailableFunctions(), outcome).response == map["content" := JStr(outcome.text)]
  {
    AvailableExtendsRegistry();
  }

  /** The prefix of the error text sent when a reply cannot be delivered. */
  const BACKGROUND_FAILURE := "Background execution failed: "

  /**
   * The upstream sends `_execute_and_respond_individual` attempts from
   * attempt `k`: the response, and when that send raises, one error
   * response carrying the exception's text.
   */
  function BackgroundAttempts(fc: FunctionCall, available: map<string, ToolImpl>, outcome: ToolOutcome,
                              k: nat, failures: map<nat, string>): (ms: seq<UpstreamMsg>)
    ensures 1 <= |ms| <= 2
    ensures ms[0] == ToolResponse([ExecuteFunctionCall(fc, available, outcome)])
    ensures |ms| == 2 <==> k in failures
  {
    var first := ToolResponse([ExecuteFunctionCall(fc, available, outcome)]);
    match Fault(failures, k)
    case None => [first]
    case Some(e) =>
      [first, ToolResponse([FunctionResponse(fc.id, fc.name, ErrorBody(BACKGROUND_FAILURE + e))])]
  }

  /**
   * Whatever fails, a call gets at most one response through, and it
   * answers that call; when the first send goes through, it is the shaped
   * response.
   */
  lemma BackgroundDeliversAtMostOne(fc: FunctionCall, available: map<string, ToolImpl>, outcome: ToolOutcome,
                                    k: nat, failures: map<nat, string>)
    ensures var sent := Survivors(BackgroundAttempts(fc, available, outcome, k, failures), k, failures);
            && |sent| <= 1
            && (forall m :: m in sent ==>
                  m.ToolResponse? && |m.functionResponses| == 1
                  && m.functionResponses[0].id == fc.id && m.functionResponses[0].name == fc.name)
            && (k !in failures ==> sent == [ToolResponse([ExecuteFunctionCall(fc, available, outcome)])])
  {
    var ms := BackgroundAttempts(fc, available, outcome, k, failures);
    if k in failures {
      assert Survivors(ms, k, failures) == Survivors(ms[1..], k + 1, failures);
      assert Survivors(ms[1..][1..], k + 2, failures) == [];
    } else {
      assert Survivors(ms[1..], k + 1, failures) == [];
    }
  }

  /** A task started for one call; `name` is that task's debugging name. */
  datatype Task = Task(name: string, call: FunctionCall)

  function TaskFor(fc: FunctionCall): Task {
    Task("FunctionExecution-" + fc.name + "-" + fc.id, fc)
  }

  /** One task per call, in call order. */
  function TasksFor(calls: seq<FunctionCall>): (ts: seq<Task>)
    ensures |ts| == |calls|
  {
    seq(|calls|, i requires 0 <= i < |calls| => TaskFor(calls[i]))
  }

  class ToolCallProcessor {
    const availableFunctions: map<string, ToolImpl>
    /** Every task started so far, in start order. */
    var backgroundTasks: seq<Task>

    constructor (availableFunctions: map<string, ToolImpl>)
      ensures this.availableFunctions == availableFunctions && backgroundTasks == []
    {
      this.availableFunctions := availableFunctions;
      backgroundTasks := [];
    }

    /**
     * `process_tool_call`: start one task per call, in order, without
     * waiting for any, and remember them beside the earlier ones.
     */
    method ProcessToolCall(toolCall: ToolCall)
      modifies this
      ensures backgroundTasks == old(backgroundTasks) + TasksFor(toolCall.functionCalls)
    {
      var tasks: seq<Task> := [];
      var i := 0;
      while i < |toolCall.functionCalls|
        invariant 0 <= i <= |toolCall.functionCalls|
        invariant |tasks| == i
        invariant forall j :: 0 <= j < i ==> tasks[j] == TaskFor(toolCall.functionCalls[j])
      {
        var task := TaskFor(toolCall.functionCalls[i]);
        tasks := tasks + [task];
        i := i + 1;
      }
      assert tasks == TasksFor(toolCall.functionCalls);
      backgroundTasks := backgroundTasks + tasks;
    }

    /**
     * `_execute_and_respond_individual`: shape the response and send it; if
     * that send raises, send an error response for the same call, and
     * swallow a failure of that one too.
     */
    method ExecuteAndRespondIndividual(fc: FunctionCall, outcome: ToolOutcome, session: Channel<UpstreamMsg>)
      modifies session
      ensures var ms := BackgroundAttempts(fc, availableFunctions, outcome, old(session.attempts), session.failures);
              && session.log == old(session.log) + Survivors(ms, old(session.attempts), session.failures)
              && session.attempts == old(session.attempts) + |ms|
    {
      ghost var k := session.attempts;
      var functionResponse := ExecuteFunctionCall(fc, availableFunctions, outcome);
      var err := session.Send(ToolResponse([functionResponse]));
      if err.Some? {
        var errorResponse := FunctionResponse(fc.id, fc.name, ErrorBody(BACKGROUND_FAILURE + err.value));
        var _ := session.Send(ToolResponse([errorResponse]));
        ghost var ms := BackgroundAttempts(fc, availableFunctions, outcome, k, session.failures);
        assert ms[1..][1..] == [];
      } else {
        ghost var ms := BackgroundAttempts(fc, availableFunctions, outcome, k, session.failures);
        assert ms[1..] == [];
      }
    }
  }
}
