/**
 * `AIGenerator`: answers one user query with at most two calls to the Gemini
 * provider. The first call may offer tools; if the model asks for function
 * calls and a tool manager was given, every call is run in order, the results
 * are sent back in one user turn, tools are removed from the config, and the
 * text of a second and final call is the answer.
 *
 * `Orchestrate` is the reference definition of one `generate_response`: the
 * answer, the requests the provider receives and the tool invocations, as a
 * function of the provider's and the tools' behaviour. The class's methods are
 * proved to produce exactly that trace; the lemmas at the end state what the
 * trace looks like on each path.
 */
module Orchestrator {
  import opened Wrappers
  import opened GenAI
  import opened Tools
  import opened Prompt
  import opened ToolDeclarations

  /** `temperature=0`: deterministic sampling. */
  const Temperature: real := 0.0

  /** `max_output_tokens=800`. */
  const MaxOutputTokens: int := 800

  /** Python truthiness of the `tools` argument: neither `None` nor the empty list. */
  predicate HasTools(tools: Option<seq<ToolDefinition>>)
  {
    tools.Some? && tools.value != []
  }

  /** `types.Content(role="user", parts=[types.Part(text=query)])`. */
  function UserMessage(query: string): Content
  {
    Content("user", [TextPart(query)])
  }

  /** `types.Part.from_function_response(name=call.name, response={"result": result})`. */
  function ToolResponse(call: FunctionCall, result: Value): Part
  {
    FunctionResponsePart(call.name, map["result" := result])
  }

  /** `response.text` of a provider call, or the exception the call raised. */
  function TextOf(reply: Result<Response, Exception>): Result<Option<string>, Exception>
  {
    match reply
    case Success(response) => Success(response.text)
    case Failure(e) => Failure(e)
  }

  /** The calls handed to the tool manager, and the response parts built, or the exception that ended the loop. */
  datatype ToolRun = ToolRun(invoked: seq<FunctionCall>, outcome: Result<seq<Part>, Exception>)

  /**
   * The loop of `_handle_tool_execution`: each call is run in order and its
   * result becomes one function-response part; the first call that raises ends
   * the loop, and no later call is run.
   */
  function RunTools(execute: Executor, calls: seq<FunctionCall>): (run: ToolRun)
    ensures run.invoked <= calls
    ensures run.outcome.Success? <==> forall i :: 0 <= i < |calls| ==> execute(calls[i].name, calls[i].args).Success?
    ensures run.outcome.Success? ==>
      && run.invoked == calls
      && |run.outcome.value| == |calls|
      && forall i :: 0 <= i < |calls| ==>
           run.outcome.value[i] == ToolResponse(calls[i], execute(calls[i].name, calls[i].args).value)
    ensures run.outcome.Failure? ==>
      && 0 < |run.invoked|
      && (forall i :: 0 <= i < |run.invoked| - 1 ==> execute(calls[i].name, calls[i].args).Success?)
      && var last := calls[|run.invoked| - 1];
         execute(last.name, last.args) == Failure(run.outcome.error)
    decreases |calls|
  {
    if calls == [] then ToolRun([], Success([]))
    else
      var prefix := calls[..|calls| - 1];
      assert forall i :: 0 <= i < |prefix| ==> prefix[i] == calls[i];
      var prior := RunTools(execute, prefix);
      match prior.outcome
      case Failure(_) => prior
      case Success(parts) =>
        var call := calls[|calls| - 1];
        match execute(call.name, call.args)
        case Failure(e) => ToolRun(calls, Failure(e))
        case Success(v) => ToolRun(calls, Success(parts + [ToolResponse(call, v)]))
  }

  /** The first call that raises is the last one run, and its exception is the one propagated. */
  lemma {:induction false} RunToolsStopsAtFirstFailure(execute: Executor, calls: seq<FunctionCall>, k: nat)
    requires k < |calls| && execute(calls[k].name, calls[k].args).Failure?
    requires forall i :: 0 <= i < k ==> execute(calls[i].name, calls[i].args).Success?
    ensures RunTools(execute, calls) == ToolRun(calls[..k + 1], Failure(execute(calls[k].name, calls[k].args).error))
    decreases |calls|
  {
    var prefix := calls[..|calls| - 1];
    assert forall i :: 0 <= i < |prefix| ==> prefix[i] == calls[i];
    if k < |calls| - 1 {
      RunToolsStopsAtFirstFailure(execute, prefix, k);
      assert prefix[..k + 1] == calls[..k + 1];
    } else {
      assert RunTools(execute, prefix).outcome.Success?;
    }
  }

  /** One more successful call extends the run by that call and its response part. */
  lemma RunToolsStep(execute: Executor, calls: seq<FunctionCall>, i: nat)
    requires i < |calls| && RunTools(execute, calls[..i]).outcome.Success?
    requires execute(calls[i].name, calls[i].args).Success?
    ensures RunTools(execute, calls[..i + 1])
         == ToolRun(calls[..i + 1], Success(RunTools(execute, calls[..i]).outcome.value
                                             + [ToolResponse(calls[i], execute(calls[i].name, calls[i].args).value)]))
  {
    assert calls[..i + 1][..i] == calls[..i];
  }

  /** A call that raises after a successful prefix ends the whole run there. */
  lemma RunToolsFailsAt(execute: Executor, calls: seq<FunctionCall>, i: nat)
    requires i < |calls| && RunTools(execute, calls[..i]).outcome.Success?
    requires execute(calls[i].name, calls[i].args).Failure?
    ensures RunTools(execute, calls) == ToolRun(calls[..i + 1], Failure(execute(calls[i].name, calls[i].args).error))
  {
    assert forall j :: 0 <= j < i ==> calls[..i][j] == calls[j];
    RunToolsStopsAtFirstFailure(execute, calls, i);
  }

  /** The config of the first call, or the `KeyError` raised while building its tools. */
  function InitialConfig(history: Option<string>, tools: Option<seq<ToolDefinition>>): (r: Result<ConfigSnapshot, Exception>)
    ensures r.Failure? <==> HasTools(tools) && GeminiTools(tools.value).Failure?
    ensures r.Failure? ==> r.error == GeminiTools(tools.value).error
    ensures r.Success? ==>
      && r.value.systemInstruction == SystemInstruction(history)
      && r.value.temperature == 0.0
      && r.value.maxOutputTokens == 800
      && (r.value.tools.Some? <==> HasTools(tools))
      && (HasTools(tools) ==> r.value.tools == Some(GeminiTools(tools.value).value))
  {
    var base := ConfigSnapshot(SystemInstruction(history), Temperature, MaxOutputTokens, None);
    if HasTools(tools) then
      match GeminiTools(tools.value)
      case Success(ts) => Success(base.(tools := Some(ts)))
      case Failure(e) => Failure(e)
    else Success(base)
  }

  /** The first provider request, or the `KeyError` raised before it is sent. */
  function InitialRequest(model: string, query: string, history: Option<string>, tools: Option<seq<ToolDefinition>>)
    : (r: Result<Request, Exception>)
    ensures r.Success? <==> InitialConfig(history, tools).Success?
    ensures r.Failure? ==> r.error == InitialConfig(history, tools).error
    ensures r.Success? ==>
      && r.value.model == model
      && r.value.contents == [Content("user", [TextPart(query)])]
      && r.value.config == InitialConfig(history, tools).value
  {
    match InitialConfig(history, tools)
    case Success(config) => Success(Request(model, [UserMessage(query)], config))
    case Failure(e) => Failure(e)
  }

  /** What one `generate_response` does: its answer, the requests sent, the tool calls run. */
  datatype Trace = Trace(answer: Result<Option<string>, Exception>, requests: seq<Request>, invocations: seq<FunctionCall>)

  /**
   * The rest of `generate_response` once the first request is built: the first
   * call, whose exception propagates, and then either the response's text or
   * the tool round of `_handle_tool_execution`.
   */
  function Conversation(respond: Responder, execute: Option<Executor>, first: Request): (t: Trace)
    ensures 1 <= |t.requests| <= 2 && t.requests[0] == first
    ensures |t.requests| == 2 ==>
      && respond(first).Success?
      && t.requests[1].model == first.model
      && t.requests[1].config == first.config.(tools := None)
      && |t.requests[1].contents| == |first.contents| + 2
      && t.requests[1].contents[..|first.contents|] == first.contents
      && t.requests[1].contents[|first.contents|] == respond(first).value.content
    ensures t.invocations != [] ==> execute.Some? && respond(first).Success?
                                    && t.invocations <= respond(first).value.functionCalls
    ensures t.answer.Success? ==> respond(t.requests[|t.requests| - 1]).Success?
                                  && t.answer.value == respond(t.requests[|t.requests| - 1]).value.text
  {
    match respond(first)
    case Failure(e) => Trace(Failure(e), [first], [])
    case Success(response) =>
      if response.functionCalls != [] && execute.Some? then
        var run := RunTools(execute.value, response.functionCalls);
        match run.outcome
        case Failure(e) => Trace(Failure(e), [first], run.invoked)
        case Success(parts) =>
          var followUp := Request(first.model, first.contents + [response.content, Content("user", parts)],
                                  first.config.(tools := None));
          Trace(TextOf(respond(followUp)), [first, followUp], run.invoked)
      else
        Trace(Success(response.text), [first], [])
  }

  /**
   * The reference definition of `generate_response`. `execute` is `None` when
   * no tool manager is given.
   */
  function Orchestrate(
    respond: Responder, execute: Option<Executor>, model: string,
    query: string, history: Option<string>, tools: Option<seq<ToolDefinition>>): (t: Trace)
    ensures 1 <= |t.requests| <==> InitialRequest(model, query, history, tools).Success?
    ensures 1 <= |t.requests| ==> t.requests[0] == InitialRequest(model, query, history, tools).value
    ensures |t.requests| <= 2
    ensures |t.requests| == 2 ==> t.requests[1].config.tools.None?
    ensures t.invocations != [] ==> execute.Some?
    ensures t.answer.Success? ==> 1 <= |t.requests| && respond(t.requests[|t.requests| - 1]).Success?
                                  && t.answer.value == respond(t.requests[|t.requests| - 1]).value.text
  {
    match InitialRequest(model, query, history, tools)
    case Failure(e) => Trace(Failure(e), [], [])
    case Success(first) => Conversation(respond, execute, first)
  }

  /** The `contents` list that `generate_response` builds and `_handle_tool_execution` appends to. */
  class History {
    var messages: seq<Content>

    constructor (messages: seq<Content>)
      ensures this.messages == messages
    {
      this.messages := messages;
    }

    /** `contents.append(message)`. */
    method Append(message: Content)
      modifies this
      ensures messages == old(messages) + [message]
    {
      messages := messages + [message];
    }
  }

  class AIGenerator {
    const client: Client
    const model: string

    /** `AIGenerator(api_key, model)`; the client is handed in instead of built from the key. */
    constructor (client: Client, model: string)
      ensures this.client == client && this.model == model
    {
      this.client := client;
      this.model := model;
    }

    /** `_build_gemini_tools`: one declaration appended per definition, then a single `Tool` around them. */
    method BuildGeminiTools(tools: seq<ToolDefinition>) returns (r: Result<seq<Tool>, Exception>)
      ensures r == GeminiTools(tools)
    {
      var declarations: seq<FunctionDeclaration> := [];
      for i := 0 to |tools|
        invariant Declarations(tools[..i]) == Success(declarations)
      {
        var def := tools[i];
        if !WellFormed(def) {
          DeclarationsFailAtFirstMalformed(tools, i);
          return Failure(KeyError(MissingKey(def)));
        }
        declarations := declarations + [FunctionDeclaration(def["name"], def["description"], def["parameters"])];
        assert tools[..i + 1][..i] == tools[..i];
      }
      assert tools[..|tools|] == tools;
      r := Success([Tool(declarations)]);
    }

    /**
     * The first part of `generate_response`: the system instruction, a config
     * with temperature 0 and an 800-token cap, and the converted tools when
     * `tools` is non-empty.
     */
    method BuildConfig(conversationHistory: Option<string>, tools: Option<seq<ToolDefinition>>)
      returns (r: Result<GenerateContentConfig, Exception>)
      ensures r.Success? <==> InitialConfig(conversationHistory, tools).Success?
      ensures r.Failure? ==> r.error == InitialConfig(conversationHistory, tools).error
      ensures r.Success? ==> fresh(r.value) && r.value.Snapshot() == InitialConfig(conversationHistory, tools).value
    {
      var systemInstruction := SystemInstruction(conversationHistory);
      var config := new GenerateContentConfig(systemInstruction, Temperature, MaxOutputTokens);
      if HasTools(tools) {
        var built := BuildGeminiTools(tools.value);
        if built.Failure? {
          return Failure(built.error);
        }
        config.tools := Some(built.value);
      }
      r := Success(config);
    }

    /**
     * `generate_response`: the answer, the requests the client receives and the
     * tool calls the manager runs are exactly those of `Orchestrate`.
     */
    method GenerateResponse(
      query: string, conversationHistory: Option<string>,
      tools: Option<seq<ToolDefinition>>, toolManager: ToolManager?)
      returns (r: Result<Option<string>, Exception>)
      modifies client, toolManager
      ensures
        var t := Orchestrate(client.respond, if toolManager == null then None else Some(toolManager.execute),
                             model, query, conversationHistory, tools);
        && r == t.answer
        && client.requests == old(client.requests) + t.requests
        && (toolManager != null ==> toolManager.invocations == old(toolManager.invocations) + t.invocations)
    {
      var configured := BuildConfig(conversationHistory, tools);
      if configured.Failure? {
        return Failure(configured.error);
      }
      var config := configured.value;
      var contents := new History([UserMessage(query)]);
      assert InitialRequest(model, query, conversationHistory, tools) == Success(Request(model, contents.messages, config.Snapshot()));
      r := Converse(contents, config, toolManager);
    }

    /**
     * The end of `generate_response`: the first provider call, whose exception
     * propagates; then, with function calls and a tool manager, the tool round
     * of `_handle_tool_execution`, and otherwise the response's text.
     */
    method Converse(contents: History, config: GenerateContentConfig, toolManager: ToolManager?)
      returns (r: Result<Option<string>, Exception>)
      modifies contents, config, client, toolManager
      ensures
        var t := Conversation(client.respond, if toolManager == null then None else Some(toolManager.execute),
                              Request(model, old(contents.messages), old(config.Snapshot())));
        && r == t.answer
        && client.requests == old(client.requests) + t.requests
        && (toolManager != null ==> toolManager.invocations == old(toolManager.invocations) + t.invocations)
        && (|t.requests| == 2 ==> contents.messages == t.requests[1].contents && config.Snapshot() == t.requests[1].config)
        && (t.invocations == [] ==> contents.messages == old(contents.messages) && config.Snapshot() == old(config.Snapshot()))
        && (|t.requests| == 1 && t.invocations != [] ==>
              && contents.messages == old(contents.messages) + [client.respond(t.requests[0]).value.content]
              && config.Snapshot() == old(config.Snapshot()))
    {
      var response := client.GenerateContent(model, contents.messages, config.Snapshot());
      if response.Failure? {
        return Failure(response.error);
      }
      if response.value.functionCalls != [] && toolManager != null {
        r := HandleToolExecution(response.value, contents, config, toolManager);
        return;
      }
      r := Success(response.value.text);
    }

    /**
     * `_handle_tool_execution`: appends the model's turn, runs every call in
     * order, appends one user turn with the results, clears `config.tools` and
     * makes the final call. An exception from a tool ends it after the model's
     * turn is appended, with no further call.
     */
    method HandleToolExecution(
      initialResponse: Response, contents: History, config: GenerateContentConfig, toolManager: ToolManager)
      returns (r: Result<Option<string>, Exception>)
      modifies contents, config, client, toolManager
      ensures
        var run := RunTools(toolManager.execute, initialResponse.functionCalls);
        && toolManager.invocations == old(toolManager.invocations) + run.invoked
        && (run.outcome.Failure? ==>
              && r == Failure(run.outcome.error)
              && contents.messages == old(contents.messages) + [initialResponse.content]
              && config.Snapshot() == old(config.Snapshot())
              && client.requests == old(client.requests))
        && (run.outcome.Success? ==>
              var followUp := Request(model, old(contents.messages) + [initialResponse.content, Content("user", run.outcome.value)],
                                      old(config.Snapshot()).(tools := None));
              && contents.messages == followUp.contents
              && config.Snapshot() == followUp.config
              && client.requests == old(client.requests) + [followUp]
              && r == TextOf(client.respond(followUp)))
    {
      contents.Append(initialResponse.content);
      var outcome := ExecuteToolCalls(initialResponse.functionCalls, toolManager);
      if outcome.Failure? {
        return Failure(outcome.error);
      }
      contents.Append(Content("user", outcome.value));
      config.tools := None;
      var finalResponse := client.GenerateContent(model, contents.messages, config.Snapshot());
      r := TextOf(finalResponse);
    }

    /**
     * The loop of `_handle_tool_execution`: `execute_tool` is called once per
     * function call, in order, with that call's name and arguments, and each
     * result becomes one function-response part; an exception leaves the loop
     * at once.
     */
    method ExecuteToolCalls(calls: seq<FunctionCall>, toolManager: ToolManager)
      returns (outcome: Result<seq<Part>, Exception>)
      modifies toolManager
      ensures toolManager.invocations == old(toolManager.invocations) + RunTools(toolManager.execute, calls).invoked
      ensures outcome == RunTools(toolManager.execute, calls).outcome
    {
      var toolResponseParts: seq<Part> := [];
      for i := 0 to |calls|
        invariant toolManager.invocations == old(toolManager.invocations) + calls[..i]
        invariant RunTools(toolManager.execute, calls[..i]) == ToolRun(calls[..i], Success(toolResponseParts))
      {
        var call := calls[i];
        var result := toolManager.ExecuteTool(call.name, call.args);
        assert FunctionCall(call.name, call.args) == call;
        assert calls[..i + 1] == calls[..i] + [call];
        assert toolManager.invocations == old(toolManager.invocations) + calls[..i + 1];
        if result.Failure? {
          RunToolsFailsAt(toolManager.execute, calls, i);
          return Failure(result.error);
        }
        RunToolsStep(toolManager.execute, calls, i);
        toolResponseParts := toolResponseParts + [ToolResponse(call, result.value)];
      }
      assert calls[..|calls|] == calls;
      outcome := Success(toolResponseParts);
    }
  }

  // ---------------------------------------------------------------------------
  // What the trace looks like on each path
  // ---------------------------------------------------------------------------

  /**
   * The first request: the query as the only message, temperature 0, an
   * 800-token cap, the system instruction for the history, and tools attached
   * exactly when the `tools` argument is non-empty.
   */
  lemma InitialRequestShape(model: string, query: string, history: Option<string>, tools: Option<seq<ToolDefinition>>)
    requires HasTools(tools) ==> forall i :: 0 <= i < |tools.value| ==> WellFormed(tools.value[i])
    ensures InitialRequest(model, query, history, tools).Success?
    ensures
      var first := InitialRequest(model, query, history, tools).value;
      && first.model == model
      && first.contents == [Content("user", [TextPart(query)])]
      && first.config.systemInstruction == SystemInstruction(history)
      && first.config.temperature == 0.0
      && first.config.maxOutputTokens == 800
      && (first.config.tools.Some? <==> HasTools(tools))
      && (HasTools(tools) ==> first.config.tools == Some(GeminiTools(tools.value).value))
  {
    if HasTools(tools) {
      GeminiToolsShape(tools.value);
    }
  }

  /** A malformed tool definition raises its `KeyError` before any provider call or tool call. */
  lemma ConfigurationErrorMakesNoCall(
    respond: Responder, execute: Option<Executor>, model: string,
    query: string, history: Option<string>, tools: Option<seq<ToolDefinition>>, k: nat)
    requires tools.Some? && k < |tools.value| && !WellFormed(tools.value[k])
    requires forall i :: 0 <= i < k ==> WellFormed(tools.value[i])
    ensures Orchestrate(respond, execute, model, query, history, tools)
         == Trace(Failure(KeyError(MissingKey(tools.value[k]))), [], [])
  {
    DeclarationsFailAtFirstMalformed(tools.value, k);
  }

  /** A provider failure on the first call propagates; nothing else happens. */
  lemma FirstCallFailurePropagates(
    respond: Responder, execute: Option<Executor>, model: string,
    query: string, history: Option<string>, tools: Option<seq<ToolDefinition>>, first: Request, e: Exception)
    requires InitialRequest(model, query, history, tools) == Success(first)
    requires respond(first) == Failure(e)
    ensures Orchestrate(respond, execute, model, query, history, tools) == Trace(Failure(e), [first], [])
  {
  }

  /**
   * Without function calls, or without a tool manager, exactly one provider
   * call is made, no tool is run, and its text is returned unchanged.
   */
  lemma DirectAnswer(
    respond: Responder, execute: Option<Executor>, model: string,
    query: string, history: Option<string>, tools: Option<seq<ToolDefinition>>, first: Request, response: Response)
    requires InitialRequest(model, query, history, tools) == Success(first)
    requires respond(first) == Success(response)
    requires response.functionCalls == [] || execute.None?
    ensures Orchestrate(respond, execute, model, query, history, tools) == Trace(Success(response.text), [first], [])
  {
  }

  /**
   * The tool round: every call is run once, in order, with its own name and
   * arguments; the second request sees [query, the model's turn verbatim, one
   * user turn with one result part per call, in order], with the same config
   * except that tools are removed; its text, whatever it holds, is the answer.
   */
  lemma ToolRound(
    respond: Responder, execute: Executor, model: string,
    query: string, history: Option<string>, tools: Option<seq<ToolDefinition>>, first: Request, response: Response)
    requires InitialRequest(model, query, history, tools) == Success(first)
    requires respond(first) == Success(response)
    requires response.functionCalls != []
    requires forall i :: 0 <= i < |response.functionCalls| ==>
      execute(response.functionCalls[i].name, response.functionCalls[i].args).Success?
    ensures
      var calls := response.functionCalls;
      var t := Orchestrate(respond, Some(execute), model, query, history, tools);
      && t.invocations == calls
      && |t.requests| == 2
      && t.requests[0] == first
      && t.requests[1].model == model
      && t.requests[1].config == first.config.(tools := None)
      && |t.requests[1].contents| == 3
      && t.requests[1].contents[0] == Content("user", [TextPart(query)])
      && t.requests[1].contents[1] == response.content
      && t.requests[1].contents[2].role == "user"
      && |t.requests[1].contents[2].parts| == |calls|
      && (forall i :: 0 <= i < |calls| ==>
            t.requests[1].contents[2].parts[i]
            == FunctionResponsePart(calls[i].name, map["result" := execute(calls[i].name, calls[i].args).value]))
      && t.answer == TextOf(respond(t.requests[1]))
  {
    assert first.contents == [UserMessage(query)];
  }

  /**
   * A tool that raises is not contained: the calls up to and including it are
   * run, later ones are not, no second provider call is made, and its
   * exception is what `generate_response` raises.
   */
  lemma ToolFailurePropagates(
    respond: Responder, execute: Executor, model: string,
    query: string, history: Option<string>, tools: Option<seq<ToolDefinition>>, first: Request, response: Response,
    k: nat)
    requires InitialRequest(model, query, history, tools) == Success(first)
    requires respond(first) == Success(response)
    requires k < |response.functionCalls|
    requires execute(response.functionCalls[k].name, response.functionCalls[k].args).Failure?
    requires forall i :: 0 <= i < k ==> execute(response.functionCalls[i].name, response.functionCalls[i].args).Success?
    ensures
      var call := response.functionCalls[k];
      Orchestrate(respond, Some(execute), model, query, history, tools)
      == Trace(Failure(execute(call.name, call.args).error), [first], response.functionCalls[..k + 1])
  {
    RunToolsStopsAtFirstFailure(execute, response.functionCalls, k);
  }

  /**
   * On every input: at most two provider calls; only the first may offer
   * tools, and the second differs from it only in its contents and in having
   * no tools; tools are run only between the two calls, never more than the
   * model asked for.
   */
  lemma AtMostTwoCalls(
    respond: Responder, execute: Option<Executor>, model: string,
    query: string, history: Option<string>, tools: Option<seq<ToolDefinition>>)
    ensures
      var t := Orchestrate(respond, execute, model, query, history, tools);
      && |t.requests| <= 2
      && (|t.requests| == 2 ==> t.requests[1].config == t.requests[0].config.(tools := None)
                                && t.requests[1].model == t.requests[0].model)
      && (t.invocations != [] ==> |t.requests| >= 1 && respond(t.requests[0]).Success?
                                  && t.invocations <= respond(t.requests[0]).value.functionCalls)
  {
  }
}
