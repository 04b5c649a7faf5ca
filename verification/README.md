# AIGenerator: one query, at most two Gemini calls

A Dafny model of `AIGenerator` from `backend/ai_generator.py`, the class that answers one
user query through Google's Gemini API, optionally letting the model call tools in between.

The model covers three parts:

- **The system instruction** (module `Prompt`). It is the fixed `SYSTEM_PROMPT` on its own. When a
  non-empty conversation history is given, the prompt is followed by `"\n\nPrevious conversation:\n"`
  and the history, verbatim. `SYSTEM_PROMPT` is an uninterpreted constant. Its wording has no
  bearing on behaviour, and no proof depends on it.
- **Tool-declaration conversion** (module `ToolDeclarations`, method `AIGenerator.BuildGeminiTools`).
  Each tool-definition dict becomes one `FunctionDeclaration`, in order. Each declaration copies the
  definition's `name`, `description` and `parameters`. All the declarations are wrapped in a single
  `Tool`. A definition that lacks one of those keys raises `KeyError`. The key named is the first
  one missing, in the order Python evaluates the keyword arguments.
- **The protocol** (module `Orchestrator`). It is modelled by the class `AIGenerator`. Its methods
  `GenerateResponse` and `HandleToolExecution` model `generate_response` and
  `_handle_tool_execution`, and `BuildGeminiTools` models `_build_gemini_tools`. Three more methods are parts of them, each given its
  own method:
  - `BuildConfig`: the system instruction and the config (lines 66-81 of `generate_response`);
  - `Converse`: the first provider call and what follows it (lines 87-98);
  - `ExecuteToolCalls`: the loop of `_handle_tool_execution` (lines 117-128).

  The methods work over mutable objects:
  - the `contents` list, as class `History`;
  - the `GenerateContentConfig`, whose `tools` field is set and then cleared;
  - the Gemini client, as class `Client`, which records every request in order;
  - the tool manager, as class `ToolManager`, which records every `execute_tool` call in order.

  The provider and the tools are oracles: functions from a request, or from a name and arguments,
  to a reply or a raised exception. Exceptions are `Failure` values of a `Result`.

The function `Orchestrate` is the reference definition of one `generate_response`. It gives the
answer (or exception), the list of requests the provider receives, and the list of tool calls run.
`Conversation` is its part from the first request on. `GenerateResponse` is proved to produce
exactly the trace of `Orchestrate`, and `Converse` exactly that of `Conversation`. The lemmas state
the trace on each path:
- a configuration error;
- a provider error;
- a direct answer;
- a completed tool round;
- a tool that raises.

They also state the bound that holds on all inputs: at most two provider calls, and only the first
may carry tools.

`SystemInstruction` is a Dafny function, so the system instruction is deterministic by construction.

Two facts about the code shape the model:

- **Tool failures are not contained.** `execute_tool` (lines 119-122) is called with no
  `try`/`except` around it. Its exception propagates out of `generate_response`, later calls are
  not run and no second provider call is made (`ToolFailurePropagates`).
- **Tools are attached only when `tools` is truthy** (line 80). `None` and `[]` both leave
  `config.tools` unset (`InitialRequestShape`).

## Model

| member | source | states |
|---|---|---|
| `Prompt.SystemInstruction` | backend/ai_generator.py:66-70 | The instruction always starts with the prompt. It equals the prompt exactly when the history is `None` or empty. |
| `Prompt.PreviousConversation` | backend/ai_generator.py:67 | Reading back a history section yields a non-empty history. The instruction is then the prompt, the "Previous conversation" header and that history. |
| `Prompt.SystemInstructionRoundTrip` | backend/ai_generator.py:66-70 | The history is embedded verbatim: it can be recovered exactly. An absent or empty history leaves no section. |
| `Prompt.SystemInstructionInjective` | backend/ai_generator.py:66-70 | Different non-empty histories give different instructions. `None` and `""` give the same one. |
| `ToolDeclarations.MissingKey` | backend/ai_generator.py:41-45 | The `KeyError` names a key that is absent: `name`, else `description`, else `parameters`. |
| `ToolDeclarations.Declaration` | backend/ai_generator.py:41-45 | A declaration is built exactly when the definition has `name`, `description` and `parameters`, and it copies those three values. Otherwise the `KeyError` names the first missing key. |
| `ToolDeclarations.Declarations` | backend/ai_generator.py:39-45 | It succeeds exactly when every definition has all three keys. On success there is one declaration per definition, in order, and declaration i copies definition i's fields. A failure is the `KeyError` of a malformed definition. |
| `ToolDeclarations.GeminiTools` | backend/ai_generator.py:37-46 | The result is a list of exactly one `Tool`, whose declarations are the accumulated list. It fails exactly when the loop raises, and with the same `KeyError`. |
| `ToolDeclarations.DeclarationsFailAtFirstMalformed` | backend/ai_generator.py:40-45 | The exception raised belongs to the first malformed definition. |
| `ToolDeclarations.GeminiToolsShape` | backend/ai_generator.py:37-46 | `_build_gemini_tools` returns exactly one `Tool`. Its declaration list has the input's length and order and copies each definition's fields. It fails, with a `KeyError`, exactly when a key is missing. |
| `Orchestrator.AIGenerator.BuildGeminiTools` | backend/ai_generator.py:37-46 | The loop that appends declarations returns exactly the one-`Tool` list of `GeminiTools`, or the first `KeyError`. |
| `Orchestrator.RunTools` | backend/ai_generator.py:117-128 | The calls run are a prefix of the requested calls. The loop succeeds exactly when every call succeeds. Then all calls are run, in order, and part i is call i's name with `{"result": result_i}`. Otherwise the last call run is the first that raised, and its exception is the one propagated. |
| `Orchestrator.RunToolsStopsAtFirstFailure` | backend/ai_generator.py:117-122 | If call k is the first to raise, exactly calls 0..k are run and call k's exception propagates. |
| `Orchestrator.RunToolsStep` | backend/ai_generator.py:118-128 | After a prefix of calls that all succeeded, one more successful call extends the run by that call and by one `{"result": …}` part for it. |
| `Orchestrator.RunToolsFailsAt` | backend/ai_generator.py:118-122 | After a prefix of calls that all succeeded, a call that raises ends the whole run: the calls run are the prefix and that call, and its exception is the result. |
| `Orchestrator.InitialConfig` | backend/ai_generator.py:66-81 | Building the config fails exactly when `tools` is non-empty and converting it raises, and then with that `KeyError`. Otherwise the config holds the system instruction for the history, temperature 0 and `max_output_tokens` 800. It carries tools exactly when `tools` is non-empty, and then they are `_build_gemini_tools`'s result. |
| `Orchestrator.InitialRequest` | backend/ai_generator.py:66-91 | The first request exists exactly when the config can be built, and otherwise the config's `KeyError` is raised. It uses the generator's model, its only message is one user turn holding the query, and its config is `InitialConfig`'s. |
| `Orchestrator.Conversation` | backend/ai_generator.py:87-142 | The first request is always sent, first, and at most one more follows. A second request uses the first's model and config except that `tools` is `None`. Its contents are the first's plus two turns, and the first of them is the model's turn verbatim. Tools run only after a successful first reply, and only a prefix of the calls it requested. A successful answer is the `text` of the reply to the last request sent. |
| `Orchestrator.Orchestrate` | backend/ai_generator.py:48-142 | A request is sent exactly when the config can be built, and the first one sent is `InitialRequest`. At most two are sent, and a second carries no tools. Tools run only when a tool manager is given. A successful answer is the `text` of the reply to the last request sent. |
| `Orchestrator.AIGenerator.BuildConfig` | backend/ai_generator.py:66-81 | The method returns a new config whose fields are exactly `InitialConfig`'s, or raises exactly `InitialConfig`'s `KeyError`. |
| `Orchestrator.AIGenerator.Converse` | backend/ai_generator.py:87-98 | Given the `contents` and config of the first request, the answer, the requests the client receives and the tool calls the manager runs are exactly those of `Conversation`. After a completed tool round, `contents` and the config are exactly the second request's. When no tool runs, both are left unchanged. When a tool raises, only the model's turn has been appended and the config is unchanged. |
| `Orchestrator.AIGenerator.ExecuteToolCalls` | backend/ai_generator.py:117-128 | The tool manager receives exactly the `RunTools` calls, in order, and the parts or exception returned are `RunTools`'s. |
| `Orchestrator.AIGenerator.HandleToolExecution` | backend/ai_generator.py:100-142 | The model's turn is appended first. If a tool raises, the exception propagates, no provider call is made and the config is unchanged. Otherwise one user turn with the ordered results is appended, `config.tools` becomes `None` and nothing else in the config changes. Exactly one provider call is made, seeing the whole history, and its text is returned. |
| `Orchestrator.AIGenerator.GenerateResponse` | backend/ai_generator.py:48-98 | The answer, the requests the client receives and the tool calls the manager runs are exactly those of `Orchestrate`. |
| `Orchestrator.InitialRequestShape` | backend/ai_generator.py:66-84 | The first request holds the query as the only message, one user turn with one text part. Its config has temperature 0, `max_output_tokens` 800 and the system instruction for the history. Tools are attached exactly when the `tools` argument is non-empty, and then they are `_build_gemini_tools`'s result. |
| `Orchestrator.ConfigurationErrorMakesNoCall` | backend/ai_generator.py:80-81 | A malformed tool definition raises the `KeyError` of the first malformed one. No provider or tool call is made. |
| `Orchestrator.FirstCallFailurePropagates` | backend/ai_generator.py:87-91 | An exception from the first provider call propagates after that one request. No tool is run. |
| `Orchestrator.DirectAnswer` | backend/ai_generator.py:87-98 | With no function calls, or no tool manager, exactly one provider call is made and no tool runs. The response's `text` is returned unchanged. |
| `Orchestrator.ToolRound` | backend/ai_generator.py:114-142 | When every tool succeeds, each requested call is run once, in order, with its own name and arguments. Exactly two provider calls are made. The second sees three messages: the query, the model's turn verbatim, and a user turn with one `{"result": …}` part per call, in order. Its config is the first's with `tools` set to `None`. Its text is the answer. |
| `Orchestrator.ToolFailurePropagates` | backend/ai_generator.py:117-122 | A tool that raises is not contained: calls after it are not run, no second provider call is made, and its exception is the result. |
| `Orchestrator.AtMostTwoCalls` | backend/ai_generator.py:48-142 | On every input there are at most two provider calls. A second call uses the same model and config as the first, except that it has no tools. Tools are run only after a successful first call and never beyond the calls it requested. |
| `Orchestrator.AIGenerator.constructor` | backend/ai_generator.py:33-35 | The generator keeps the client and model it is given. |
| `Orchestrator.History.Append` | backend/ai_generator.py:114 | `contents.append` adds exactly one message at the end. |
| `GenAI.GenerateContentConfig.constructor` | backend/ai_generator.py:73-77 | A new config carries the given instruction, temperature and token cap, and no tools. |
| `GenAI.Client.GenerateContent` | backend/ai_generator.py:87-91 | Each provider call appends its request (model, contents, config) to the client's record and returns the provider's reply to that request. |
| `Tools.ToolManager.ExecuteTool` | backend/ai_generator.py:119-122 | Each `execute_tool` call is recorded with its name and arguments, and returns the tool's result or exception. |

## Left out

- Building `genai.Client` from an API key (line 34) is not modelled. The generator is handed a client.
- The network is not modelled. A provider call is an oracle, `Responder`, that answers each request deterministically.
- The wording of `SYSTEM_PROMPT` (lines 9-31) is not modelled. It is an uninterpreted constant string.
- The internals of the `google.genai` types are not modelled: validation of `FunctionDeclaration` fields, how `response.text` is computed, how `response.function_calls` is derived from the first candidate. A response is a plain value holding `text`, the list of calls and the first candidate's content. So a response with calls but no candidate (an `IndexError` at line 114) cannot arise in the model.
- `fn_call.args` being `None` is not modelled. That would make `**fn_call.args` raise a `TypeError`. The arguments are always a map from names to values, and they stand in for the keyword splat.
- The truthiness of `tool_manager` is not modelled. Any tool manager object given is truthy, and only its absence (`null`) is falsy.
- The real tool manager's behaviour (how it finds and runs a tool) is not modelled. Here it is an oracle: class `ToolManager`, which records each `execute_tool` call and answers it with `execute`.
- `execute_tool` is modelled as a deterministic, stateless function of the tool name and arguments. A tool whose result depends on earlier calls, or on anything else that changes between calls, is not captured.
- Aliasing between `contents` or `config` and the client is not modelled. The client records a value snapshot of the list and the config at the moment of each call. It does not keep references that later mutations could change.
- Concurrency is not modelled. The source has none: each call owns its list and config.
