/**
 * The parts of the Gemini client library (`google.genai` and `google.genai.types`)
 * that the generator touches, as plain values, plus the client itself as an
 * oracle that records every request it is sent.
 */
module GenAI {
  import opened Wrappers

  /** A JSON-like value: tool arguments, tool results and parameter schemas. */
  datatype Value =
    | Null
    | Bool(b: bool)
    | Int(i: int)
    | Float(r: real)
    | Str(s: string)
    | List(items: seq<Value>)
    | Object(fields: map<string, Value>)

  /** An exception raised by a collaborator, or a missing key in a dict lookup. */
  datatype Exception =
    | KeyError(key: string)
    | ProviderError(message: string)
    | ToolError(message: string)

  /** A function call the model asks for: `fn_call.name` and `fn_call.args`. */
  datatype FunctionCall = FunctionCall(name: string, args: map<string, Value>)

  /** `types.Part`: a text part, a function call, or a function response. */
  datatype Part =
    | TextPart(text: string)
    | FunctionCallPart(call: FunctionCall)
    | FunctionResponsePart(name: string, response: map<string, Value>)

  /** `types.Content`: one turn of the conversation. */
  datatype Content = Content(role: string, parts: seq<Part>)

  /** `types.FunctionDeclaration`; the fields hold whatever the tool definition held. */
  datatype FunctionDeclaration = FunctionDeclaration(name: Value, description: Value, parameters: Value)

  /** `types.Tool`: a wrapper around a list of declarations. */
  datatype Tool = Tool(functionDeclarations: seq<FunctionDeclaration>)

  /** The fields of a `types.GenerateContentConfig` at the moment it is sent. */
  datatype ConfigSnapshot = ConfigSnapshot(
    systemInstruction: string,
    temperature: real,
    maxOutputTokens: int,
    tools: Option<seq<Tool>>)

  /**
   * A `GenerateContentResponse`, reduced to what the generator reads:
   * `response.text`, `response.function_calls` (an absent list is the empty
   * sequence) and `response.candidates[0].content`.
   */
  datatype Response = Response(text: Option<string>, functionCalls: seq<FunctionCall>, content: Content)

  /** One `generate_content` call as the provider receives it. */
  datatype Request = Request(model: string, contents: seq<Content>, config: ConfigSnapshot)

  /** The provider's behaviour: a reply, or an exception, for each request. */
  type Responder = Request -> Result<Response, Exception>

  /** `types.GenerateContentConfig`, a mutable object: its `tools` field is reassigned. */
  class GenerateContentConfig {
    var systemInstruction: string
    var temperature: real
    var maxOutputTokens: int
    var tools: Option<seq<Tool>>

    constructor (systemInstruction: string, temperature: real, maxOutputTokens: int)
      ensures Snapshot() == ConfigSnapshot(systemInstruction, temperature, maxOutputTokens, None)
    {
      this.systemInstruction := systemInstruction;
      this.temperature := temperature;
      this.maxOutputTokens := maxOutputTokens;
      this.tools := None;
    }

    /** What a request built from this config carries. */
    function Snapshot(): ConfigSnapshot
      reads this
    {
      ConfigSnapshot(systemInstruction, temperature, maxOutputTokens, tools)
    }
  }

  /**
   * `genai.Client`, as an oracle: it answers each request with `respond` and
   * keeps the list of requests it has been sent, in order.
   */
  class Client {
    const respond: Responder
    var requests: seq<Request>

    constructor (respond: Responder)
      ensures this.respond == respond && requests == []
    {
      this.respond := respond;
      requests := [];
    }

    /** `client.models.generate_content(model=..., contents=..., config=...)`. */
    method GenerateContent(model: string, contents: seq<Content>, config: ConfigSnapshot)
      returns (r: Result<Response, Exception>)
      modifies this
      ensures requests == old(requests) + [Request(model, contents, config)]
      ensures r == respond(Request(model, contents, config))
    {
      var request := Request(model, contents, config);
      requests := requests + [request];
      r := respond(request);
    }
  }
}
