/**
 * Conversion of the tool manager's tool definitions (plain dicts) into the one
 * Gemini `Tool` that wraps their function declarations.
 */
module ToolDeclarations {
  import opened Wrappers
  import opened GenAI

  /** A tool definition dict, as the tool manager lists them. */
  type ToolDefinition = map<string, Value>

  /** A definition that has every key a declaration is built from. */
  predicate WellFormed(def: ToolDefinition)
  {
    "name" in def && "description" in def && "parameters" in def
  }

  /**
   * The key whose lookup raises `KeyError` first: Python evaluates the keyword
   * arguments `name`, `description`, `parameters` in that order.
   */
  function MissingKey(def: ToolDefinition): (key: string)
    requires !WellFormed(def)
    ensures key !in def
    ensures key == "name" || key == "description" || key == "parameters"
    ensures "name" !in def ==> key == "name"
    ensures "name" in def && "description" !in def ==> key == "description"
  {
    if "name" !in def then "name" else if "description" !in def then "description" else "parameters"
  }

  /** `types.FunctionDeclaration(name=d["name"], description=d["description"], parameters=d["parameters"])`. */
  function Declaration(def: ToolDefinition): (r: Result<FunctionDeclaration, Exception>)
    ensures r.Success? <==> WellFormed(def)
    ensures r.Success? ==>
      r.value.name == def["name"] && r.value.description == def["description"] && r.value.parameters == def["parameters"]
    ensures r.Failure? ==> r.error == KeyError(MissingKey(def))
  {
    if WellFormed(def) then Success(FunctionDeclaration(def["name"], def["description"], def["parameters"]))
    else Failure(KeyError(MissingKey(def)))
  }

  /**
   * The declarations list that the loop of `_build_gemini_tools` accumulates:
   * one declaration per definition, in order, copying the three fields; the
   * first malformed definition raises.
   */
  function Declarations(defs: seq<ToolDefinition>): (r: Result<seq<FunctionDeclaration>, Exception>)
    ensures r.Success? <==> forall i :: 0 <= i < |defs| ==> WellFormed(defs[i])
    ensures r.Success? ==> |r.value| == |defs|
    ensures r.Success? ==> forall i :: 0 <= i < |defs| ==>
      r.value[i] == FunctionDeclaration(defs[i]["name"], defs[i]["description"], defs[i]["parameters"])
    ensures r.Failure? ==> exists k :: 0 <= k < |defs| && !WellFormed(defs[k]) && r.error == KeyError(MissingKey(defs[k]))
    decreases |defs|
  {
    if defs == [] then Success([])
    else
      var prefix := defs[..|defs| - 1];
      assert forall i :: 0 <= i < |prefix| ==> prefix[i] == defs[i];
      match Declarations(prefix)
      case Failure(e) => Failure(e)
      case Success(ds) =>
        match Declaration(defs[|defs| - 1])
        case Failure(e) => Failure(e)
        case Success(d) => Success(ds + [d])
  }

  /** `_build_gemini_tools`: a list holding exactly one `Tool`, which wraps the declarations. */
  function GeminiTools(defs: seq<ToolDefinition>): (r: Result<seq<Tool>, Exception>)
    ensures r.Success? <==> Declarations(defs).Success?
    ensures r.Success? ==> |r.value| == 1 && r.value[0].functionDeclarations == Declarations(defs).value
    ensures r.Failure? ==> r.error == Declarations(defs).error
  {
    match Declarations(defs)
    case Success(ds) => Success([Tool(ds)])
    case Failure(e) => Failure(e)
  }

  /** The exception raised is the `KeyError` of the FIRST malformed definition. */
  lemma {:induction false} DeclarationsFailAtFirstMalformed(defs: seq<ToolDefinition>, k: nat)
    requires k < |defs| && !WellFormed(defs[k])
    requires forall i :: 0 <= i < k ==> WellFormed(defs[i])
    ensures Declarations(defs) == Failure(KeyError(MissingKey(defs[k])))
    decreases |defs|
  {
    var prefix := defs[..|defs| - 1];
    assert forall i :: 0 <= i < |prefix| ==> prefix[i] == defs[i];
    if k < |defs| - 1 {
      DeclarationsFailAtFirstMalformed(prefix, k);
    } else {
      assert Declarations(prefix).Success?;
    }
  }

  /**
   * Exactly one `Tool`, whose declaration list matches the definitions one to
   * one and in order; it fails exactly when some definition lacks a key.
   */
  lemma GeminiToolsShape(defs: seq<ToolDefinition>)
    ensures GeminiTools(defs).Success? <==> forall i :: 0 <= i < |defs| ==> WellFormed(defs[i])
    ensures GeminiTools(defs).Success? ==>
      var tools := GeminiTools(defs).value;
      && |tools| == 1
      && |tools[0].functionDeclarations| == |defs|
      && forall i :: 0 <= i < |defs| ==>
           tools[0].functionDeclarations[i] == FunctionDeclaration(defs[i]["name"], defs[i]["description"], defs[i]["parameters"])
    ensures GeminiTools(defs).Failure? ==> GeminiTools(defs).error.KeyError?
  {
  }
}
