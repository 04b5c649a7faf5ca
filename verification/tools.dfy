/**
 * The tool manager the generator is handed, as an oracle: it runs a tool by
 * name with keyword arguments and keeps the list of calls it has been asked
 * to run, in order.
 */
module Tools {
  import opened Wrappers
  import opened GenAI

  /** What running a tool returns, or the exception it raises. */
  type Executor = (string, map<string, Value>) -> Result<Value, Exception>

  class ToolManager {
    const execute: Executor
    var invocations: seq<FunctionCall>

    constructor (execute: Executor)
      ensures this.execute == execute && invocations == []
    {
      this.execute := execute;
      invocations := [];
    }

    /** `tool_manager.execute_tool(name, **args)`. */
    method ExecuteTool(name: string, args: map<string, Value>) returns (r: Result<Value, Exception>)
      modifies this
      ensures invocations == old(invocations) + [FunctionCall(name, args)]
      ensures r == execute(name, args)
    {
      invocations := invocations + [FunctionCall(name, args)];
      r := execute(name, args);
    }
  }
}
