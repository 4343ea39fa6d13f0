/** What the outside world provides to the core: tools, the LLM, the JSON decoder, the clock and
    container rendering, each as an oracle; and the result record a step produces. */
module Oracles {
  import opened Wrappers
  import opened Values
  import opened Exceptions

  /** A tool capability: `name`, `description` and an `execute(parameters)` that returns a value
      or raises. */
  datatype Tool = Tool(name: string, description: string, execute: Value -> Result<Value, Exc>)

  /** One completion request. The prompt wording, model, temperature and token budget are fixed by
      the call site, so a request is identified by its call site and the data it embeds. */
  datatype Request =
    | PlanRequest(task: string, context: string)
    | StepRequest(step: string, memory: string)
    | SummaryRequest(task: string, steps: string)

  datatype Env = Env(
    /** `complete_async`: the reply text, or `None` when the upstream call failed. */
    complete: Request -> Option<string>,
    /** `json.loads`: the decoded value, or the message of the `JSONDecodeError` it raised. */
    loadJson: string -> Result<Value, string>,
    /** `datetime.now().isoformat()` at the n-th clock reading. */
    now: nat -> string,
    /** `repr` of a list or dict, as the interpreter renders it inside an f-string. */
    repr: Value -> string)
}

/** The result dictionary `execute_step` returns, as one variant per way a step can end. */
module StepResults {
  import opened Wrappers
  import opened Values

  /** The fixed parts of the messages a step result carries. */
  const UnableToExecute := "Unable to execute step: Tool "
  const NotAvailable := " is not available."
  const ErrorExecuting := "Error executing tool "

  datatype StepResult =
      /** The tool name (possibly `None`) is not in the executor's registry. */
    | ToolMissing(requested: Value)
    | ToolSucceeded(tool: string, parameters: Value, output: Value)
      /** The tool raised one of the caught exception kinds; `message` is `str(e)`. */
    | ToolFailed(tool: string, parameters: Value, message: string)
      /** A reasoning step; the completion reply, `None` on an upstream failure. */
    | Reasoned(response: Option<string>)
  {
    /** `result["status"]`. */
    function Status(): string {
      if ToolMissing? || ToolFailed? then "error" else "success"
    }

    /** `result["output"]`. */
    function Output(repr: Value -> string): Value {
      match this
      case ToolMissing(t) =>
        String(UnableToExecute + Format(t, repr) + NotAvailable)
      case ToolSucceeded(_, _, out) => out
      case ToolFailed(t, _, m) => String(ErrorExecuting + t + ": " + m)
      case Reasoned(resp) => ReplyValue(resp)
    }

    /** `result.get("error")`. */
    function Error(repr: Value -> string): Option<string> {
      match this
      case ToolMissing(t) => Some("Tool " + Format(t, repr) + " not found")
      case ToolFailed(_, _, m) => Some(m)
      case _ => None
    }

    /** `result.get("tool_used")`. */
    function ToolUsed(): Option<string> {
      match this
      case ToolSucceeded(t, _, _) => Some(t)
      case ToolFailed(t, _, _) => Some(t)
      case _ => None
    }

    /** `result.get("thinking")`. */
    function Thinking(): Option<Value> {
      if Reasoned? then Some(ReplyValue(response)) else None
    }

    /** The keys of the result dictionary. */
    function Keys(): set<string> {
      match this
      case ToolMissing(_) => {"status", "error", "output"}
      case ToolSucceeded(_, _, _) => {"status", "output", "tool_used", "tool_parameters"}
      case ToolFailed(_, _, _) => {"status", "error", "output", "tool_used", "tool_parameters"}
      case Reasoned(_) => {"status", "output", "thinking"}
    }
  }

  /** A completion reply as a Python value: the text, or `None`. */
  function ReplyValue(reply: Option<string>): Value {
    match reply
    case Some(t) => String(t)
    case None => Null
  }

  /** A result reports an error exactly when it carries an `error` key. */
  lemma ErrorKeyMatchesStatus(r: StepResult, repr: Value -> string)
    ensures r.Status() == "error" <==> "error" in r.Keys()
    ensures r.Status() == "error" <==> r.Error(repr).Some?
    ensures "tool_used" in r.Keys() <==> r.ToolUsed().Some?
  {
  }
}
