/** `StepExecutor` (agent/execution/executor.py): runs one plan step, either by calling a tool from
    its own registry or by asking the LLM to reason about the step with the recent memory as
    context. It reads the memory log and nothing else of the agent's state, and writes nothing:
    the memory log is its only input from the state and a result its only output. */
module Executor {
  import opened Wrappers
  import opened Values
  import opened Exceptions
  import opened Oracles
  import opened StepResults
  import opened State

  /** A step executor and the registry it looks tools up in. */
  datatype StepExecutor = StepExecutor(registry: map<string, Tool>)

  /** `StepExecutor(tools_registry)`: `tools_registry or {}`, so no registry means an empty one. */
  function NewExecutor(registry: Option<map<string, Tool>>): (e: StepExecutor)
    ensures registry.None? ==> e.registry.Keys == {}
    ensures registry.Some? ==> e.registry == registry.value
  {
    StepExecutor(if registry.Some? then registry.value else map[])
  }

  /** The tool a step names: `step.get("tool_name")`. */
  function ToolName(step: Fields): Value {
    GetOr(step, "tool_name", Null)
  }

  /** The parameters a step passes: `step.get("tool_parameters", {})`. */
  function ToolParameters(step: Fields): Value {
    GetOr(step, "tool_parameters", Dict([]))
  }

  /** Whether `tool_name in registry` holds (only a string can equal a registry key). */
  predicate Registered(ex: StepExecutor, name: Value) {
    name.String? && name.s in ex.registry
  }

  /** `_execute_tool_step`. The registry lookup sits outside the `try`, so an unhashable name
      raises `TypeError` out of the executor; a registered tool's `ValueError`, `SyntaxError` or
      `TypeError` becomes an error result, and any other exception propagates. */
  function ToolStep(ex: StepExecutor, step: Fields): (r: Result<StepResult, Exc>)
    ensures var name, params := ToolName(step), ToolParameters(step);
      && (!Hashable(name) ==> r.Failure? && r.error.kind == TypeError)
      && (r == Success(ToolMissing(name)) <==> Hashable(name) && !Registered(ex, name))
      && (Registered(ex, name) ==>
            match ex.registry[name.s].execute(params)
            case Success(v) => r == Success(ToolSucceeded(name.s, params, v))
            case Failure(e) => r == (if Caught(e) then Success(ToolFailed(name.s, params, e.message)) else Failure(e)))
      && (r.Success? && (r.value.ToolSucceeded? || r.value.ToolFailed?) ==>
            Registered(ex, name) && r.value.tool == name.s && r.value.parameters == params)
      && (r.Success? ==> !r.value.Reasoned?)
  {
    var name := ToolName(step);
    var params := ToolParameters(step);
    if !Hashable(name) then Failure(Exc(TypeError, "unhashable type: '" + (if name.List? then "list" else "dict") + "'"))
    else if !Registered(ex, name) then Success(ToolMissing(name))
    else
      match ex.registry[name.s].execute(params)
      case Success(v) => Success(ToolSucceeded(name.s, params, v))
      case Failure(e) => if Caught(e) then Success(ToolFailed(name.s, params, e.message)) else Failure(e)
  }

  /** A memory entry as the reasoning prompt shows it: `"{type}: {content}"`. */
  function ContextLine(m: MemoryEntry): string {
    m.kind + ": " + m.content
  }

  /** The memory block of the reasoning prompt: the recent entries' lines joined by newlines. */
  function MemoryContext(recent: seq<MemoryEntry>): string {
    Join("\n", seq(|recent|, i requires 0 <= i < |recent| => ContextLine(recent[i])))
  }

  /** The completion request a reasoning step sends: the step's description and the memory block
      built from the last `DefaultRecentLimit` entries. */
  function StepPrompt(description: Value, memory: seq<MemoryEntry>, repr: Value -> string): Request {
    StepRequest(Format(description, repr), MemoryContext(RecentMemory(memory)))
  }

  /** `_execute_thinking_step`: always a success carrying the reply verbatim as both `output` and
      `thinking`, `None` included; only a step without a description raises (`KeyError`). */
  function ThinkingStep(step: Fields, memory: seq<MemoryEntry>, env: Env): (r: Result<StepResult, Exc>)
    ensures r.Failure? <==> !HasKey(step, "description")
    ensures r.Failure? ==> r.error == Exc(KeyError, "'description'")
    ensures r.Success? ==>
      var reply := env.complete(StepPrompt(Get(step, "description").value, memory, env.repr));
      && r.value == Reasoned(reply)
      && r.value.Status() == "success"
      && r.value.Output(env.repr) == ReplyValue(reply)
      && r.value.Thinking() == Some(ReplyValue(reply))
  {
    match Get(step, "description")
    case None => Failure(Exc(KeyError, "'description'"))
    case Some(d) => Success(Reasoned(env.complete(StepPrompt(d, memory, env.repr))))
  }

  /** `execute_step`: a truthy `requires_tool` takes the tool branch; a missing or falsy one takes
      the reasoning branch. */
  function ExecuteStep(ex: StepExecutor, step: Fields, memory: seq<MemoryEntry>, env: Env): (r: Result<StepResult, Exc>)
    ensures Truthy(GetOr(step, "requires_tool", Bool(false))) ==> r == ToolStep(ex, step)
    ensures !Truthy(GetOr(step, "requires_tool", Bool(false))) ==> r == ThinkingStep(step, memory, env)
    ensures r.Success? && r.value.Reasoned? <==> !Truthy(GetOr(step, "requires_tool", Bool(false))) && HasKey(step, "description")
  {
    if Truthy(GetOr(step, "requires_tool", Bool(false))) then ToolStep(ex, step)
    else ThinkingStep(step, memory, env)
  }

  /** The reasoning prompt shows the last `min(10, |memory|)` entries, each as "{type}: {content}",
      and nothing when the log is empty. */
  lemma PromptShowsRecentMemory(description: Value, memory: seq<MemoryEntry>, repr: Value -> string)
    ensures var shown := if |memory| < DefaultRecentLimit then |memory| else DefaultRecentLimit;
      forall i :: |memory| - shown <= i < |memory| ==>
        Contains(StepPrompt(description, memory, repr).memory, ContextLine(memory[i]))
    ensures memory == [] ==> StepPrompt(description, memory, repr).memory == ""
  {
    var recent := RecentMemory(memory);
    var lines := seq(|recent|, i requires 0 <= i < |recent| => ContextLine(recent[i]));
    forall i | |memory| - |recent| <= i < |memory|
      ensures Contains(StepPrompt(description, memory, repr).memory, ContextLine(memory[i]))
    {
      var k := i - (|memory| - |recent|);
      assert recent[k] == memory[i];
      JoinContainsEachLine("\n", lines, k);
    }
  }

  /** With an empty registry, a tool step never reaches a tool: it reports the tool missing, or
      raises `TypeError` for an unhashable name. */
  lemma EmptyRegistryRunsNoTool(ex: StepExecutor, step: Fields, memory: seq<MemoryEntry>, env: Env)
    requires ex.registry.Keys == {}
    requires Truthy(GetOr(step, "requires_tool", Bool(false)))
    ensures var r := ExecuteStep(ex, step, memory, env);
      || r == Success(ToolMissing(ToolName(step)))
      || (r.Failure? && r.error.kind == TypeError && !Hashable(ToolName(step)))
  {
  }

  /** An unregistered tool's result: status "error", the "not found" message, no `tool_used`. */
  lemma MissingToolResult(name: Value, repr: Value -> string)
    ensures var r := ToolMissing(name);
      && r.Status() == "error"
      && r.Error(repr) == Some("Tool " + Format(name, repr) + " not found")
      && r.Output(repr) == String("Unable to execute step: Tool " + Format(name, repr) + " is not available.")
      && "tool_used" !in r.Keys()
  {
  }
}
