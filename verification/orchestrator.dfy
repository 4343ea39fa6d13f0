/** The agent (agent/core/agent.py): it owns the state, a tool registry, a planner and a step
    executor, and `process_task` drives one task through PENDING, PLANNING, EXECUTING and
    COMPLETED: plan, run every step in order, record each result and a memory entry, and ask for
    a final summary. The executor is built with its own empty registry, so tools the agent
    registers never reach it. */
module Orchestrator {
  import opened Wrappers
  import opened Values
  import opened Exceptions
  import opened Oracles
  import opened StepResults
  import opened State
  import opened Planner
  import opened Executor
  import opened Calculator

  datatype Agent = Agent(state: AgentState, tools: map<string, Tool>, executor: StepExecutor)

  /** `Agent()`: a fresh state, a registry holding the calculator, and a `StepExecutor()` built
      without a registry. */
  function NewAgent(sem: Semantics): (a: Agent)
    ensures a.state.tasks == map[] && a.state.memory == [] && a.state.currentTaskId.None?
    ensures a.tools.Keys == {"calculator"} && a.tools["calculator"] == CalculatorTool(sem)
    ensures a.executor.registry.Keys == {}
  {
    var calculator := CalculatorTool(sem);
    var tools := map[calculator.name := calculator];
    assert tools.Keys == {"calculator"};
    Agent(InitialState(), tools, NewExecutor(None))
  }

  /** `register_tool(tool)`: only the agent's own registry changes. */
  function RegisterTool(a: Agent, tool: Tool): (r: Agent)
    ensures r.tools.Keys == a.tools.Keys + {tool.name}
    ensures r.tools[tool.name] == tool
    ensures forall n :: n in a.tools && n != tool.name ==> r.tools[n] == a.tools[n]
    ensures r.state == a.state
    ensures r.executor == a.executor
  {
    a.(tools := a.tools[tool.name := tool])
  }

  function RegisterAll(a: Agent, tools: seq<Tool>): Agent
    decreases |tools|
  {
    if tools == [] then a else RegisterAll(RegisterTool(a, tools[0]), tools[1..])
  }

  /** However many tools are registered after construction, the executor's registry stays empty. */
  lemma {:induction false} RegisteredToolsNeverReachExecutor(a: Agent, tools: seq<Tool>)
    requires a.executor.registry.Keys == {}
    ensures RegisterAll(a, tools).executor.registry.Keys == {}
    ensures RegisterAll(a, tools).state == a.state
    decreases |tools|
  {
    if tools != [] {
      RegisteredToolsNeverReachExecutor(RegisterTool(a, tools[0]), tools[1..]);
    }
  }

  // ---------------------------------------------------------------------------------------
  // Records of executed steps

  /** One element of the returned results list: `{"step": step, "result": result}`. */
  datatype StepRecord = StepRecord(step: Fields, result: StepResult)

  /** `step[key]`, raising `KeyError` when absent. */
  function Lookup(d: Fields, key: string): (r: Result<Value, Exc>)
    ensures r.Success? <==> HasKey(d, key)
    ensures r.Success? ==> Get(d, key) == Some(r.value)
    ensures r.Failure? ==> r.error.kind == KeyError
  {
    match Get(d, key)
    case Some(v) => Success(v)
    case None => Failure(Exc(KeyError, "'" + key + "'"))
  }

  /** `f"Step {step['step_id']}: {step['description']}"`. */
  function StepHeader(step: Fields, repr: Value -> string): (r: Result<string, Exc>)
    ensures r.Success? <==> HasKey(step, "step_id") && HasKey(step, "description")
  {
    var id :- Lookup(step, "step_id");
    var description :- Lookup(step, "description");
    Success("Step " + Format(id, repr) + ": " + Format(description, repr))
  }

  /** `f"Result: {result['output']}"`. */
  function ResultLine(result: StepResult, repr: Value -> string): string {
    "Result: " + Format(result.Output(repr), repr)
  }

  /** The content of the "execution" memory entry a step leaves: its header and its result line,
      on two lines. */
  function Note(step: Fields, result: StepResult, repr: Value -> string): (r: Result<string, Exc>)
    ensures r.Success? <==> StepHeader(step, repr).Success?
  {
    var header :- StepHeader(step, repr);
    Success(Join("\n", [header, ResultLine(result, repr)]))
  }

  function StepId(record: StepRecord): Value {
    GetOr(record.step, "step_id", Null)
  }

  /** The task's results map after storing each record's result under its step id, in order. */
  function ResultsAfter(m: map<Value, StepResult>, records: seq<StepRecord>): map<Value, StepResult>
    decreases |records|
  {
    if records == [] then m
    else ResultsAfter(m, records[..|records| - 1])[StepId(records[|records| - 1]) := records[|records| - 1].result]
  }

  /** Each step id maps to the result of the last step that carried it; nothing else is added. */
  lemma {:induction false} LaterDuplicateOverwrites(m: map<Value, StepResult>, records: seq<StepRecord>, i: nat)
    requires i < |records|
    requires forall j :: i < j < |records| ==> StepId(records[j]) != StepId(records[i])
    ensures StepId(records[i]) in ResultsAfter(m, records)
    ensures ResultsAfter(m, records)[StepId(records[i])] == records[i].result
    decreases |records|
  {
    var n := |records| - 1;
    if i < n {
      LaterDuplicateOverwrites(m, records[..n], i);
      assert records[..n][i] == records[i];
      assert StepId(records[n]) != StepId(records[i]);
    }
  }

  /** The step ids the records carry. */
  function StepIds(records: seq<StepRecord>): set<Value>
    decreases |records|
  {
    if records == [] then {} else StepIds(records[..|records| - 1]) + {StepId(records[|records| - 1])}
  }

  /** The results map gains exactly the records' step ids as keys. */
  lemma {:induction false} ResultsKeys(m: map<Value, StepResult>, records: seq<StepRecord>)
    ensures ResultsAfter(m, records).Keys == m.Keys + StepIds(records)
    decreases |records|
  {
    if records != [] {
      ResultsKeys(m, records[..|records| - 1]);
    }
  }

  // ---------------------------------------------------------------------------------------
  // The step loop

  datatype Progress = Progress(state: AgentState, records: seq<StepRecord>)

  /** The steps of an accepted plan, as the loop iterates them; an empty dict or string has none. */
  function PlanSteps(plan: Value): (steps: seq<Fields>)
    requires AcceptedPlan(plan)
    ensures plan.List? ==> |steps| == |plan.items| && forall i :: 0 <= i < |steps| ==> Dict(steps[i]) == plan.items[i]
    ensures !plan.List? ==> steps == []
    ensures forall i :: 0 <= i < |steps| ==> IsStep(Dict(steps[i]))
  {
    if plan.List? then seq(|plan.items|, i requires 0 <= i < |plan.items| => plan.items[i].fields) else []
  }

  /** The task's field `key`. */
  function FieldOf(s: AgentState, id: string, key: string): Field
    requires id in s.tasks && WellFormedTask(s.tasks[id]) && key in TaskKeys
  {
    s.tasks[id][key]
  }

  /** How the loop executes one step: a function of the step and the memory log as it stands. */
  type StepRunner = (Fields, seq<MemoryEntry>) -> Result<StepResult, Exc>

  /** `self.executor.execute_step(step, self.state)`: the agent's executor, which reads the log
      and nothing else of the state. */
  function Runner(ex: StepExecutor, env: Env): (run: StepRunner)
    ensures forall step, memory :: run(step, memory) == ExecuteStep(ex, step, memory, env)
  {
    (step: Fields, memory: seq<MemoryEntry>) => ExecuteStep(ex, step, memory, env)
  }

  /** How the loop renders a step and its result as the "execution" memory note. */
  type NoteWriter = (Fields, StepResult) -> Result<string, Exc>

  /** The note format of `process_task`: `f"Step {step_id}: {description}\nResult: {output}"`. */
  function Notation(repr: Value -> string): NoteWriter {
    (step: Fields, result: StepResult) => Note(step, result, repr)
  }

  /** The end of one iteration, once the step produced `result`: store it under the step id and
      append the "execution" note. A step without an id or a description raises `KeyError`, an
      unhashable id `TypeError`. */
  function Record(s: AgentState, id: string, step: Fields, result: StepResult, env: Env): (r: Result<AgentState, Exc>)
    requires id in s.tasks && WellFormedTask(s.tasks[id])
    ensures r.Success? <==> HasKey(step, "step_id") && Hashable(GetOr(step, "step_id", Null)) && HasKey(step, "description")
    ensures r.Failure? ==>
      || (r.error.kind == KeyError && !(HasKey(step, "step_id") && HasKey(step, "description")))
      || (r.error.kind == TypeError && !Hashable(GetOr(step, "step_id", Null)))
    ensures r.Success? ==>
      var s' := r.value;
      && s'.tasks.Keys == s.tasks.Keys
      && WellFormedTask(s'.tasks[id])
      && (forall u :: u in s.tasks && u != id ==> s'.tasks[u] == s.tasks[u])
      && s'.currentTaskId == s.currentTaskId
      && FieldOf(s', id, "results").results == FieldOf(s, id, "results").results[GetOr(step, "step_id", Null) := result]
      && (forall key :: key in TaskKeys - {"results"} ==> FieldOf(s', id, key) == FieldOf(s, id, key))
      && |s'.memory| == |s.memory| + 1 && s'.memory[..|s.memory|] == s.memory
      && NotedAt(step, result, Notation(env.repr), s'.memory, |s.memory|)
  {
    var stepId :- Lookup(step, "step_id");
    if !Hashable(stepId) then Failure(Exc(TypeError, "unhashable type"))
    else
      var s1 := StoreResult(s, id, stepId, result);
      var note :- Note(step, result, env.repr);
      Success(AddMemory(s1, note, env.now, "execution"))
  }

  /** One loop iteration for the `k`-th step (from 1): bump `current_step`, execute, store the
      result under the step id, append the "execution" memory entry, extend the results list.
      It raises what the executor raises, `KeyError` for a step without an id or a description,
      and `TypeError` for an unhashable id. */
  function RunStep(p: Progress, exec: StepRunner, id: string, k: nat, step: Fields, env: Env): (r: Result<Progress, Exc>)
    requires id in p.state.tasks && WellFormedTask(p.state.tasks[id])
    ensures r.Success? ==> |r.value.records| == |p.records| + 1
    ensures r.Success? ==>
      var result := r.value.records[|p.records|].result;
      && SteppedTask(p, id, k, step, result, r.value)
      && SteppedRecord(p, step, result, r.value)
      && Appended(p, r.value)
      && exec(step, p.state.memory) == Success(result)
      && NotedAt(step, result, Notation(env.repr), r.value.state.memory, |p.state.memory|)
    ensures (HasKey(step, "step_id") && Hashable(GetOr(step, "step_id", Null)) && HasKey(step, "description") &&
             exec(step, p.state.memory).Success?) ==> r.Success?
    ensures r.Failure? ==>
      match exec(step, p.state.memory)
      case Failure(e) => r.error == e
      case Success(_) =>
        || (r.error.kind == KeyError && !(HasKey(step, "step_id") && HasKey(step, "description")))
        || (r.error.kind == TypeError && !Hashable(GetOr(step, "step_id", Null)))
  {
    UpdatePreservesShape(p.state, id, map["current_step" := Count(k)], env.now);
    var s1 := UpdateTask(p.state, id, map["current_step" := Count(k)], env.now).value;
    var result :- exec(step, s1.memory);
    var s2 :- Record(s1, id, step, result, env);
    Success(Progress(s2, p.records + [StepRecord(step, result)]))
  }

  /** What one iteration did to the task store, from `p` to `q`: the step's result went under
      its step id, `current_step` became `k`, and nothing else of the task, of the other tasks or
      of the current-task pointer changed. */
  ghost predicate SteppedTask(p: Progress, id: string, k: nat, step: Fields, result: StepResult, q: Progress)
    requires id in p.state.tasks && WellFormedTask(p.state.tasks[id])
  {
    var s, s' := p.state, q.state;
    && s'.tasks.Keys == s.tasks.Keys
    && WellFormedTask(s'.tasks[id])
    && (forall u :: u in s.tasks && u != id ==> s'.tasks[u] == s.tasks[u])
    && s'.currentTaskId == s.currentTaskId
    && FieldOf(s', id, "current_step") == Count(k)
    && FieldOf(s', id, "results").results == FieldOf(s, id, "results").results[GetOr(step, "step_id", Null) := result]
    && (forall key :: key in TaskKeys - {"results", "current_step", "updated_at"} ==> FieldOf(s', id, key) == FieldOf(s, id, key))
  }

  /** What one iteration did to the results list: it appended the step with its result; the step
      carries a hashable id and a description. */
  ghost predicate SteppedRecord(p: Progress, step: Fields, result: StepResult, q: Progress) {
    && q.records == p.records + [StepRecord(step, result)]
    && HasKey(step, "step_id") && Hashable(GetOr(step, "step_id", Null)) && HasKey(step, "description")
  }

  /** One iteration appended exactly one entry to the memory log. */
  ghost predicate Appended(p: Progress, q: Progress) {
    |q.state.memory| == |p.state.memory| + 1 && q.state.memory[..|p.state.memory|] == p.state.memory
  }

  /** A step the loop gets through whatever the memory: it has a hashable id and a description,
      and the executor returns a result for it on every log. */
  ghost predicate Completes(exec: StepRunner, step: Fields) {
    && HasKey(step, "step_id") && Hashable(GetOr(step, "step_id", Null)) && HasKey(step, "description")
    && forall memory :: exec(step, memory).Success?
  }

  ghost predicate AllComplete(exec: StepRunner, steps: seq<Fields>) {
    forall i :: 0 <= i < |steps| ==> Completes(exec, steps[i])
  }

  /** Whatever the executor raises for these steps is of kind `kind`. */
  ghost predicate RaiseOnly(exec: StepRunner, steps: seq<Fields>, kind: Kind) {
    forall i, memory :: 0 <= i < |steps| && exec(steps[i], memory).Failure? ==> exec(steps[i], memory).error.kind == kind
  }

  /** Every step carries an id and a description. */
  predicate RequiredPresent(steps: seq<Fields>) {
    forall i :: 0 <= i < |steps| ==> HasKey(steps[i], "step_id") && HasKey(steps[i], "description")
  }

  lemma PrefixProperties(exec: StepRunner, steps: seq<Fields>, kind: Kind)
    requires steps != []
    ensures var n := |steps| - 1;
      && (AllComplete(exec, steps) ==> AllComplete(exec, steps[..n]) && Completes(exec, steps[n]))
      && (RaiseOnly(exec, steps, kind) ==> RaiseOnly(exec, steps[..n], kind))
      && (RequiredPresent(steps) ==> RequiredPresent(steps[..n]) && HasKey(steps[n], "step_id") && HasKey(steps[n], "description"))
  {
    var n := |steps| - 1;
    assert forall i :: 0 <= i < n ==> steps[..n][i] == steps[i];
  }

  /** The `for step in plan` loop over `steps` from state `s0`, as a fold over the plan's prefixes.
      It stops at the first step that raises; a plan of steps that complete runs to the end, and
      with every id and description present and an executor that raises only `TypeError`, so
      does whatever stops it. */
  function Run(s0: AgentState, exec: StepRunner, id: string, steps: seq<Fields>, env: Env): (r: Result<Progress, Exc>)
    requires id in s0.tasks && WellFormedTask(s0.tasks[id])
    ensures r.Success? ==> id in r.value.state.tasks && WellFormedTask(r.value.state.tasks[id])
    ensures r.Success? ==> |r.value.records| == |steps|
    ensures AllComplete(exec, steps) ==> r.Success?
    ensures r.Failure? && RequiredPresent(steps) && RaiseOnly(exec, steps, TypeError) ==> r.error.kind == TypeError
    decreases |steps|
  {
    if steps == [] then Success(Progress(s0, []))
    else
      var n := |steps| - 1;
      PrefixProperties(exec, steps, TypeError);
      var prev :- Run(s0, exec, id, steps[..n], env);
      RunStep(prev, exec, id, |steps|, steps[n], env)
  }

  /** A step produced `result` when run against the first `j` entries of `log`. */
  ghost predicate SawAt(exec: StepRunner, step: Fields, result: StepResult, log: seq<MemoryEntry>, j: nat) {
    j <= |log| && exec(step, log[..j]) == Success(result)
  }

  /** Entry `j` of `log` is the "execution" note of a step that produced `result`. */
  ghost predicate NotedAt(step: Fields, result: StepResult, note: NoteWriter, log: seq<MemoryEntry>, j: nat) {
    && j < |log|
    && log[j].kind == "execution"
    && note(step, result) == Success(log[j].content)
  }

  /** Step `i` produced record `i`'s result when run against the log as it stood after the
      `n0 + i` entries before it, and entry `n0 + i` is its note. */
  ghost predicate LoggedStep(exec: StepRunner, steps: seq<Fields>, records: seq<StepRecord>, note: NoteWriter,
                             log: seq<MemoryEntry>, n0: nat, i: nat) {
    && i < |steps| && i < |records|
    && SawAt(exec, steps[i], records[i].result, log, n0 + i)
    && NotedAt(steps[i], records[i].result, note, log, n0 + i)
  }

  /** The task-level part of the loop's invariant: `current_step` counts the steps, the results
      map is the in-order fold of the records, the task's other fields, the other tasks and the
      current-task pointer are untouched. */
  ghost predicate RanTask(s0: AgentState, id: string, n: nat, p: Progress)
    requires id in s0.tasks && WellFormedTask(s0.tasks[id])
  {
    var s := p.state;
    && id in s.tasks && WellFormedTask(s.tasks[id])
    && s.tasks.Keys == s0.tasks.Keys
    && (forall u :: u in s0.tasks && u != id ==> s.tasks[u] == s0.tasks[u])
    && s.currentTaskId == s0.currentTaskId
    && FieldOf(s, id, "results").results == ResultsAfter(FieldOf(s0, id, "results").results, p.records)
    && FieldOf(s, id, "current_step") == (if n == 0 then FieldOf(s0, id, "current_step") else Count(n))
    && (forall key :: key in TaskKeys - {"results", "current_step", "updated_at"} ==> FieldOf(s, id, key) == FieldOf(s0, id, key))
  }

  /** The record-level part: record i holds step i, which carries an id and a description. */
  ghost predicate RanRecords(steps: seq<Fields>, records: seq<StepRecord>) {
    && |records| == |steps|
    && (forall i :: 0 <= i < |steps| ==> records[i].step == steps[i])
    && (forall i :: 0 <= i < |steps| ==> HasKey(steps[i], "step_id") && HasKey(steps[i], "description"))
  }

  /** The memory part: the log grew by one "execution" entry per step, entry i holding the note
      of step i, whose result it produced against the log as it stood after the steps before. */
  ghost predicate RanLog(log0: seq<MemoryEntry>, exec: StepRunner, steps: seq<Fields>, note: NoteWriter,
                         records: seq<StepRecord>, log: seq<MemoryEntry>) {
    && |records| == |steps|
    && |log| == |log0| + |steps|
    && log[..|log0|] == log0
    && (forall i :: 0 <= i < |steps| ==> LoggedStep(exec, steps, records, note, log, |log0|, i))
  }

  /** The loop's invariant after running `steps` from `s0` to `p`. */
  ghost predicate Ran(s0: AgentState, exec: StepRunner, id: string, steps: seq<Fields>, repr: Value -> string, p: Progress)
    requires id in s0.tasks && WellFormedTask(s0.tasks[id])
  {
    && RanTask(s0, id, |steps|, p)
    && RanRecords(steps, p.records)
    && RanLog(s0.memory, exec, steps, Notation(repr), p.records, p.state.memory)
  }

  /** Every successful run of the loop establishes its invariant. */
  lemma {:induction false} RunKeepsInvariant(s0: AgentState, exec: StepRunner, id: string, steps: seq<Fields>, env: Env)
    requires id in s0.tasks && WellFormedTask(s0.tasks[id])
    ensures Run(s0, exec, id, steps, env).Success? ==> Ran(s0, exec, id, steps, env.repr, Run(s0, exec, id, steps, env).value)
    decreases |steps|
  {
    var r := Run(s0, exec, id, steps, env);
    if steps != [] && r.Success? {
      var n := |steps| - 1;
      var prev := Run(s0, exec, id, steps[..n], env);
      RunKeepsInvariant(s0, exec, id, steps[..n], env);
      assert prev.Success?;
      assert r == RunStep(prev.value, exec, id, |steps|, steps[n], env);
      IterationKeepsInvariant(s0, exec, id, steps, env, prev.value);
    }
  }

  /** One more iteration extends the invariant from the plan's prefix to the whole plan. */
  lemma IterationKeepsInvariant(s0: AgentState, exec: StepRunner, id: string, steps: seq<Fields>, env: Env, p: Progress)
    requires |steps| > 0 && id in s0.tasks && WellFormedTask(s0.tasks[id])
    requires Ran(s0, exec, id, steps[..|steps| - 1], env.repr, p)
    requires RunStep(p, exec, id, |steps|, steps[|steps| - 1], env).Success?
    ensures Ran(s0, exec, id, steps, env.repr, RunStep(p, exec, id, |steps|, steps[|steps| - 1], env).value)
  {
    var q := RunStep(p, exec, id, |steps|, steps[|steps| - 1], env).value;
    assert q.records[..|p.records|] == p.records;
    ExtendTask(s0, id, steps, p, q);
    ExtendRecords(steps, p, q);
    ExtendLog(s0.memory, exec, steps, Notation(env.repr), p, q);
  }

  lemma ExtendTask(s0: AgentState, id: string, steps: seq<Fields>, p: Progress, q: Progress)
    requires |steps| > 0 && id in s0.tasks && WellFormedTask(s0.tasks[id])
    requires RanTask(s0, id, |steps| - 1, p)
    requires |q.records| == |p.records| + 1
    requires SteppedTask(p, id, |steps|, steps[|steps| - 1], q.records[|p.records|].result, q)
    requires SteppedRecord(p, steps[|steps| - 1], q.records[|p.records|].result, q)
    ensures RanTask(s0, id, |steps|, q)
  {
    assert q.records[..|q.records| - 1] == p.records;
  }

  lemma ExtendRecords(steps: seq<Fields>, p: Progress, q: Progress)
    requires |steps| > 0
    requires RanRecords(steps[..|steps| - 1], p.records)
    requires |q.records| == |p.records| + 1
    requires SteppedRecord(p, steps[|steps| - 1], q.records[|p.records|].result, q)
    ensures RanRecords(steps, q.records)
  {
    var n := |steps| - 1;
    assert forall i :: 0 <= i < n ==> steps[..n][i] == steps[i];
    assert forall i :: 0 <= i < n ==> q.records[i] == p.records[i];
  }

  lemma ExtendLog(log0: seq<MemoryEntry>, exec: StepRunner, steps: seq<Fields>, note: NoteWriter, p: Progress, q: Progress)
    requires |steps| > 0
    requires RanLog(log0, exec, steps[..|steps| - 1], note, p.records, p.state.memory)
    requires |q.records| == |steps| && q.records[..|p.records|] == p.records
    requires Appended(p, q)
    requires SawAt(exec, steps[|steps| - 1], q.records[|p.records|].result, q.state.memory, |p.state.memory|)
    requires NotedAt(steps[|steps| - 1], q.records[|p.records|].result, note, q.state.memory, |p.state.memory|)
    ensures RanLog(log0, exec, steps, note, q.records, q.state.memory)
  {
    var n, n0 := |steps| - 1, |log0|;
    var log, log' := p.state.memory, q.state.memory;
    assert |p.records| == n && |log| == n0 + n;
    LastStepLogged(exec, steps, note, p, q, n0);
    forall i | 0 <= i < |steps|
      ensures LoggedStep(exec, steps, q.records, note, log', n0, i)
    {
      if i < n {
        StepPersists(exec, steps, note, p, q, n0, i);
      } else {
        assert i == |steps| - 1;
      }
    }
    PrefixKept(log0, log, log');
  }

  lemma LastStepLogged(exec: StepRunner, steps: seq<Fields>, note: NoteWriter, p: Progress, q: Progress, n0: nat)
    requires |steps| > 0 && |p.records| == |steps| - 1 && |q.records| == |steps|
    requires |p.state.memory| == n0 + |steps| - 1
    requires SawAt(exec, steps[|steps| - 1], q.records[|p.records|].result, q.state.memory, |p.state.memory|)
    requires NotedAt(steps[|steps| - 1], q.records[|p.records|].result, note, q.state.memory, |p.state.memory|)
    ensures LoggedStep(exec, steps, q.records, note, q.state.memory, n0, |steps| - 1)
  {
    var i := |steps| - 1;
    var j := |p.state.memory|;
    assert i == |p.records| && n0 + i == j;
    assert q.records[i] == q.records[|p.records|];
    assert SawAt(exec, steps[i], q.records[i].result, q.state.memory, j);
    assert NotedAt(steps[i], q.records[i].result, note, q.state.memory, j);
  }

  /** A prefix of a prefix is kept. */
  lemma PrefixKept<T>(log0: seq<T>, log: seq<T>, log': seq<T>)
    requires |log0| <= |log| <= |log'| && log[..|log0|] == log0 && log'[..|log|] == log
    ensures log'[..|log0|] == log0
  {
    assert log'[..|log0|] == log'[..|log|][..|log0|];
  }

  /** An earlier step's account survives one more iteration. */
  lemma StepPersists(exec: StepRunner, steps: seq<Fields>, note: NoteWriter, p: Progress, q: Progress, n0: nat, i: nat)
    requires i < |steps| - 1 && |p.records| == |steps| - 1
    requires LoggedStep(exec, steps[..|steps| - 1], p.records, note, p.state.memory, n0, i)
    requires |q.records| == |steps| && q.records[..|p.records|] == p.records
    requires Appended(p, q)
    ensures LoggedStep(exec, steps, q.records, note, q.state.memory, n0, i)
  {
    var log, log' := p.state.memory, q.state.memory;
    assert steps[..|steps| - 1][i] == steps[i];
    assert q.records[..|p.records|][i] == p.records[i];
    assert log'[..n0 + i] == log[..n0 + i];
    assert log'[n0 + i] == log[n0 + i];
  }

  // ---------------------------------------------------------------------------------------
  // The final summary

  /** Every record's step carries an id and a description. */
  predicate Headed(records: seq<StepRecord>) {
    forall i :: 0 <= i < |records| ==> HasKey(records[i].step, "step_id") && HasKey(records[i].step, "description")
  }

  lemma HeadedPrefix(records: seq<StepRecord>)
    requires records != []
    ensures var n := |records| - 1;
      Headed(records) <==> Headed(records[..n]) && HasKey(records[n].step, "step_id") && HasKey(records[n].step, "description")
  {
    var n := |records| - 1;
    assert forall i :: 0 <= i < n ==> records[..n][i] == records[i];
  }

  /** `step_summaries`: two lines per record, its header and its result line, in order; the first
      record lacking an id or a description raises `KeyError`. */
  function SummaryLines(records: seq<StepRecord>, repr: Value -> string): (r: Result<seq<string>, Exc>)
    ensures r.Success? <==> Headed(records)
    ensures r.Failure? ==> r.error.kind == KeyError
    ensures r.Success? ==> |r.value| == 2 * |records|
    ensures r.Success? ==> Summarises(records, r.value, repr)
    decreases |records|
  {
    if records == [] then Success([])
    else
      var n := |records| - 1;
      HeadedPrefix(records);
      var before :- SummaryLines(records[..n], repr);
      var header :- StepHeader(records[n].step, repr);
      SummaryExtends(records, before, header, repr);
      Success(before + [header, ResultLine(records[n].result, repr)])
  }

  /** Lines `2i` and `2i + 1` are record i's header and result line. */
  predicate Summarises(records: seq<StepRecord>, lines: seq<string>, repr: Value -> string) {
    Paired(records, lines, (record: StepRecord) => StepHeader(record.step, repr), (record: StepRecord) => ResultLine(record.result, repr))
  }

  /** Lines `2i` and `2i + 1` are what `first` and `second` make of item i. */
  predicate Paired<T>(items: seq<T>, lines: seq<string>, first: T -> Result<string, Exc>, second: T -> string) {
    && |lines| == 2 * |items|
    && forall i :: 0 <= i < |items| ==> Success(lines[2 * i]) == first(items[i]) && lines[2 * i + 1] == second(items[i])
  }

  /** The summary of a prefix, followed by the last record's two lines, summarises the records. */
  lemma SummaryExtends(records: seq<StepRecord>, before: seq<string>, header: string, repr: Value -> string)
    requires records != []
    requires Summarises(records[..|records| - 1], before, repr)
    requires Success(header) == StepHeader(records[|records| - 1].step, repr)
    ensures Summarises(records, before + [header, ResultLine(records[|records| - 1].result, repr)], repr)
  {
    PairedExtends(records, before, header, (record: StepRecord) => StepHeader(record.step, repr), (record: StepRecord) => ResultLine(record.result, repr));
  }

  lemma PairedExtends<T>(items: seq<T>, before: seq<string>, header: string, first: T -> Result<string, Exc>, second: T -> string)
    requires items != []
    requires Paired(items[..|items| - 1], before, first, second)
    requires Success(header) == first(items[|items| - 1])
    ensures Paired(items, before + [header, second(items[|items| - 1])], first, second)
  {
    var n := |items| - 1;
    var lines := before + [header, second(items[n])];
    forall i | 0 <= i < |items|
      ensures Success(lines[2 * i]) == first(items[i]) && lines[2 * i + 1] == second(items[i])
    {
      if i < n {
        assert items[..n][i] == items[i];
        assert lines[2 * i] == before[2 * i] && lines[2 * i + 1] == before[2 * i + 1];
      }
    }
  }

  /** The notes of the records, as the memory log holds them. */
  function Notes(records: seq<StepRecord>, repr: Value -> string): (notes: seq<string>)
    requires Headed(records)
    ensures |notes| == |records|
    decreases |records|
  {
    if records == [] then []
    else
      var n := |records| - 1;
      HeadedPrefix(records);
      Notes(records[..n], repr) + [Note(records[n].step, records[n].result, repr).value]
  }

  /** The summary text `"\n".join(step_summaries)` is the records' memory notes joined by newlines:
      the final summary repeats, line for line, what the loop wrote to memory. */
  lemma {:induction false} SummaryRepeatsNotes(records: seq<StepRecord>, repr: Value -> string)
    requires Headed(records)
    ensures SummaryLines(records, repr).Success?
    ensures Join("\n", SummaryLines(records, repr).value) == Join("\n", Notes(records, repr))
    decreases |records|
  {
    if records != [] {
      var n := |records| - 1;
      var pre := records[..n];
      HeadedPrefix(records);
      SummaryRepeatsNotes(pre, repr);
      var before, notesBefore := SummaryLines(pre, repr).value, Notes(pre, repr);
      var pair := [StepHeader(records[n].step, repr).value, ResultLine(records[n].result, repr)];
      var note := Join("\n", pair);
      assert SummaryLines(records, repr).value == before + pair;
      assert Notes(records, repr) == notesBefore + [note];
      assert Join("\n", [note]) == note;
      if n == 0 {
        assert before == [] && notesBefore == [];
        assert before + pair == pair;
        assert notesBefore + [note] == [note];
      } else {
        JoinAppend("\n", before, pair);
        JoinAppend("\n", notesBefore, [note]);
      }
    }
  }

  /** `_generate_final_response`: one completion asking to summarise the task, given its
      description and the step summary. */
  function FinalResponse(s: AgentState, id: string, records: seq<StepRecord>, env: Env): (r: Result<Option<string>, Exc>)
    requires id in s.tasks && WellFormedTask(s.tasks[id])
    ensures r.Success? <==> Headed(records)
    ensures r.Failure? ==> r.error.kind == KeyError
    ensures r.Success? ==>
      r.value == env.complete(SummaryRequest(FieldOf(s, id, "description").text, Join("\n", Notes(records, env.repr))))
  {
    var task := GetTask(s, Some(id)).value;
    var lines :- SummaryLines(records, env.repr);
    SummaryRepeatsNotes(records, env.repr);
    Success(env.complete(SummaryRequest(task["description"].text, Join("\n", lines))))
  }

  /** Which keys each lifecycle step leaves alone: the EXECUTING update, the loop and the
      COMPLETED update. */
  lemma KeysKept()
    ensures forall key :: key in {"id", "description", "current_step", "results"} ==> key in TaskKeys - {"status", "plan", "updated_at"}
    ensures forall key :: key in {"description", "plan", "status"} ==> key in TaskKeys - {"results", "current_step", "updated_at"}
    ensures forall key :: key in {"description", "plan", "current_step", "results"} ==> key in TaskKeys - {"status", "updated_at"}
  {
  }

  // ---------------------------------------------------------------------------------------
  // The task lifecycle

  /** `create_task` followed by the PLANNING update. */
  function BeginTask(s: AgentState, description: string, id: string, now: nat -> string): (r: AgentState)
    requires id !in s.tasks
    ensures r.tasks.Keys == s.tasks.Keys + {id}
    ensures forall u :: u in s.tasks ==> r.tasks[u] == s.tasks[u]
    ensures WellFormedTask(r.tasks[id])
    ensures FieldOf(r, id, "status") == Status(Planning)
    ensures FieldOf(r, id, "id") == Text(id) && FieldOf(r, id, "description") == Text(description)
    ensures FieldOf(r, id, "results") == ResultsField(map[]) && FieldOf(r, id, "current_step") == Count(0)
    ensures r.memory == s.memory && r.currentTaskId == Some(id)
  {
    var s1 := CreateTask(s, description, id, now);
    UpdatePreservesShape(s1, id, map["status" := Status(Planning)], now);
    UpdateTask(s1, id, map["status" := Status(Planning)], now).value
  }

  /** `update_task(task_id, plan=plan, status=EXECUTING)`. */
  function AdoptPlan(s: AgentState, id: string, plan: Value, now: nat -> string): (r: AgentState)
    requires id in s.tasks && WellFormedTask(s.tasks[id])
    ensures r.tasks.Keys == s.tasks.Keys
    ensures forall u :: u in s.tasks && u != id ==> r.tasks[u] == s.tasks[u]
    ensures WellFormedTask(r.tasks[id])
    ensures FieldOf(r, id, "status") == Status(Executing) && FieldOf(r, id, "plan") == PlanField(plan)
    ensures forall key :: key in TaskKeys - {"status", "plan", "updated_at"} ==> FieldOf(r, id, key) == FieldOf(s, id, key)
    ensures r.memory == s.memory && r.currentTaskId == s.currentTaskId
  {
    var updates := map["plan" := PlanField(plan), "status" := Status(Executing)];
    UpdatePreservesShape(s, id, updates, now);
    UpdateTask(s, id, updates, now).value
  }

  /** `update_task(task_id, status=COMPLETED)`. */
  function FinishTask(s: AgentState, id: string, now: nat -> string): (r: AgentState)
    requires id in s.tasks && WellFormedTask(s.tasks[id])
    ensures r.tasks.Keys == s.tasks.Keys
    ensures forall u :: u in s.tasks && u != id ==> r.tasks[u] == s.tasks[u]
    ensures WellFormedTask(r.tasks[id])
    ensures FieldOf(r, id, "status") == Status(Completed)
    ensures forall key :: key in TaskKeys - {"status", "updated_at"} ==> FieldOf(r, id, key) == FieldOf(s, id, key)
    ensures r.memory == s.memory && r.currentTaskId == s.currentTaskId
  {
    UpdatePreservesShape(s, id, map["status" := Status(Completed)], now);
    UpdateTask(s, id, map["status" := Status(Completed)], now).value
  }

  /** A completed run: the final state, the results list and the summary reply. */
  datatype Completion = Completion(state: AgentState, records: seq<StepRecord>, response: Option<string>)

  /** What a completed run leaves: the task COMPLETED with the loop's step counter and results
      map, its description and plan untouched, one record per step with the log account of the
      loop, and the summary request built from the records' notes. Other tasks, the current-task
      pointer and the set of task ids are as before. */
  ghost predicate Concluded(s0: AgentState, exec: StepRunner, id: string, steps: seq<Fields>, env: Env, c: Completion)
    requires id in s0.tasks && WellFormedTask(s0.tasks[id])
  {
    var s := c.state;
    && s.tasks.Keys == s0.tasks.Keys
    && (forall u :: u in s0.tasks && u != id ==> s.tasks[u] == s0.tasks[u])
    && s.currentTaskId == s0.currentTaskId
    && WellFormedTask(s.tasks[id])
    && FieldOf(s, id, "status") == Status(Completed)
    && FieldOf(s, id, "current_step") == (if steps == [] then FieldOf(s0, id, "current_step") else Count(|steps|))
    && FieldOf(s, id, "results").results == ResultsAfter(FieldOf(s0, id, "results").results, c.records)
    && FieldOf(s, id, "description") == FieldOf(s0, id, "description")
    && FieldOf(s, id, "plan") == FieldOf(s0, id, "plan")
    && RanRecords(steps, c.records)
    && RanLog(s0.memory, exec, steps, Notation(env.repr), c.records, s.memory)
    && Headed(c.records)
    && c.response == env.complete(SummaryRequest(FieldOf(s0, id, "description").text, Join("\n", Notes(c.records, env.repr))))
  }

  /** `update_task(task_id, status=COMPLETED)` and `_generate_final_response` after the loop. */
  function Finish(s0: AgentState, exec: StepRunner, id: string, steps: seq<Fields>, env: Env, p: Progress): (c: Completion)
    requires id in s0.tasks && WellFormedTask(s0.tasks[id])
    requires Ran(s0, exec, id, steps, env.repr, p)
    ensures Concluded(s0, exec, id, steps, env, c)
  {
    var s := FinishTask(p.state, id, env.now);
    KeysKept();
    RecordsHeaded(steps, p.records);
    Completion(s, p.records, FinalResponse(s, id, p.records, env).value)
  }

  /** The loop followed by the COMPLETED update and the summary. */
  function CompleteTask(s0: AgentState, exec: StepRunner, id: string, steps: seq<Fields>, env: Env): (r: Result<Completion, Exc>)
    requires id in s0.tasks && WellFormedTask(s0.tasks[id])
    ensures r.Success? ==> Concluded(s0, exec, id, steps, env, r.value)
    ensures AllComplete(exec, steps) ==> r.Success?
    ensures r.Failure? && RequiredPresent(steps) && RaiseOnly(exec, steps, TypeError) ==> r.error.kind == TypeError
  {
    RunKeepsInvariant(s0, exec, id, steps, env);
    var progress :- Run(s0, exec, id, steps, env);
    Success(Finish(s0, exec, id, steps, env, progress))
  }

  lemma RecordsHeaded(steps: seq<Fields>, records: seq<StepRecord>)
    requires RanRecords(steps, records)
    ensures Headed(records)
  {
  }

  /** `create_task`, the PLANNING update, `create_plan` and the EXECUTING update. */
  function StartTask(s: AgentState, description: string, id: string, env: Env): (r: Result<(AgentState, Value), Exc>)
    requires id !in s.tasks
    ensures r.Failure? <==> CreatePlan(env, description).Failure?
    ensures r.Failure? ==> r.error == CreatePlan(env, description).error
    ensures r.Success? ==>
      var s', plan := r.value.0, r.value.1;
      && plan == CreatePlan(env, description).value && AcceptedPlan(plan)
      && s'.tasks.Keys == s.tasks.Keys + {id}
      && (forall u :: u in s.tasks ==> s'.tasks[u] == s.tasks[u])
      && WellFormedTask(s'.tasks[id])
      && FieldOf(s', id, "status") == Status(Executing)
      && FieldOf(s', id, "plan") == PlanField(plan)
      && FieldOf(s', id, "description") == Text(description)
      && FieldOf(s', id, "current_step") == Count(0)
      && FieldOf(s', id, "results") == ResultsField(map[])
      && s'.memory == s.memory && s'.currentTaskId == Some(id)
  {
    var s1 := BeginTask(s, description, id, env.now);
    var plan :- CreatePlan(env, description);
    KeysKept();
    Success((AdoptPlan(s1, id, plan, env.now), plan))
  }

  /** The steps of an accepted plan carry the keys the loop reads. */
  lemma AcceptedStepsCarryKeys(plan: Value)
    requires AcceptedPlan(plan)
    ensures RequiredPresent(PlanSteps(plan))
  {
    var steps := PlanSteps(plan);
    forall i | 0 <= i < |steps|
      ensures HasKey(steps[i], "step_id") && HasKey(steps[i], "description")
    {
      assert IsStep(Dict(steps[i]));
      assert RequiredKeys[0] == "step_id" && RequiredKeys[1] == "description";
    }
  }

  /** With an empty registry, the executor raises nothing but `TypeError` for steps with a
      description (an unhashable tool name). */
  lemma EmptyRegistryRaisesOnlyTypeError(ex: StepExecutor, env: Env, steps: seq<Fields>)
    ensures ex.registry.Keys == {} && RequiredPresent(steps) ==> RaiseOnly(Runner(ex, env), steps, TypeError)
  {
    if ex.registry.Keys == {} && RequiredPresent(steps) {
      forall i, memory | 0 <= i < |steps| && Runner(ex, env)(steps[i], memory).Failure?
        ensures Runner(ex, env)(steps[i], memory).error.kind == TypeError
      {
        if Truthy(GetOr(steps[i], "requires_tool", Bool(false))) {
          EmptyRegistryRunsNoTool(ex, steps[i], memory, env);
        }
      }
    }
  }

  /** The dictionary `process_task` returns. */
  datatype Outcome = Outcome(taskId: string, status: string, results: seq<StepRecord>, finalResponse: Option<string>)

  /** `process_task(description)`, with `id` the fresh id `uuid4` drew. On success the task ends
      COMPLETED holding the plan the planner produced, one record per plan step, each the result
      the agent's executor gave against the memory log as it stood; the log grew by one
      "execution" note per step, and the summary request repeats those notes. */
  function ProcessTask(a: Agent, description: string, id: string, env: Env): (r: Result<(Agent, Outcome), Exc>)
    requires id !in a.state.tasks
    ensures CreatePlan(env, description).Failure? ==> r == Failure(CreatePlan(env, description).error)
    ensures r.Success? ==>
      var a', out := r.value.0, r.value.1;
      var plan := CreatePlan(env, description).value;
      var steps := PlanSteps(plan);
      && CreatePlan(env, description).Success?
      && out.taskId == id && out.status == "completed"
      && a'.tools.Keys == a.tools.Keys && a'.executor == a.executor
      && a'.state.tasks.Keys == a.state.tasks.Keys + {id}
      && (forall u :: u in a.state.tasks ==> a'.state.tasks[u] == a.state.tasks[u])
      && a'.state.currentTaskId == Some(id)
      && WellFormedTask(a'.state.tasks[id])
      && FieldOf(a'.state, id, "status") == Status(Completed)
      && FieldOf(a'.state, id, "description") == Text(description)
      && FieldOf(a'.state, id, "plan") == PlanField(plan)
      && |out.results| == |steps|
  {
    var started :- StartTask(a.state, description, id, env);
    var done :- CompleteTask(started.0, Runner(a.executor, env), id, PlanSteps(started.1), env);
    Success((a.(state := done.state), Outcome(id, "completed", done.records, done.response)))
  }

  /** Task `id` is well formed, its `current_step` is `steps` and its results map is the in-order
      fold of `records` (a later step with the same id wins). */
  predicate Counted(s: AgentState, id: string, steps: int, records: seq<StepRecord>) {
    && id in s.tasks && WellFormedTask(s.tasks[id])
    && FieldOf(s, id, "current_step") == Count(steps)
    && FieldOf(s, id, "results").results == ResultsAfter(map[], records)
  }

  /** After `process_task`, the task's `current_step` is the number of plan steps and its results
      map is the in-order fold of the returned records (a later step with the same id wins). */
  lemma ProcessedCounters(a: Agent, description: string, id: string, env: Env)
    requires id !in a.state.tasks && ProcessTask(a, description, id, env).Success?
    ensures
      var r := ProcessTask(a, description, id, env).value;
      Counted(r.0.state, id, |PlanSteps(CreatePlan(env, description).value)|, r.1.results)
  {
    var started := StartTask(a.state, description, id, env).value;
    var done := CompleteTask(started.0, Runner(a.executor, env), id, PlanSteps(started.1), env).value;
    assert ProcessTask(a, description, id, env).value == (a.(state := done.state), Outcome(id, "completed", done.records, done.response));
  }

  /** What `process_task` did step by step: one record per plan step, each the result the agent's
      executor gave against the memory log as it stood, one "execution" note per step appended to
      the log, and the summary request built from the task description and those notes. */
  lemma ProcessedSteps(a: Agent, description: string, id: string, env: Env)
    requires id !in a.state.tasks && ProcessTask(a, description, id, env).Success?
    ensures
      var r := ProcessTask(a, description, id, env).value;
      var log', out := r.0.state.memory, r.1;
      var steps := PlanSteps(CreatePlan(env, description).value);
      && RanRecords(steps, out.results)
      && RanLog(a.state.memory, Runner(a.executor, env), steps, Notation(env.repr), out.results, log')
      && Headed(out.results)
      && out.finalResponse == env.complete(SummaryRequest(description, Join("\n", Notes(out.results, env.repr))))
  {
    var started := StartTask(a.state, description, id, env).value;
    var done := CompleteTask(started.0, Runner(a.executor, env), id, PlanSteps(started.1), env).value;
    assert ProcessTask(a, description, id, env).value == (a.(state := done.state), Outcome(id, "completed", done.records, done.response));
  }

  /** Once the planner answers, `process_task` returns unless some step raises: a plan whose
      steps all complete runs to the end. */
  lemma PlannedTaskCompletes(a: Agent, description: string, id: string, env: Env)
    requires id !in a.state.tasks
    requires CreatePlan(env, description).Success?
    requires AllComplete(Runner(a.executor, env), PlanSteps(CreatePlan(env, description).value))
    ensures ProcessTask(a, description, id, env).Success?
  {
    var started := StartTask(a.state, description, id, env).value;
    assert CompleteTask(started.0, Runner(a.executor, env), id, PlanSteps(started.1), env).Success?;
  }

  /** An agent whose executor has no tools (the agent as built) can only fail on a plan the
      planner rejects (`AssertionError`), a reply that is not text (`AttributeError`), or an
      unhashable step id or tool name (`TypeError`). */
  lemma EmptyRegistryFailures(a: Agent, description: string, id: string, env: Env)
    requires id !in a.state.tasks && a.executor.registry.Keys == {}
    ensures ProcessTask(a, description, id, env).Failure? ==>
      ProcessTask(a, description, id, env).error.kind in {AssertionError, AttributeError, TypeError}
  {
    var started := StartTask(a.state, description, id, env);
    if started.Success? {
      var steps := PlanSteps(started.value.1);
      AcceptedStepsCarryKeys(started.value.1);
      EmptyRegistryRaisesOnlyTypeError(a.executor, env, steps);
    }
  }
}
