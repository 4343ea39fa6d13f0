# A model of the agentic-ai task loop in Dafny

This project models the control core of a single-task LLM agent. The core has five parts:

- **the task and memory store** (`agent/core/state.py`):
  - a map from task id to a record with a fixed key set;
  - a current-task pointer;
  - an append-only memory log.
- **the planner** (`agent/planning/planner.py`):
  - one completion request;
  - a tolerant extraction of the JSON payload from the reply;
  - decoding and a key check on every step;
  - a one-step fallback plan for every failure in the `(ValueError, SyntaxError, TypeError)` family.
- **the step executor** (`agent/execution/executor.py`): a case split on `requires_tool` into a tool call or a reasoning request. The reasoning request sees the last ten memory entries.
- **the agent** (`agent/core/agent.py`):
  - the tool-registry wiring;
  - `process_task`: create, plan, run every step in order, record each result and an "execution" memory note, complete, summarise;
  - the step summary of `_generate_final_response`.
- **the calculator tool** (`tools/calculator.py`): a whitelist evaluator over Python's expression tree, and its schema and example.

Everything outside the core is an oracle, passed in as a parameter:

- `Oracles.Env` holds:
  - the LLM (`complete`, a function of the request data, which may answer `None`);
  - `json.loads`;
  - the clock, as the n-th reading of `datetime.now().isoformat()` (the state counts its readings);
  - `repr` of lists and dicts.
- The fresh `uuid4` id is a parameter, with the precondition that it is not yet a task id.
- Tools are records whose `execute` may return a value or raise.
- The calculator's parsing and arithmetic are `Calculator.Semantics`: uninterpreted operations that may fail.
- Python exceptions are `Exceptions.Exc(kind, message)` values carried in a `Result`.

Layout, one module per source file:

| file | modules |
|---|---|
| `wrappers.dfy` | `Wrappers`, `Exceptions` |
| `values.dfy` | `Values`: Python values, `dict.get`, truthiness, f-string rendering, `find`/`rfind`, slicing, `join` |
| `results.dfy` | `Oracles`, `StepResults`: the result dictionary a step returns |
| `state.dfy` | `State` |
| `planner.dfy` | `Planner` |
| `executor.dfy` | `Executor` |
| `calculator.dfy` | `Calculator` |
| `orchestrator.dfy` | `Orchestrator`: the agent |

How the orchestration loop is modelled:

1. `Orchestrator.Run` is a fold over the prefixes of the plan. One iteration is `RunStep`: bump the counter, execute the step, then `Record` (store the result and append the note).
2. `RunKeepsInvariant` proves that every successful run establishes the invariant `Ran`. `Ran` says three things:
   - the task fields the loop owns;
   - record i holds step i;
   - memory entry i is step i's note, and step i produced its result against the log as it stood after the entries before it.
3. `Finish` and `CompleteTask` carry that invariant past the COMPLETED update and the summary request (the predicate `Concluded`).
4. `ProcessTask` composes `StartTask` with `CompleteTask`. The lemmas `ProcessedCounters`, `ProcessedSteps`, `PlannedTaskCompletes` and `EmptyRegistryFailures` state the end-to-end facts.

The loop is stated over any step runner and note writer. `Runner(executor, env)` and `Notation(repr)` instantiate them with the agent's executor and the note format of `process_task`.

Three facts about the code shape the model:

- **Plan validation checks three keys.** Each step must carry `step_id`, `description` and `requires_tool` (`agent/planning/planner.py:76-79`). `tool_name` and `tool_parameters` are not checked.
- **`create_plan` can raise.** A failed key assertion raises `AssertionError`, and a `None` reply raises `AttributeError` at `.find`. Neither is in the caught tuple `(ValueError, SyntaxError, TypeError)` (`agent/planning/planner.py:58`, `agent/planning/planner.py:77-84`), so both escape `create_plan` and `process_task`.
- **The executor is built without a registry.** The agent constructs `StepExecutor()` with no registry (`agent/core/agent.py:19`), so the executor's registry is empty (`agent/execution/executor.py:16`). Tools the agent registers never reach it, and a tool step only ever reports its tool as missing (`RegisteredToolsNeverReachExecutor`, `EmptyRegistryRunsNoTool`, `EmptyRegistryFailures`).

## Model

| member | source | states |
|---|---|---|
| Values.Find | agent/planning/planner.py:58-59 | `str.find`: -1 exactly when the character is absent, otherwise the index of its first occurrence |
| Values.RFind | agent/planning/planner.py:64 | `str.rfind`: -1 exactly when the character is absent, otherwise the index of its last occurrence |
| StepResults.ErrorKeyMatchesStatus | agent/execution/executor.py:37-66 | a step result has status "error" exactly when it carries an `error` key; and it carries a `tool_used` key exactly when it names the tool that ran |
| State.InitialState | agent/core/state.py:23-28 | a fresh state has no tasks, an empty memory and no current task |
| State.CreateTask | agent/core/state.py:30-46 | the new id is added and no other task changes; the record has the eight keys, status PENDING, empty plan, step 0, no results and two clock stamps; the new task becomes current; memory is untouched |
| State.UpdateTask | agent/core/state.py:48-61 | an unknown id raises the not-found `ValueError` and changes nothing; otherwise only keys the record already has are overwritten, the rest keep their values, `updated_at` is always restamped, and other tasks, memory and the current pointer are unchanged |
| State.UpdatePreservesShape | agent/core/state.py:55-60 | updates of known keys with values of their kind keep a record well formed: same key set, same field kinds |
| State.UnknownKeysIgnored | agent/core/state.py:56-60 | updating with only unknown keys changes nothing but `updated_at` |
| State.AddMemory | agent/core/state.py:63-71 | exactly one entry (default type "observation") is appended at the end; earlier entries and the tasks are unchanged |
| State.RecentMemory | agent/core/state.py:75 | `memory[-limit:] if memory else []`: the last `limit` entries for `1 <= limit <= len`, the whole log for a longer limit and for `limit == 0`, nothing for an empty log, and Python's clamping for a negative limit |
| State.GetRecentMemory | agent/core/state.py:73-77 | for `limit >= 1`, the last `min(limit, len)` entries in insertion order; it returns a value and has no effect on the state |
| State.GetTask | agent/core/state.py:79-89 | no id reads the current-task pointer; an absent id raises not-found; success returns the stored record |
| State.StoreResult | agent/core/agent.py:57-58 | `tasks[id]["results"][step_id] = result` updates that one entry of the results map; `updated_at` and every other field, task and the memory are untouched |
| Planner.JsonStart | agent/planning/planner.py:58-63 | the payload start is the first `[` or `{`, whichever comes first, and -1 exactly when the reply has neither |
| Planner.JsonEnd | agent/planning/planner.py:64 | the payload end is one past the last `]` or `}`, and 0 exactly when the reply has neither |
| Planner.ExtractJson | agent/planning/planner.py:66-69 | the whole reply when an opener or a closer is missing; the empty string when the last closer precedes the first opener; otherwise the slice from opener to closer |
| Planner.ExtractKeepsFramedText | agent/planning/planner.py:57-69 | a reply that starts with an opener and ends with a closer passes through unchanged |
| Planner.ExtractIdempotent | agent/planning/planner.py:57-69 | extracting twice gives what extracting once gives |
| Planner.ExtractDropsSurroundingProse | agent/planning/planner.py:57-69 | bracket-free prose before and after a bracketed payload is cut away exactly |
| Planner.ExtractEmptyWhenReversed | agent/planning/planner.py:64-67 | when every closer precedes every opener the candidate is empty |
| Planner.CheckStep | agent/planning/planner.py:76-80 | a step passes exactly when it is a dict with `step_id`, `description` and `requires_tool`; a dict missing one fails the assertion; other element types raise `AssertionError` or `TypeError` |
| Planner.CheckSteps | agent/planning/planner.py:76-80 | the loop passes exactly when every step passes, and otherwise raises what the first failing step raises |
| Planner.CheckStepsFirstFailure | agent/planning/planner.py:76-79 | the first step that does not pass decides the exception |
| Planner.CheckPlan | agent/planning/planner.py:73-80 | a decoded plan passes exactly when it is a list of steps, an empty dict or an empty string; anything else raises `AssertionError` or `TypeError` |
| Planner.FallbackPlan | agent/planning/planner.py:88-96 | the fallback is one reasoning step with `step_id` 1 and description "Complete the task: " + the task, and it passes validation |
| Planner.PlanFromReply | agent/planning/planner.py:57-96 | a `None` reply raises `AttributeError`; a decode failure gives the fallback; a plan that passes validation is returned as decoded; a rejected one gives the fallback or an escaping `AssertionError`; no caught-family exception escapes |
| Planner.CreatePlan | agent/planning/planner.py:19-96 | with an LLM oracle that does not raise, `create_plan` returns a plan that passes validation, or raises `AssertionError`, or raises `AttributeError` exactly when the LLM answered `None` |
| Planner.MissingKeyEscapes | agent/planning/planner.py:76-84 | a decoded list whose first bad element is a dict missing a required key makes `create_plan` raise `AssertionError` |
| Planner.ScalarFallsBack | agent/planning/planner.py:73-88 | a decoded number, boolean or null has no `len`; the `TypeError` is caught and the fallback plan returned |
| Executor.NewExecutor | agent/execution/executor.py:13-17 | no registry means an empty one; a given registry is used as is, tool for tool |
| Executor.ToolStep | agent/execution/executor.py:31-66 | an unregistered name gives the not-found result and invokes nothing; a registered tool's value gives the success result with `tool_used` and the parameters (default `{}`); its `ValueError`, `SyntaxError` or `TypeError` gives the error result; other exceptions, and an unhashable name, propagate |
| Executor.ThinkingStep | agent/execution/executor.py:68-105 | a reasoning step always succeeds with the reply, `None` included, as both `output` and `thinking`, asking about the step's description with the recent memory; only a missing description raises `KeyError` |
| Executor.ExecuteStep | agent/execution/executor.py:19-29 | a truthy `requires_tool` takes the tool branch, and a missing or falsy one the reasoning branch; the result is a reasoning result exactly when the reasoning branch ran on a step with a description |
| Executor.PromptShowsRecentMemory | agent/execution/executor.py:73-75 | the reasoning prompt shows each of the last `min(10, len)` memory entries as "{type}: {content}", and nothing for an empty log |
| Executor.EmptyRegistryRunsNoTool | agent/execution/executor.py:37-43 | with an empty registry a tool step reports its tool missing, or raises `TypeError` for an unhashable name |
| Executor.MissingToolResult | agent/execution/executor.py:37-43 | the not-found result has status "error", the "Tool N not found" error, the "Unable to execute step" output and no `tool_used` |
| Calculator.EvalNode | tools/calculator.py:86-111 | a tree that evaluates is whitelisted throughout; with total arithmetic every whitelisted tree evaluates; an operator outside the whitelist fails with "Unsupported operation" before its operands are evaluated |
| Calculator.EvalArgs | tools/calculator.py:104 | the arguments evaluate left to right: on success value i is argument i's value; it succeeds exactly when every argument does; otherwise it fails with the failure of the first argument that fails |
| Calculator.EvalNodeComposes | tools/calculator.py:88-111 | a constant is its own value; an accepted operator applies its arithmetic to its operands' values, left operand first; an accepted call applies its function to its arguments' values, or fails with the first argument's failure; rejected calls, names and node kinds fail with their own messages |
| Calculator.AcceptsExactlyWhitelisted | tools/calculator.py:86-111 | with arithmetic that never fails, a tree evaluates exactly when it is whitelisted |
| Calculator.Evaluate | tools/calculator.py:77-84 | every parse or evaluation failure becomes one message starting "Invalid expression: "; it succeeds exactly when parsing and evaluation do |
| Calculator.Execute | tools/calculator.py:65-75 | a non-dict raises `AttributeError`; a dict always gets exactly one of `{"result": v}` or `{"error": message}`; a missing or empty expression is refused before parsing; otherwise a successful evaluation gives `{"result": v}` with its value, and a failed one gives `{"error": "Error evaluating expression: " + message}` |
| Calculator.ExampleMatchesSchema | tools/calculator.py:46-63 | the schema requires exactly "expression", the example's only key is "expression", and the example meets the schema |
| Calculator.ExampleText | tools/calculator.py:46-51 | `get_example()` is the JSON text of the one-key example object |
| Orchestrator.NewAgent | agent/core/agent.py:15-29 | a new agent has a fresh state, a registry holding only the calculator tool under "calculator", and an executor with an empty registry |
| Orchestrator.RegisterTool | agent/core/agent.py:31-33 | registering a tool adds or replaces the entry under its name; every other entry, the state and the executor stay as they were |
| Orchestrator.RegisteredToolsNeverReachExecutor | agent/core/agent.py:19-33 | however many tools are registered, the executor's registry stays empty and the state unchanged |
| Orchestrator.Lookup | agent/core/agent.py:57 | `step[key]` succeeds exactly when the key is present, and raises `KeyError` otherwise |
| Orchestrator.StepHeader | agent/core/agent.py:62 | the "Step {id}: {description}" line exists exactly when the step has both keys |
| Orchestrator.Note | agent/core/agent.py:61-64 | the execution note can be written exactly when the step has an id and a description |
| Orchestrator.LaterDuplicateOverwrites | agent/core/agent.py:57-58 | in the results map each step id holds the result of the last step that carried it |
| Orchestrator.ResultsKeys | agent/core/agent.py:57-58 | the results map gains exactly the step ids of the executed steps as keys |
| Orchestrator.PlanSteps | agent/core/agent.py:49 | the loop visits the plan's elements in order, each a step with the required keys; an empty dict or string plan has no steps |
| Orchestrator.Record | agent/core/agent.py:56-64 | storing a result and the note succeeds exactly when the step has a hashable id and a description, else raises `KeyError` or `TypeError`; it stores the result under the id, appends exactly one "execution" note of the step and result, and leaves every other field and task alone |
| Orchestrator.RunStep | agent/core/agent.py:49-69 | one iteration sets `current_step` to k, runs the step against the log as it stands, stores and notes its result, and appends one record; it fails only with what the executor raised or the `KeyError`/`TypeError` of a bad step |
| Orchestrator.Run | agent/core/agent.py:49-69 | the loop yields one record per step; steps that all complete run to the end; with every id and description present and an executor that raises only `TypeError`, that is the only possible failure |
| Orchestrator.RunKeepsInvariant | agent/core/agent.py:46-69 | after the loop, `current_step` counts the steps, the results map is the in-order fold of the records, record i holds step i, memory grew by one "execution" note per step in plan order, and each step ran against the log as it stood after the steps before it |
| Orchestrator.SummaryLines | agent/core/agent.py:88-94 | the summary has two lines per record, in order: line 2i is record i's "Step {id}: {description}" header and line 2i+1 its "Result: {output}" line; a record without an id or a description raises `KeyError` |
| Orchestrator.SummaryRepeatsNotes | agent/core/agent.py:88-96 | the joined summary text is the records' memory notes joined by newlines |
| Orchestrator.FinalResponse | agent/core/agent.py:84-118 | the final response is the LLM's answer to a summary request built from the task description and the joined notes of the records |
| Orchestrator.BeginTask | agent/core/agent.py:38-39 | after `create_task` and the PLANNING update, the new task is PLANNING with step 0 and no results, and it is the current task |
| Orchestrator.AdoptPlan | agent/core/agent.py:42-43 | the EXECUTING update stores the plan and status and changes no other field |
| Orchestrator.FinishTask | agent/core/agent.py:72 | the COMPLETED update changes only the status (and the timestamp) |
| Orchestrator.StartTask | agent/core/agent.py:37-43 | the planner's exception propagates; otherwise the new task is EXECUTING with exactly the planner's plan, step 0, no results, and it is current; other tasks are unchanged |
| Orchestrator.Finish | agent/core/agent.py:71-75 | after the loop, the COMPLETED update and the summary keep the loop's account, and the response answers the request built from the notes |
| Orchestrator.CompleteTask | agent/core/agent.py:45-75 | a successful loop-and-finish leaves the task COMPLETED with the loop's counter, results map and log account; steps that all complete always get there |
| Orchestrator.AcceptedStepsCarryKeys | agent/planning/planner.py:76-79 | every step of a validated plan has `step_id` and `description` |
| Orchestrator.EmptyRegistryRaisesOnlyTypeError | agent/execution/executor.py:31-43 | with an empty registry, steps with a description make the executor raise nothing but `TypeError` |
| Orchestrator.ProcessTask | agent/core/agent.py:35-82 | a planner exception propagates; on return one new task exists and is current, COMPLETED with the planner's plan and its description, old tasks and the registries are unchanged, and there is one result per plan step |
| Orchestrator.ProcessedCounters | agent/core/agent.py:46-58 | after `process_task`, `current_step` is the number of plan steps and the results map is the in-order fold of the returned records |
| Orchestrator.ProcessedSteps | agent/core/agent.py:45-75 | after `process_task`, record i holds plan step i and the executor's result for it against the log as it stood; memory grew by one "execution" note per step in order; the final response answers the summary of those notes |
| Orchestrator.PlannedTaskCompletes | agent/core/agent.py:35-82 | once the planner answers, a plan whose steps all complete makes `process_task` return |
| Orchestrator.EmptyRegistryFailures | agent/core/agent.py:35-82 | with an LLM oracle that does not raise, the agent as built can only raise `AssertionError` (rejected plan), `AttributeError` (no reply) or `TypeError` (unhashable step id or tool name) |

## Left out

- The retry loop, logging setup and printing of `main.py`, and the live smoke test `test_api.py`: process bootstrap, not core logic.
- The Anthropic client (`agent/core/client.py`): it is the oracle `Env.complete`, which answers text or `None` and never raises. In the program, `complete_async` catches only `(ValueError, SyntaxError, TypeError)` and turns those into `None`. The SDK's own errors (connection, rate-limit and status errors) and an `IndexError` on an empty `response.content` leave it. They would then escape `create_plan`, the reasoning step and the final summary, and so `process_task`. The model does not include these exceptions, so `Planner.CreatePlan` and `Orchestrator.EmptyRegistryFailures` list only the exceptions raised by the core itself. Its model, temperature and token settings (`config/settings.py`) are fixed by each call site and not modelled.
- The web search tool, the reflection evaluator stub, the abstract tool base class and the packaging files: not part of the core. A tool is the record `Oracles.Tool(name, description, execute)`.
- Prompt wording: a request carries only the data it embeds (task, context, step description, memory block, step summary).
- Logging calls throughout the core: they have no effect on state or results.
- `await`: calls are sequential, and no other coroutine touches the agent between them.
- `json.loads`, `ast.parse`, float arithmetic and the `math` functions: oracles, so numeric results are not computed.
- `uuid4`: the id is a parameter that must be fresh. The clock is an oracle read by index.
- `repr` of lists and dicts inside f-strings: an oracle.
- Python's rendering of a float: a float is identified by its `repr` string.
- The FAILED status: the source declares it and never sets it, so the model has the constructor and no operation that uses it.
- Orchestrator.ProcessTask: when an exception escapes, Python keeps the partly updated state (the task already created, results and notes already written). The model returns only the exception, and states no facts about that partial state.
- Orchestrator.LaterDuplicateOverwrites: step ids are compared as model values. Python's dict treats `1`, `1.0` and `True` as one key; here they are three.
- Orchestrator.Record: the `TypeError` message for an unhashable step id is "unhashable type", without the type name Python appends.
- Values.Get: a decoded JSON object has distinct keys, so the first binding of a key is the one read. Duplicate keys, where `json.loads` keeps the last, are not modelled.
