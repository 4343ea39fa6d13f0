/** The agent's state (agent/core/state.py): a map from task id to a task record with a fixed set
    of keys, a "current task" pointer, and an append-only memory log. The clock is an oracle
    `now(n)` for the n-th reading; the state counts the readings taken so far. */
module State {
  import opened Wrappers
  import opened Values
  import opened Exceptions
  import opened StepResults

  datatype TaskStatus = Pending | Planning | Executing | Completed | Failed

  /** A value stored under one key of a task record. */
  datatype Field =
    | Text(text: string)
    | Status(status: TaskStatus)
    | PlanField(plan: Value)
    | Count(count: int)
    | ResultsField(results: map<Value, StepResult>)

  /** A task record: a dictionary from key to field. */
  type Task = map<string, Field>

  datatype MemoryEntry = MemoryEntry(content: string, kind: string, timestamp: string)

  datatype AgentState = AgentState(
    tasks: map<string, Task>,
    memory: seq<MemoryEntry>,
    currentTaskId: Option<string>,
    clock: nat)

  /** The keys `create_task` gives every record. */
  const TaskKeys: set<string> :=
    {"id", "description", "status", "created_at", "updated_at", "plan", "current_step", "results"}

  const DefaultMemoryType := "observation"
  const DefaultRecentLimit := 10

  function InitialState(): (s: AgentState)
    ensures s.tasks == map[] && s.memory == [] && s.currentTaskId.None?
  {
    AgentState(map[], [], None, 0)
  }

  /** The field kind each known key holds. */
  predicate FieldFits(key: string, f: Field) {
    if key in {"id", "description", "created_at", "updated_at"} then f.Text?
    else if key == "status" then f.Status?
    else if key == "plan" then f.PlanField?
    else if key == "current_step" then f.Count?
    else if key == "results" then f.ResultsField?
    else true
  }

  /** A record with exactly the keys `create_task` gives, each holding its kind of field. */
  predicate WellFormedTask(t: Task) {
    t.Keys == TaskKeys && forall k :: k in t ==> FieldFits(k, t[k])
  }

  /** Updates that write each known key with a field of its kind. */
  predicate TypedUpdates(updates: map<string, Field>) {
    forall k :: k in updates ==> FieldFits(k, updates[k])
  }

  /** The error `update_task` and `get_task` raise for an absent id. */
  function NotFound(id: string): Exc {
    Exc(ValueError, "Task " + id + " not found")
  }

  /** `create_task(description)` with the id `uuid4` drew: a PENDING record with an empty plan,
      no results and step counter 0, stamped with two clock readings, becomes the current task. */
  function CreateTask(s: AgentState, description: string, id: string, now: nat -> string): (r: AgentState)
    requires id !in s.tasks
    ensures r.tasks.Keys == s.tasks.Keys + {id}
    ensures forall t :: t in s.tasks ==> r.tasks[t] == s.tasks[t]
    ensures WellFormedTask(r.tasks[id])
    ensures r.tasks[id]["id"] == Text(id) && r.tasks[id]["description"] == Text(description)
    ensures r.tasks[id]["status"] == Status(Pending)
    ensures r.tasks[id]["plan"] == PlanField(List([]))
    ensures r.tasks[id]["current_step"] == Count(0)
    ensures r.tasks[id]["results"] == ResultsField(map[])
    ensures r.tasks[id]["created_at"] == Text(now(s.clock))
    ensures r.tasks[id]["updated_at"] == Text(now(s.clock + 1))
    ensures r.currentTaskId == Some(id)
    ensures r.memory == s.memory && r.clock == s.clock + 2
  {
    var record := map[
      "id" := Text(id),
      "description" := Text(description),
      "status" := Status(Pending),
      "created_at" := Text(now(s.clock)),
      "updated_at" := Text(now(s.clock + 1)),
      "plan" := PlanField(List([])),
      "current_step" := Count(0),
      "results" := ResultsField(map[])];
    s.(tasks := s.tasks[id := record], currentTaskId := Some(id), clock := s.clock + 2)
  }

  /** `update_task(task_id, **updates)`: a narrow write. Only keys the record already has are
      overwritten, unknown keys are ignored, and `updated_at` is always refreshed, last. */
  function UpdateTask(s: AgentState, id: string, updates: map<string, Field>, now: nat -> string): (r: Result<AgentState, Exc>)
    ensures r.Failure? <==> id !in s.tasks
    ensures r.Failure? ==> r.error == NotFound(id)
    ensures r.Success? ==> r.value.tasks.Keys == s.tasks.Keys
    ensures r.Success? ==>
      var t, t' := s.tasks[id], r.value.tasks[id];
      && (forall u :: u in s.tasks && u != id ==> r.value.tasks[u] == s.tasks[u])
      && t'.Keys == t.Keys + {"updated_at"}
      && (forall k :: k in t && k in updates && k != "updated_at" ==> t'[k] == updates[k])
      && (forall k :: k in t && k !in updates && k != "updated_at" ==> t'[k] == t[k])
      && t'["updated_at"] == Text(now(s.clock))
      && r.value.memory == s.memory
      && r.value.currentTaskId == s.currentTaskId
      && r.value.clock == s.clock + 1
  {
    if id !in s.tasks then Failure(NotFound(id))
    else
      var t := s.tasks[id];
      var written := map k | k in t :: if k in updates then updates[k] else t[k];
      var stamped := written["updated_at" := Text(now(s.clock))];
      Success(s.(tasks := s.tasks[id := stamped], clock := s.clock + 1))
  }

  /** `add_memory(content, memory_type)`: one entry appended at the end, stamped by the clock. */
  function AddMemory(s: AgentState, content: string, now: nat -> string, kind: string := DefaultMemoryType): (r: AgentState)
    ensures |r.memory| == |s.memory| + 1
    ensures r.memory[..|s.memory|] == s.memory
    ensures r.memory[|s.memory|] == MemoryEntry(content, kind, now(s.clock))
    ensures r.tasks == s.tasks && r.currentTaskId == s.currentTaskId && r.clock == s.clock + 1
  {
    s.(memory := s.memory + [MemoryEntry(content, kind, now(s.clock))], clock := s.clock + 1)
  }

  /** `get_recent_memory(limit)`: `memory[-limit:] if memory else []`. */
  function RecentMemory(memory: seq<MemoryEntry>, limit: int := DefaultRecentLimit): (r: seq<MemoryEntry>)
    ensures memory == [] ==> r == []
    ensures limit >= 1 && limit <= |memory| ==> r == memory[|memory| - limit..]
    ensures limit >= 1 && limit > |memory| ==> r == memory
    ensures limit == 0 ==> r == memory
    ensures limit < 0 && -limit <= |memory| ==> r == memory[-limit..]
    ensures limit < 0 && -limit > |memory| ==> r == []
  {
    if memory == [] then [] else SliceFrom(memory, -limit)
  }

  /** The same read on a whole state: it returns a value and leaves the state alone. */
  function GetRecentMemory(s: AgentState, limit: int := DefaultRecentLimit): (r: seq<MemoryEntry>)
    ensures |r| <= |s.memory|
    ensures limit >= 1 ==> |r| == (if limit < |s.memory| then limit else |s.memory|)
    ensures forall i :: 0 <= i < |r| ==> r[i] == s.memory[|s.memory| - |r| + i]
  {
    RecentMemory(s.memory, limit)
  }

  /** `get_task(task_id)`; an omitted id reads the current task pointer. */
  function GetTask(s: AgentState, id: Option<string>): (r: Result<Task, Exc>)
    ensures id.Some? ==> (r.Success? <==> id.value in s.tasks)
    ensures id.None? && s.currentTaskId.None? ==> r == Failure(Exc(ValueError, "Task None not found"))
    ensures id.None? && s.currentTaskId.Some? ==> (r.Success? <==> s.currentTaskId.value in s.tasks)
    ensures r.Success? ==> exists k :: k in s.tasks && r.value == s.tasks[k] && (id.Some? ==> k == id.value)
    ensures r.Success? && id.None? ==> r.value == s.tasks[s.currentTaskId.value]
  {
    if id.None? && s.currentTaskId.None? then Failure(Exc(ValueError, "Task None not found"))
    else
      var key := if id.Some? then id.value else s.currentTaskId.value;
      if key in s.tasks then Success(s.tasks[key]) else Failure(NotFound(key))
  }

  /** `tasks[task_id]["results"][step_id] = result`: a direct write that bypasses `update_task`,
      so `updated_at` keeps its value; a later result for the same step id replaces the earlier. */
  function StoreResult(s: AgentState, id: string, stepId: Value, result: StepResult): (r: AgentState)
    requires id in s.tasks && WellFormedTask(s.tasks[id])
    ensures r.tasks.Keys == s.tasks.Keys
    ensures forall u :: u in s.tasks && u != id ==> r.tasks[u] == s.tasks[u]
    ensures WellFormedTask(r.tasks[id])
    ensures r.tasks[id]["results"].results == s.tasks[id]["results"].results[stepId := result]
    ensures forall k :: k in TaskKeys && k != "results" ==> r.tasks[id][k] == s.tasks[id][k]
    ensures r.memory == s.memory && r.currentTaskId == s.currentTaskId && r.clock == s.clock
  {
    var t := s.tasks[id];
    var results := t["results"].results;
    s.(tasks := s.tasks[id := t["results" := ResultsField(results[stepId := result])]])
  }

  /** A well-formed record stays well formed under typed updates, and keeps its key set. */
  lemma UpdatePreservesShape(s: AgentState, id: string, updates: map<string, Field>, now: nat -> string)
    requires id in s.tasks && WellFormedTask(s.tasks[id]) && TypedUpdates(updates)
    ensures UpdateTask(s, id, updates, now).Success?
    ensures WellFormedTask(UpdateTask(s, id, updates, now).value.tasks[id])
  {
  }

  /** Updating with only unknown keys changes nothing but `updated_at`. */
  lemma UnknownKeysIgnored(s: AgentState, id: string, updates: map<string, Field>, now: nat -> string)
    requires id in s.tasks && updates.Keys !! s.tasks[id].Keys
    ensures UpdateTask(s, id, updates, now).Success?
    ensures UpdateTask(s, id, updates, now).value.tasks[id]
         == s.tasks[id]["updated_at" := Text(now(s.clock))]
  {
    var t' := UpdateTask(s, id, updates, now).value.tasks[id];
    assert t'.Keys == s.tasks[id].Keys + {"updated_at"};
  }
}
