/** `TaskPlanner.create_plan` (agent/planning/planner.py): one completion request, a tolerant
    extraction of the JSON payload from the reply, decoding, a key check on every step, and a
    single-step fallback plan for every failure in the `(ValueError, SyntaxError, TypeError)`
    family. Assertion failures and a `None` reply are not in that family and escape. */
module Planner {
  import opened Wrappers
  import opened Values
  import opened Exceptions
  import opened Oracles

  // ---------------------------------------------------------------------------------------
  // Locating the JSON payload in the reply

  predicate IsOpener(c: char) {
    c == '[' || c == '{'
  }

  predicate IsCloser(c: char) {
    c == ']' || c == '}'
  }

  /** The payload start: the first `[` or `{`, or -1 when the reply has neither. */
  function JsonStart(reply: string): (k: int)
    ensures -1 <= k < |reply|
    ensures k == -1 <==> forall i :: 0 <= i < |reply| ==> !IsOpener(reply[i])
    ensures k >= 0 ==> IsOpener(reply[k]) && forall i :: 0 <= i < k ==> !IsOpener(reply[i])
  {
    var bracket := Find(reply, '[');
    var brace := Find(reply, '{');
    if bracket != -1 && brace != -1 then (if bracket < brace then bracket else brace)
    else (if bracket > brace then bracket else brace)
  }

  /** The payload end: one past the last `]` or `}`, or 0 when the reply has neither. */
  function JsonEnd(reply: string): (k: int)
    ensures 0 <= k <= |reply|
    ensures k == 0 <==> forall i :: 0 <= i < |reply| ==> !IsCloser(reply[i])
    ensures k > 0 ==> IsCloser(reply[k - 1]) && forall i :: k <= i < |reply| ==> !IsCloser(reply[i])
  {
    var bracket := RFind(reply, ']');
    var brace := RFind(reply, '}');
    (if bracket > brace then bracket else brace) + 1
  }

  /** The text handed to `json.loads`: the slice from the first opener to the last closer, which
      is empty when that closer comes before the opener, or the whole reply when either is
      missing. */
  function ExtractJson(reply: string): (j: string)
    ensures var start, end := JsonStart(reply), JsonEnd(reply);
      && (start == -1 || end == 0 ==> j == reply)
      && (0 <= start && 0 < end <= start ==> j == "")
      && (0 <= start < end ==> j == reply[start..end])
  {
    var start := JsonStart(reply);
    var end := JsonEnd(reply);
    if start != -1 && end != 0 then
      SliceWithinBounds(reply, start, end);
      Slice(reply, start, end)
    else reply
  }

  /** A reply that already starts with an opener and ends with a closer passes through whole. */
  lemma ExtractKeepsFramedText(t: string)
    requires |t| > 0 && IsOpener(t[0]) && IsCloser(t[|t| - 1])
    ensures ExtractJson(t) == t
  {
    assert JsonStart(t) == 0;
    assert JsonEnd(t) == |t|;
  }

  /** Extraction is idempotent. */
  lemma ExtractIdempotent(reply: string)
    ensures ExtractJson(ExtractJson(reply)) == ExtractJson(reply)
  {
    var j := ExtractJson(reply);
    if 0 <= JsonStart(reply) < JsonEnd(reply) {
      ExtractKeepsFramedText(j);
    } else if j == "" {
      assert JsonStart(j) == -1;
    }
  }

  predicate NoBrackets(s: string) {
    forall i :: 0 <= i < |s| ==> !IsOpener(s[i]) && !IsCloser(s[i])
  }

  /** Prose around a bracketed payload is cut away: "Here is the plan: [...] Hope that helps!"
      yields exactly "[...]". */
  lemma ExtractDropsSurroundingProse(before: string, payload: string, after: string)
    requires NoBrackets(before) && NoBrackets(after)
    requires |payload| > 0 && IsOpener(payload[0]) && IsCloser(payload[|payload| - 1])
    ensures ExtractJson(before + payload + after) == payload
  {
    var reply := before + payload + after;
    var n := |before| + |payload|;
    assert reply[|before|] == payload[0];
    assert reply[n - 1] == payload[|payload| - 1];
    assert forall i :: 0 <= i < |before| ==> reply[i] == before[i];
    assert forall i :: n <= i < |reply| ==> reply[i] == after[i - n];
    assert JsonStart(reply) == |before|;
    assert JsonEnd(reply) == n;
    assert reply[|before|..n] == payload;
  }

  /** When every closer comes before every opener the payload is empty, e.g. "} then [". */
  lemma ExtractEmptyWhenReversed(reply: string, opener: nat, closer: nat)
    requires opener < |reply| && IsOpener(reply[opener])
    requires closer < |reply| && IsCloser(reply[closer])
    requires forall i, k :: 0 <= i < |reply| && 0 <= k < |reply| && IsCloser(reply[i]) && IsOpener(reply[k]) ==> i < k
    ensures ExtractJson(reply) == ""
  {
    var start, end := JsonStart(reply), JsonEnd(reply);
    assert IsCloser(reply[end - 1]) && IsOpener(reply[start]);
  }

  // ---------------------------------------------------------------------------------------
  // Validating the decoded plan

  /** How the validation loop ends: normally, or with the exception it raised. */
  datatype Check = Accepted | Raised(exc: Exc)

  const RequiredKeys: seq<string> := ["step_id", "description", "requires_tool"]

  /** A step the validation loop lets through: a dict with the three required keys. */
  predicate IsStep(v: Value) {
    v.Dict? && forall k :: k in RequiredKeys ==> HasKey(v.fields, k)
  }

  /** Plans `create_plan` returns as decoded: a list of steps, or an empty dict or string (both
      have a length and iterate over nothing). */
  predicate AcceptedPlan(v: Value) {
    || (v.List? && forall i :: 0 <= i < |v.items| ==> IsStep(v.items[i]))
    || v == Dict([])
    || v == String("")
  }

  /** One iteration of the validation loop: `assert key in step` for the three keys, then the
      debug call's `step['step_id']`. `in` is a key test on a dict, a substring test on a string
      and a membership test on a list; on anything else it raises `TypeError`, and so does
      indexing a string or a list by a string key. */
  function CheckStep(step: Value): (c: Check)
    ensures c.Accepted? <==> IsStep(step)
    ensures c.Raised? ==> c.exc.kind == AssertionError || c.exc.kind == TypeError
    ensures step.Dict? && !IsStep(step) ==> c.Raised? && c.exc.kind == AssertionError
  {
    match step
    case Dict(f) =>
      if HasKey(f, "step_id") && HasKey(f, "description") && HasKey(f, "requires_tool") then Accepted
      else Raised(Exc(AssertionError, ""))
    case String(s) =>
      if Contains(s, "step_id") && Contains(s, "description") && Contains(s, "requires_tool")
      then Raised(Exc(TypeError, "string indices must be integers"))
      else Raised(Exc(AssertionError, ""))
    case List(items) =>
      if String("step_id") in items && String("description") in items && String("requires_tool") in items
      then Raised(Exc(TypeError, "list indices must be integers or slices, not str"))
      else Raised(Exc(AssertionError, ""))
    case _ => Raised(Exc(TypeError, "argument of type '" + TypeName(step) + "' is not iterable"))
  }

  /** The validation loop over a list plan: the first step that raises ends it. */
  function CheckSteps(steps: seq<Value>): (c: Check)
    ensures c.Accepted? <==> forall i :: 0 <= i < |steps| ==> IsStep(steps[i])
    ensures c.Raised? ==>
      exists i :: 0 <= i < |steps| && c == CheckStep(steps[i])
                  && forall j :: 0 <= j < i ==> IsStep(steps[j])
    decreases |steps|
  {
    if steps == [] then Accepted
    else match CheckStep(steps[0])
      case Raised(e) => Raised(e)
      case Accepted =>
        var rest := CheckSteps(steps[1..]);
        FirstRaiseShifts(steps, rest);
        rest
  }

  lemma FirstRaiseShifts(steps: seq<Value>, rest: Check)
    requires |steps| > 0 && IsStep(steps[0])
    requires rest.Raised? ==>
      exists i :: 0 <= i < |steps| - 1 && rest == CheckStep(steps[1..][i])
                  && forall j :: 0 <= j < i ==> IsStep(steps[1..][j])
    ensures rest.Raised? ==>
      exists i :: 0 <= i < |steps| && rest == CheckStep(steps[i])
                  && forall j :: 0 <= j < i ==> IsStep(steps[j])
  {
    if rest.Raised? {
      var i :| 0 <= i < |steps| - 1 && rest == CheckStep(steps[1..][i])
               && forall j :: 0 <= j < i ==> IsStep(steps[1..][j]);
      assert rest == CheckStep(steps[i + 1]);
      forall j | 0 < j < i + 1 ensures IsStep(steps[j]) {
        assert IsStep(steps[1..][j - 1]);
      }
    }
  }

  /** The whole validation: `len(plan)` for the log line, then the loop. A dict iterates over its
      keys and a string over its characters, so a non-empty one fails on its first element. */
  function CheckPlan(plan: Value): (c: Check)
    ensures c.Accepted? <==> AcceptedPlan(plan)
    ensures c.Raised? ==> c.exc.kind == AssertionError || c.exc.kind == TypeError
  {
    match plan
    case List(items) => CheckSteps(items)
    case Dict(f) => if f == [] then Accepted else CheckStep(String(f[0].0))
    case String(s) => if s == "" then Accepted else CheckStep(String([s[0]]))
    case _ => Raised(Exc(TypeError, "object of type '" + TypeName(plan) + "' has no len()"))
  }

  // ---------------------------------------------------------------------------------------
  // The plan

  /** The step dictionary of the fallback plan. */
  function FallbackStep(description: string): Fields {
    [("step_id", Int(1)),
     ("description", String("Complete the task: " + description)),
     ("requires_tool", Bool(false)),
     ("tool_name", Null),
     ("tool_parameters", Null)]
  }

  /** The plan returned after a caught failure: one reasoning step that restates the task. */
  function FallbackPlan(description: string): (p: Value)
    ensures AcceptedPlan(p) && p.List? && |p.items| == 1
    ensures Get(p.items[0].fields, "step_id") == Some(Int(1))
    ensures Get(p.items[0].fields, "description") == Some(String("Complete the task: " + description))
    ensures !Truthy(GetOr(p.items[0].fields, "requires_tool", Bool(false)))
  {
    var step := Dict(FallbackStep(description));
    assert step.fields[0].0 == "step_id" && step.fields[1].0 == "description";
    assert step.fields[2].0 == "requires_tool";
    List([step])
  }

  /** `create_plan` from the completion reply on: extraction, `json.loads`, validation, fallback. */
  function PlanFromReply(description: string, reply: Option<string>, loadJson: string -> Result<Value, string>): (r: Result<Value, Exc>)
    ensures reply.None? ==> r.Failure? && r.error.kind == AttributeError
    ensures r.Success? ==> AcceptedPlan(r.value)
    ensures r.Failure? ==> !Caught(r.error)
    ensures reply.Some? && loadJson(ExtractJson(reply.value)).Failure? ==> r == Success(FallbackPlan(description))
    ensures reply.Some? && loadJson(ExtractJson(reply.value)).Success? ==>
      var decoded := loadJson(ExtractJson(reply.value)).value;
      && (AcceptedPlan(decoded) ==> r == Success(decoded))
      && (!AcceptedPlan(decoded) ==>
            r == Success(FallbackPlan(description)) || (r.Failure? && r.error.kind == AssertionError))
  {
    match reply
    case None => Failure(Exc(AttributeError, "'NoneType' object has no attribute 'find'"))
    case Some(text) =>
      match loadJson(ExtractJson(text))
      case Failure(_) => Success(FallbackPlan(description))
      case Success(decoded) =>
        match CheckPlan(decoded)
        case Accepted => Success(decoded)
        case Raised(e) => if Caught(e) then Success(FallbackPlan(description)) else Failure(e)
  }

  /** `create_plan(task_description, context)`: one planning request, then `PlanFromReply`. */
  function CreatePlan(env: Env, description: string, context: string := ""): (r: Result<Value, Exc>)
    ensures r.Success? ==> AcceptedPlan(r.value)
    ensures r.Failure? ==> r.error.kind == AssertionError || r.error.kind == AttributeError
    ensures r.Failure? && r.error.kind == AttributeError <==> env.complete(PlanRequest(description, context)).None?
  {
    PlanFromReply(description, env.complete(PlanRequest(description, context)), env.loadJson)
  }

  /** A decoded list whose first non-step element is a dict missing a required key raises an
      assertion failure that `create_plan` does not catch. */
  lemma MissingKeyEscapes(description: string, reply: string, loadJson: string -> Result<Value, string>, j: nat)
    requires loadJson(ExtractJson(reply)).Success?
    requires var d := loadJson(ExtractJson(reply)).value;
      && d.List? && j < |d.items|
      && (forall i :: 0 <= i < j ==> IsStep(d.items[i]))
      && d.items[j].Dict? && !IsStep(d.items[j])
    ensures PlanFromReply(description, Some(reply), loadJson) == Failure(Exc(AssertionError, ""))
  {
    var items := loadJson(ExtractJson(reply)).value.items;
    CheckStepsFirstFailure(items, j);
  }

  lemma {:induction false} CheckStepsFirstFailure(steps: seq<Value>, j: nat)
    requires j < |steps| && (forall i :: 0 <= i < j ==> IsStep(steps[i])) && !IsStep(steps[j])
    ensures CheckSteps(steps) == CheckStep(steps[j])
    decreases j
  {
    if j > 0 {
      assert IsStep(steps[0]);
      assert forall i :: 0 <= i < j - 1 ==> steps[1..][i] == steps[i + 1];
      CheckStepsFirstFailure(steps[1..], j - 1);
    }
  }

  /** A decoded scalar (a number, a boolean, null) has no length: the `TypeError` is caught and
      the fallback plan returned. */
  lemma ScalarFallsBack(description: string, reply: string, loadJson: string -> Result<Value, string>)
    requires loadJson(ExtractJson(reply)).Success?
    requires var d := loadJson(ExtractJson(reply)).value; d.Null? || d.Bool? || d.Int? || d.Float?
    ensures PlanFromReply(description, Some(reply), loadJson) == Success(FallbackPlan(description))
  {
  }
}
