/** The calculator tool (tools/calculator.py): `ast.parse` the expression, then evaluate the tree
    with a whitelist of node kinds, operators, functions and names. Parsing and the arithmetic of
    the whitelisted operators and functions are oracles that may fail; what is modelled is which
    trees are accepted, in what order they are checked and evaluated, and how every failure is
    wrapped into an error result. */
module Calculator {
  import opened Wrappers
  import opened Values
  import opened Exceptions
  import opened Oracles

  datatype BinaryOperator =
    Add | Sub | Mult | MatMult | Div | Mod | Pow | LShift | RShift | BitOr | BitXor | BitAnd | FloorDiv

  datatype UnaryOperator = Invert | Not | UAdd | USub

  /** The expression node kinds of Python's `ast`; every kind the evaluator does not handle is
      `Other`, named by its class. */
  datatype Expr =
    | Constant(value: Value)
    | BinOp(left: Expr, bop: BinaryOperator, right: Expr)
    | UnaryOp(uop: UnaryOperator, operand: Expr)
    | Call(func: Expr, args: seq<Expr>, keywords: seq<(string, Expr)>)
    | Name(id: string)
    | Other(kind: string)

  /** The interpreter behind the calculator: `ast.parse(expression, mode="eval").body`, the
      `operator` functions and the `math` functions. A failure carries `str(e)`. */
  datatype Semantics = Semantics(
    parse: Value -> Result<Expr, string>,
    binary: (BinaryOperator, Value, Value) -> Result<Value, string>,
    unary: (UnaryOperator, Value) -> Result<Value, string>,
    call: (string, seq<Value>) -> Result<Value, string>)

  /** The operators the calculator maps: Add, Sub, Mult, Div, Pow, Mod and USub. */
  predicate AllowedBinary(op: BinaryOperator) {
    op in {Add, Sub, Mult, Div, Pow, Mod}
  }

  predicate AllowedUnary(op: UnaryOperator) {
    op == USub
  }

  const Functions: set<string> := {"sin", "cos", "tan", "sqrt", "log", "log10", "exp", "abs", "round"}

  /** `math.pi` and `math.e`, as their float reprs. */
  const Pi := Float("3.141592653589793")
  const E := Float("2.718281828459045")

  function BinaryName(op: BinaryOperator): string {
    match op
    case Add => "Add" case Sub => "Sub" case Mult => "Mult" case MatMult => "MatMult"
    case Div => "Div" case Mod => "Mod" case Pow => "Pow" case LShift => "LShift"
    case RShift => "RShift" case BitOr => "BitOr" case BitXor => "BitXor"
    case BitAnd => "BitAnd" case FloorDiv => "FloorDiv"
  }

  function UnaryName(op: UnaryOperator): string {
    match op
    case Invert => "Invert" case Not => "Not" case UAdd => "UAdd" case USub => "USub"
  }

  /** Every node the evaluator visits is of an accepted kind: constants; whitelisted operators over
      accepted operands; calls of a listed function by bare name on accepted arguments (keyword
      arguments are never looked at); and the names `pi` and `e`. */
  predicate Whitelisted(e: Expr)
    decreases e
  {
    match e
    case Constant(_) => true
    case BinOp(l, op, r) => AllowedBinary(op) && Whitelisted(l) && Whitelisted(r)
    case UnaryOp(op, x) => AllowedUnary(op) && Whitelisted(x)
    case Call(f, args, _) =>
      f.Name? && f.id in Functions && forall i :: 0 <= i < |args| ==> Whitelisted(args[i])
    case Name(id) => id == "pi" || id == "e"
    case Other(_) => false
  }

  /** Arithmetic that never fails. */
  ghost predicate Total(sem: Semantics) {
    && (forall op, a, b :: sem.binary(op, a, b).Success?)
    && (forall op, a :: sem.unary(op, a).Success?)
    && (forall f, vs :: sem.call(f, vs).Success?)
  }

  /** `_eval_node`. An operator node is rejected before its operands are evaluated; operands and
      call arguments are evaluated left to right and the first failure wins. */
  function EvalNode(e: Expr, sem: Semantics): (r: Result<Value, string>)
    ensures r.Success? ==> Whitelisted(e)
    ensures Total(sem) && Whitelisted(e) ==> r.Success?
    ensures e.BinOp? && !AllowedBinary(e.bop) ==> r == Failure("Unsupported operation: " + BinaryName(e.bop))
    ensures e.UnaryOp? && !AllowedUnary(e.uop) ==> r == Failure("Unsupported operation: " + UnaryName(e.uop))
    decreases e
  {
    match e
    case Constant(v) => Success(v)
    case BinOp(l, op, rt) =>
      if !AllowedBinary(op) then Failure("Unsupported operation: " + BinaryName(op))
      else
        var a :- EvalNode(l, sem);
        var b :- EvalNode(rt, sem);
        sem.binary(op, a, b)
    case UnaryOp(op, x) =>
      if !AllowedUnary(op) then Failure("Unsupported operation: " + UnaryName(op))
      else
        var a :- EvalNode(x, sem);
        sem.unary(op, a)
    case Call(f, args, _) =>
      if !f.Name? then Failure("Only simple function calls are supported")
      else if f.id !in Functions then Failure("Unsupported function: " + f.id)
      else
        var vs :- EvalArgs(args, sem);
        sem.call(f.id, vs)
    case Name(id) =>
      if id == "pi" then Success(Pi)
      else if id == "e" then Success(E)
      else Failure("Unknown variable: " + id)
    case Other(kind) => Failure("Unsupported node type: " + kind)
  }

  /** `[self._eval_node(arg) for arg in node.args]`. */
  function EvalArgs(args: seq<Expr>, sem: Semantics): (r: Result<seq<Value>, string>)
    ensures r.Success? ==> |r.value| == |args| && forall i :: 0 <= i < |args| ==> Whitelisted(args[i])
    ensures r.Success? ==> forall i :: 0 <= i < |args| ==> EvalNode(args[i], sem) == Success(r.value[i])
    ensures r.Success? <==> forall i :: 0 <= i < |args| ==> EvalNode(args[i], sem).Success?
    ensures r.Failure? ==>
      exists i :: 0 <= i < |args| && EvalNode(args[i], sem) == Failure(r.error)
                  && forall j :: 0 <= j < i ==> EvalNode(args[j], sem).Success?
    ensures Total(sem) && (forall i :: 0 <= i < |args| ==> Whitelisted(args[i])) ==> r.Success?
    decreases args
  {
    if args == [] then Success([])
    else
      var v :- EvalNode(args[0], sem);
      var vs :- EvalArgs(args[1..], sem);
      assert forall i :: 0 < i < |args| ==> args[1..][i - 1] == args[i];
      Success([v] + vs)
  }

  /** `_evaluate`: every exception from parsing or evaluation becomes a `ValueError` whose
      message starts "Invalid expression: ". */
  function Evaluate(expression: Value, sem: Semantics): (r: Result<Value, string>)
    ensures r.Failure? ==> "Invalid expression: " <= r.error
    ensures r.Success? <==> sem.parse(expression).Success? && EvalNode(sem.parse(expression).value, sem).Success?
    ensures r.Success? ==> r == EvalNode(sem.parse(expression).value, sem)
  {
    match sem.parse(expression)
    case Failure(m) => Failure("Invalid expression: " + m)
    case Success(tree) =>
      match EvalNode(tree, sem)
      case Failure(m) => Failure("Invalid expression: " + m)
      case Success(v) => Success(v)
  }

  /** `execute(parameters)`. `parameters.get` is outside the `try`, so a non-dict raises
      `AttributeError`; for a dict the answer is always a one-key dict, `{"result": v}` or
      `{"error": message}`, and a missing or falsy expression is refused before parsing. */
  function Execute(parameters: Value, sem: Semantics): (r: Result<Value, Exc>)
    ensures r.Failure? <==> !parameters.Dict?
    ensures r.Failure? ==> r.error.kind == AttributeError
    ensures r.Success? ==>
      && r.value.Dict? && |r.value.fields| == 1
      && (r.value.fields[0].0 == "result" || (r.value.fields[0].0 == "error" && r.value.fields[0].1.String?))
    ensures r.Success? && r.value.fields[0].0 == "result" ==> Evaluate(GetOr(parameters.fields, "expression", String("")), sem).Success?
    ensures parameters.Dict? && !Truthy(GetOr(parameters.fields, "expression", String(""))) ==>
      r == Success(Dict([("error", String("No expression provided"))]))
    ensures parameters.Dict? && Truthy(GetOr(parameters.fields, "expression", String(""))) ==>
      match Evaluate(GetOr(parameters.fields, "expression", String("")), sem)
      case Success(v) => r == Success(Dict([("result", v)]))
      case Failure(m) => r == Success(Dict([("error", String("Error evaluating expression: " + m))]))
  {
    if !parameters.Dict? then
      Failure(Exc(AttributeError, "'" + TypeName(parameters) + "' object has no attribute 'get'"))
    else
      var expression := GetOr(parameters.fields, "expression", String(""));
      if !Truthy(expression) then Success(Dict([("error", String("No expression provided"))]))
      else
        match Evaluate(expression, sem)
        case Success(v) => Success(Dict([("result", v)]))
        case Failure(m) => Success(Dict([("error", String("Error evaluating expression: " + m))]))
  }

  /** The tool's description, with the indentation of the source's triple-quoted literal. */
  const Description: string :=
    "Performs mathematical calculations. Supports basic arithmetic,\n            trigonometric functions, logarithms, etc."

  /** The calculator as a tool the agent registers under the name "calculator". */
  function CalculatorTool(sem: Semantics): (t: Tool)
    ensures t.name == "calculator"
    ensures forall p :: t.execute(p) == Execute(p, sem)
  {
    Tool("calculator", Description, (p: Value) => Execute(p, sem))
  }

  /** `get_parameters_schema()`. */
  function ParametersSchema(): Value {
    Dict([("type", String("object")),
          ("properties", Dict([("expression", Dict([("type", String("string")),
                                                    ("description", String("Mathematical expression to evaluate"))]))])),
          ("required", List([String("expression")]))])
  }

  /** The expression of the tool's example. */
  const ExampleExpression := "1000 * (1 + 0.05)**3"

  /** The object `get_example()` serialises. */
  function ExampleParameters(): Value {
    Dict([("expression", String(ExampleExpression))])
  }

  /** `json.dumps` of a dict whose values are strings free of characters JSON escapes. */
  function DumpFlat(d: Fields): string {
    "{" + Join(", ", seq(|d|, i requires 0 <= i < |d| => "\"" + d[i].0 + "\": \"" + Format(d[i].1, _ => "") + "\"")) + "}"
  }

  /** `get_example()`. */
  function GetExample(): string {
    DumpFlat(ExampleParameters().fields)
  }

  /** `params` meets `schema`: every required key is present and every property declared as a
      string is one when present. */
  predicate Satisfies(params: Value, schema: Value) {
    && params.Dict? && schema.Dict?
    && var required := Get(schema.fields, "required");
    && var properties := Get(schema.fields, "properties");
    && required.Some? && required.value.List?
    && (forall i :: 0 <= i < |required.value.items| ==>
          required.value.items[i].String? && HasKey(params.fields, required.value.items[i].s))
    && properties.Some? && properties.value.Dict?
    && (forall i :: 0 <= i < |properties.value.fields| ==>
          StringTyped(properties.value.fields[i].1) ==>
            GetOr(params.fields, properties.value.fields[i].0, String("")).String?)
  }

  /** A property declared as `{"type": "string", ...}`. */
  predicate StringTyped(property: Value) {
    property.Dict? && Get(property.fields, "type") == Some(String("string"))
  }

  /** The schema requires exactly "expression", and the example, whose only key is
      "expression", meets it. */
  lemma ExampleMatchesSchema()
    ensures Get(ParametersSchema().fields, "required") == Some(List([String("expression")]))
    ensures |ExampleParameters().fields| == 1 && ExampleParameters().fields[0].0 == "expression"
    ensures Satisfies(ExampleParameters(), ParametersSchema())
  {
    var ex := ExampleParameters();
    var schema := ParametersSchema();
    assert Get(ex.fields, "expression") == Some(String(ExampleExpression));
    assert Get(schema.fields, "required") == Some(List([String("expression")])) by {
      assert schema.fields[2].0 == "required";
      assert schema.fields[0].0 != "required" && schema.fields[1].0 != "required";
    }
    var props := Get(schema.fields, "properties");
    assert props == Some(schema.fields[1].1) by {
      assert schema.fields[0].0 != "properties";
    }
    var p := props.value.fields;
    assert |p| == 1 && p[0].0 == "expression";
  }

  /** `get_example()` is the JSON text of the example object. */
  lemma ExampleText()
    ensures GetExample() == "{\"expression\": \"" + ExampleExpression + "\"}"
  {
    var d := ExampleParameters().fields;
    var entry := "\"" + d[0].0 + "\": \"" + Format(d[0].1, _ => "") + "\"";
    assert seq(|d|, i requires 0 <= i < |d| => "\"" + d[i].0 + "\": \"" + Format(d[i].1, _ => "") + "\"") == [entry];
    assert Join(", ", [entry]) == entry;
  }

  /** Evaluation is compositional: a constant is its own value, an accepted operator applies its
      arithmetic to its operands' values, the left operand's failure wins over the right's, and
      each rejected call, name or node kind has its own message. */
  lemma EvalNodeComposes(e: Expr, sem: Semantics)
    ensures e.Constant? ==> EvalNode(e, sem) == Success(e.value)
    ensures e.BinOp? && AllowedBinary(e.bop) ==>
      var a, b := EvalNode(e.left, sem), EvalNode(e.right, sem);
      && (a.Failure? ==> EvalNode(e, sem) == Failure(a.error))
      && (a.Success? && b.Failure? ==> EvalNode(e, sem) == Failure(b.error))
      && (a.Success? && b.Success? ==> EvalNode(e, sem) == sem.binary(e.bop, a.value, b.value))
    ensures e.UnaryOp? && AllowedUnary(e.uop) ==>
      var a := EvalNode(e.operand, sem);
      && (a.Failure? ==> EvalNode(e, sem) == Failure(a.error))
      && (a.Success? ==> EvalNode(e, sem) == sem.unary(e.uop, a.value))
    ensures e.Call? && e.func.Name? && e.func.id in Functions ==>
      var vs := EvalArgs(e.args, sem);
      && (vs.Failure? ==> EvalNode(e, sem) == Failure(vs.error))
      && (vs.Success? ==> EvalNode(e, sem) == sem.call(e.func.id, vs.value))
    ensures e.Call? && !e.func.Name? ==> EvalNode(e, sem) == Failure("Only simple function calls are supported")
    ensures e.Call? && e.func.Name? && e.func.id !in Functions ==>
      EvalNode(e, sem) == Failure("Unsupported function: " + e.func.id)
    ensures e.Name? && e.id != "pi" && e.id != "e" ==> EvalNode(e, sem) == Failure("Unknown variable: " + e.id)
    ensures e.Name? && e.id == "pi" ==> EvalNode(e, sem) == Success(Pi)
    ensures e.Other? ==> EvalNode(e, sem) == Failure("Unsupported node type: " + e.kind)
  {
  }

  /** With arithmetic that never fails, an expression evaluates exactly when its tree is
      whitelisted. */
  lemma AcceptsExactlyWhitelisted(e: Expr, sem: Semantics)
    requires Total(sem)
    ensures EvalNode(e, sem).Success? <==> Whitelisted(e)
  {
  }
}
