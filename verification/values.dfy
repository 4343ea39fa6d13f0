/** The dynamic Python values the agent passes around: decoded JSON plans, step dictionaries,
    tool parameters and outputs, LLM replies. Together with the few built-in operations the core
    applies to them: `dict.get`, `in`, truthiness, hashing, f-string rendering, `str.find`,
    `str.rfind`, slicing and `"\n".join`. */
module Values {
  import opened Wrappers

  datatype Value =
    | Null
    | Bool(b: bool)
    | Int(i: int)
      /** A float, identified by its `repr` ("0.1", "-0.0", "inf"); its arithmetic is not modelled. */
    | Float(repr: string)
    | String(s: string)
    | List(items: seq<Value>)
      /** A dict with string keys, in insertion order. */
    | Dict(fields: Fields)

  type Fields = seq<(string, Value)>

  // ---------------------------------------------------------------------------------------
  // Dictionaries

  /** `d[key]` when present; the first binding wins (decoded JSON objects have distinct keys). */
  function Get(d: Fields, key: string): (r: Option<Value>)
    ensures r.None? <==> forall i :: 0 <= i < |d| ==> d[i].0 != key
    ensures r.Some? ==> exists i :: 0 <= i < |d| && d[i] == (key, r.value)
  {
    if d == [] then None
    else if d[0].0 == key then Some(d[0].1)
    else
      var r := Get(d[1..], key);
      assert r.Some? ==> d[1..][0..] == d[1..];
      r
  }

  /** `key in d`. */
  predicate HasKey(d: Fields, key: string) {
    Get(d, key).Some?
  }

  /** `d.get(key, default)`. */
  function GetOr(d: Fields, key: string, default: Value): Value {
    Get(d, key).GetOr(default)
  }

  // ---------------------------------------------------------------------------------------
  // Truthiness and hashing

  /** Python's `bool(v)`: `None`, `False`, zero, and empty strings and containers are false. */
  predicate Truthy(v: Value) {
    match v
    case Null => false
    case Bool(b) => b
    case Int(i) => i != 0
    case Float(r) => r != "0.0" && r != "-0.0"
    case String(s) => s != ""
    case List(items) => items != []
    case Dict(fields) => fields != []
  }

  /** Lists and dicts cannot be dict keys: using one raises `TypeError: unhashable type`. */
  predicate Hashable(v: Value) {
    !v.List? && !v.Dict?
  }

  // ---------------------------------------------------------------------------------------
  // Rendering

  /** `type(v).__name__`. */
  function TypeName(v: Value): string {
    match v
    case Null => "NoneType"
    case Bool(_) => "bool"
    case Int(_) => "int"
    case Float(_) => "float"
    case String(_) => "str"
    case List(_) => "list"
    case Dict(_) => "dict"
  }

  function DigitChar(d: nat): char
    requires d < 10
  {
    "0123456789"[d]
  }

  function NatToString(n: nat): (r: string)
    ensures |r| > 0
    decreases n
  {
    if n < 10 then [DigitChar(n)] else NatToString(n / 10) + [DigitChar(n % 10)]
  }

  /** `str(i)` for an int. */
  function IntToString(i: int): string {
    if i < 0 then "-" + NatToString(-i) else NatToString(i)
  }

  /** `f"{v}"`. Scalars render as Python prints them; lists and dicts go through `repr`, the
      interpreter's container rendering, which the model does not spell out. */
  function Format(v: Value, repr: Value -> string): string {
    match v
    case Null => "None"
    case Bool(b) => if b then "True" else "False"
    case Int(i) => IntToString(i)
    case Float(r) => r
    case String(s) => s
    case List(_) => repr(v)
    case Dict(_) => repr(v)
  }

  // ---------------------------------------------------------------------------------------
  // Strings and sequences

  /** `sub in s` for strings: `sub` occurs as a contiguous piece of `s`. */
  predicate Contains(s: string, sub: string)
    decreases |s|
  {
    sub <= s || (|s| > 0 && Contains(s[1..], sub))
  }

  lemma {:induction false} ContainsInSuffix(a: string, b: string, sub: string)
    requires Contains(b, sub)
    ensures Contains(a + b, sub)
    decreases |a|
  {
    if a == [] {
      assert a + b == b;
    } else {
      assert (a + b)[1..] == a[1..] + b;
      ContainsInSuffix(a[1..], b, sub);
    }
  }

  lemma {:induction false} ContainsInPrefix(a: string, b: string, sub: string)
    requires Contains(a, sub)
    ensures Contains(a + b, sub)
    decreases |a|
  {
    if sub <= a {
      assert sub <= a + b;
    } else {
      assert (a + b)[1..] == a[1..] + b;
      ContainsInPrefix(a[1..], b, sub);
    }
  }

  lemma ContainsItself(s: string)
    ensures Contains(s, s)
  {
  }

  /** `sep.join(lines)`. */
  function Join(sep: string, lines: seq<string>): string
    decreases |lines|
  {
    if |lines| == 0 then ""
    else if |lines| == 1 then lines[0]
    else lines[0] + sep + Join(sep, lines[1..])
  }

  /** Every joined line occurs in the joined text. */
  lemma {:induction false} JoinContainsEachLine(sep: string, lines: seq<string>, i: nat)
    requires i < |lines|
    ensures Contains(Join(sep, lines), lines[i])
    decreases |lines|
  {
    ContainsItself(lines[i]);
    if |lines| > 1 {
      if i == 0 {
        ContainsInPrefix(lines[0], sep + Join(sep, lines[1..]), lines[0]);
        assert lines[0] + sep + Join(sep, lines[1..]) == lines[0] + (sep + Join(sep, lines[1..]));
      } else {
        JoinContainsEachLine(sep, lines[1..], i - 1);
        assert lines[1..][i - 1] == lines[i];
        ContainsInSuffix(lines[0] + sep, Join(sep, lines[1..]), lines[i]);
      }
    }
  }

  /** Joining a concatenation joins the two parts with one more separator between them. */
  lemma {:induction false} JoinAppend(sep: string, a: seq<string>, b: seq<string>)
    requires |a| > 0 && |b| > 0
    ensures Join(sep, a + b) == Join(sep, a) + sep + Join(sep, b)
    decreases |a|
  {
    if |a| == 1 {
      assert (a + b)[1..] == b;
    } else {
      assert (a + b)[1..] == a[1..] + b;
      JoinAppend(sep, a[1..], b);
    }
  }

  /** The index a Python slice bound `i` denotes in a sequence of length `n`. */
  function SliceIndex(i: int, n: nat): (k: nat)
    ensures k <= n
  {
    if i < 0 then (if n + i < 0 then 0 else n + i) else (if i > n then n else i)
  }

  /** `s[i:j]` with Python's clamping of out-of-range and negative bounds. */
  function Slice<T>(s: seq<T>, i: int, j: int): seq<T> {
    var a := SliceIndex(i, |s|);
    var b := SliceIndex(j, |s|);
    if a <= b then s[a..b] else []
  }

  lemma SliceWithinBounds<T>(s: seq<T>, i: int, j: int)
    requires 0 <= i <= |s| && 0 <= j <= |s|
    ensures Slice(s, i, j) == if i <= j then s[i..j] else []
  {
  }

  /** `s[i:]`. */
  function SliceFrom<T>(s: seq<T>, i: int): seq<T> {
    s[SliceIndex(i, |s|)..]
  }

  /** `s.find(c)`: the first index of `c`, or -1. */
  function Find(s: string, c: char): (r: int)
    ensures -1 <= r < |s|
    ensures r == -1 <==> c !in s
    ensures r >= 0 ==> s[r] == c && forall k :: 0 <= k < r ==> s[k] != c
    decreases |s|
  {
    if |s| == 0 then -1
    else if s[0] == c then 0
    else
      var k := Find(s[1..], c);
      assert forall j :: 0 <= j < |s| - 1 ==> s[1..][j] == s[j + 1];
      assert c in s[1..] ==> c in s;
      assert c in s && s[0] != c ==> c in s[1..];
      if k == -1 then -1 else k + 1
  }

  /** `s.rfind(c)`: the last index of `c`, or -1. */
  function RFind(s: string, c: char): (r: int)
    ensures -1 <= r < |s|
    ensures r == -1 <==> c !in s
    ensures r >= 0 ==> s[r] == c && forall k :: r < k < |s| ==> s[k] != c
    decreases |s|
  {
    if |s| == 0 then -1
    else if s[|s| - 1] == c then |s| - 1
    else
      var pre := s[..|s| - 1];
      assert s == pre + [s[|s| - 1]];
      RFind(pre, c)
  }
}
