/** Dynamic values as the Python code sees them after `json.loads`, with the
    few built-in operations (truthiness, `in`, `>`, `len`, `str`, `lower`,
    `strip`) whose semantics the modelled code relies on. */
module PyValue {

  datatype Option<+T> = None | Some(value: T)

  /** The outcome of Python code that may raise: `Fault` stands for any
      exception that escapes the modelled function. */
  datatype Result<+T> = Ok(value: T) | Fault

  /** The outcome of an HTTP endpoint: a body, an `HTTPException` with its
      status code and detail, or an unexpected exception (`Crash`). */
  datatype Response<+T> = Reply(body: T) | HttpError(status: int, detail: string) | Crash

  /** A JSON-shaped Python value. `VFloat` keeps both the number and the text
      `str()` prints for it. Dictionaries are keyed by strings, as JSON objects are. */
  datatype Value =
    | VNone
    | VBool(b: bool)
    | VInt(i: int)
    | VFloat(r: real, text: string)
    | VStr(s: string)
    | VList(items: seq<Value>)
    | VDict(fields: map<string, Value>)

  /** A Python `dict` object that a callee may update in place. */
  class PyDict {
    var entries: map<string, Value>

    constructor (m: map<string, Value>)
      ensures entries == m
    {
      entries := m;
    }
  }

  /** Python truthiness (`bool(v)`). */
  predicate Truthy(v: Value) {
    match v
    case VNone => false
    case VBool(b) => b
    case VInt(i) => i != 0
    case VFloat(r, _) => r != 0.0
    case VStr(s) => s != []
    case VList(xs) => xs != []
    case VDict(m) => m != map[]
  }

  /** Python's `a or b`. */
  function Or(a: Value, b: Value): Value {
    if Truthy(a) then a else b
  }

  /** `isinstance(v, int)`; a `bool` is an `int` in Python. */
  predicate IsInt(v: Value) {
    v.VInt? || v.VBool?
  }

  function IntOf(v: Value): int
    requires IsInt(v)
  {
    if v.VInt? then v.i else if v.b then 1 else 0
  }

  predicate IsNumber(v: Value) {
    IsInt(v) || v.VFloat?
  }

  function NumOf(v: Value): real
    requires IsNumber(v)
  {
    if v.VFloat? then v.r else IntOf(v) as real
  }

  /** `d.get(k, default)`. */
  function Get(d: map<string, Value>, k: string, default: Value): Value {
    if k in d then d[k] else default
  }

  // ---------------------------------------------------------------------
  // Characters and strings
  // ---------------------------------------------------------------------

  /** `str.lower()` on ASCII letters. */
  function LowerChar(c: char): char {
    if 'A' <= c <= 'Z' then (c as int + 32) as char else c
  }

  function Lower(s: string): string {
    seq(|s|, i requires 0 <= i < |s| => LowerChar(s[i]))
  }

  /** `str.upper()` on ASCII letters and on U+017F (long s), whose upper case is 'S'. */
  function UpperChar(c: char): char {
    if 'a' <= c <= 'z' then (c as int - 32) as char
    else if c as int == 0x17F then 'S'
    else c
  }

  function Upper(s: string): string {
    seq(|s|, i requires 0 <= i < |s| => UpperChar(s[i]))
  }

  /** `str.isspace()` for one character: the characters Python's `strip()` removes. */
  predicate IsSpace(c: char) {
    var n := c as int;
    n == 32 || 9 <= n <= 13 || 0x1C <= n <= 0x1F || n == 0x85 || n == 0xA0 || n == 0x1680
    || 0x2000 <= n <= 0x200A || n == 0x2028 || n == 0x2029 || n == 0x202F || n == 0x205F
    || n == 0x3000
  }

  function LStrip(s: string): (r: string)
    ensures |r| <= |s| && r == s[|s| - |r|..]
    ensures forall i :: 0 <= i < |s| - |r| ==> IsSpace(s[i])
    ensures r == [] || !IsSpace(r[0])
  {
    if |s| > 0 && IsSpace(s[0]) then LStrip(s[1..]) else s
  }

  function RStrip(s: string): (r: string)
    ensures |r| <= |s| && r == s[..|r|]
    ensures forall i :: |r| <= i < |s| ==> IsSpace(s[i])
    ensures r == [] || !IsSpace(r[|r| - 1])
  {
    if |s| > 0 && IsSpace(s[|s| - 1]) then RStrip(s[..|s| - 1]) else s
  }

  /** `str.strip()`: the longest infix without leading or trailing white space.
      It is empty exactly when the whole string is white space. */
  function Strip(s: string): (r: string)
    ensures |r| <= |s|
    ensures r == [] || (!IsSpace(r[0]) && !IsSpace(r[|r| - 1]))
    ensures r == [] <==> forall i :: 0 <= i < |s| ==> IsSpace(s[i])
  {
    var l := LStrip(s);
    var r := RStrip(l);
    r
  }

  function DigitChar(d: nat): char
    requires d < 10
  {
    "0123456789"[d]
  }

  /** `str(n)` for a natural number. */
  function NatToDecimal(n: nat): string {
    if n < 10 then [DigitChar(n)] else NatToDecimal(n / 10) + [DigitChar(n % 10)]
  }

  /** `str(i)` for an integer. */
  function IntToDecimal(i: int): string {
    if i < 0 then "-" + NatToDecimal(-i) else NatToDecimal(i)
  }

  /** `str(v)` (also what an f-string prints). The text of a list or a dict is
      not modelled: Python's `repr` of containers is left out. */
  function ToStr(v: Value): string {
    match v
    case VNone => "None"
    case VBool(b) => if b then "True" else "False"
    case VInt(i) => IntToDecimal(i)
    case VFloat(_, text) => text
    case VStr(s) => s
    case VList(_) => "<list>"
    case VDict(_) => "<dict>"
  }

  predicate IsPrefix(p: string, s: string) {
    |p| <= |s| && s[..|p|] == p
  }

  /** `p in s` for two strings. */
  predicate IsInfix(p: string, s: string) {
    IsPrefix(p, s) || (|s| > 0 && IsInfix(p, s[1..]))
  }

  // ---------------------------------------------------------------------
  // Built-in operators on values
  // ---------------------------------------------------------------------

  /** `len(v)`; `None` where Python raises `TypeError`. */
  function Len(v: Value): Option<nat> {
    match v
    case VStr(s) => Some(|s|)
    case VList(xs) => Some(|xs|)
    case VDict(m) => Some(|m.Keys|)
    case _ => None
  }

  /** `a == b`: numbers compare by value across bool, int and float. */
  predicate PyEq(a: Value, b: Value)
    decreases a
  {
    if IsNumber(a) && IsNumber(b) then NumOf(a) == NumOf(b)
    else if a.VList? && b.VList? then
      |a.items| == |b.items| && forall k :: 0 <= k < |a.items| ==> PyEq(a.items[k], b.items[k])
    else a == b
  }

  /** `item in container`; `None` where Python raises `TypeError`
      (a container that is not iterable, an unhashable dict key, a
      non-string searched in a string). */
  function Contains(container: Value, item: Value): Option<bool> {
    match container
    case VList(xs) => Some(exists k :: 0 <= k < |xs| && PyEq(xs[k], item))
    case VDict(m) =>
      if item.VStr? then Some(item.s in m)
      else if item.VList? || item.VDict? then None
      else Some(false)
    case VStr(s) => if item.VStr? then Some(IsInfix(item.s, s)) else None
    case _ => None
  }

  /** Code-point lexicographic `s > t`. */
  predicate StrGreater(s: string, t: string) {
    if s == [] then false
    else if t == [] then true
    else if s[0] != t[0] then s[0] > t[0]
    else StrGreater(s[1..], t[1..])
  }

  /** `a > b`; `None` where Python raises `TypeError`. */
  function Greater(a: Value, b: Value): Option<bool>
    decreases a, 1, 0
  {
    if IsNumber(a) && IsNumber(b) then Some(NumOf(a) > NumOf(b))
    else if a.VStr? && b.VStr? then Some(StrGreater(a.s, b.s))
    else if a.VList? && b.VList? then ListGreaterFrom(a, b, 0)
    else None
  }

  /** List comparison from index `k` on: the first pair that differs decides,
      otherwise the longer list is the greater. */
  function ListGreaterFrom(a: Value, b: Value, k: nat): Option<bool>
    requires a.VList? && b.VList?
    decreases a, 0, |a.items| - k
  {
    if k >= |a.items| || k >= |b.items| then Some(|a.items| > |b.items|)
    else if PyEq(a.items[k], b.items[k]) then ListGreaterFrom(a, b, k + 1)
    else Greater(a.items[k], b.items[k])
  }

  /** The items `for x in v` visits, for the shapes whose order the model
      knows: a list's items and a string's characters. */
  function Iter(v: Value): Option<seq<Value>> {
    match v
    case VList(xs) => Some(xs)
    case VStr(s) => Some(seq(|s|, k requires 0 <= k < |s| => VStr([s[k]])))
    case _ => None
  }

  /** `v.lower() not in {"false", "0", "off"}` for a string, `bool(v)` otherwise:
      how the policy code reads an `enabled`/`requires_auth` flag. */
  predicate FlagOn(v: Value) {
    if v.VStr? then Lower(v.s) !in {"false", "0", "off"} else Truthy(v)
  }
}
