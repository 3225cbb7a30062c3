/**
 * JSON-like Python values as the Jaquel tools receive them: `None`, `bool`,
 * `int`, `float`, `str`, `list` and `dict` (an insertion-ordered sequence of
 * members), together with the Python semantics the tools depend on:
 * dictionary lookup and update, truthiness, `isinstance`, hashing equality,
 * `str()`/`repr()`, and the exceptions CPython raises on misuse.
 */
module Json {
  import opened Text

  datatype Option<+T> = None | Some(value: T)

  /** A Python float is given by its value and by the text `repr()` prints for it. */
  datatype Value =
    | Null
    | Bool(b: bool)
    | Int(i: int)
    | Float(val: real, text: string)
    | Str(s: string)
    | List(items: seq<Value>)
    | Object(members: seq<Member>)

  datatype Member = Member(key: string, value: Value)

  /** An exception: its class name and `str(e)`. */
  datatype PyError = PyError(kind: string, message: string)

  datatype Result<+T> = Ok(value: T) | Err(error: PyError)

  // ---------------------------------------------------------------- dictionaries

  /** `key in d` */
  predicate HasKey(ms: seq<Member>, key: string) {
    exists i :: 0 <= i < |ms| && ms[i].key == key
  }

  /** `d[key]` when present: the first member with that key. */
  function Get(ms: seq<Member>, key: string): (r: Option<Value>)
    ensures r.Some? <==> HasKey(ms, key)
  {
    if ms == [] then None
    else if ms[0].key == key then Some(ms[0].value)
    else
      HasKeyTail(ms, key);
      Get(ms[1..], key)
  }

  /** `d[key]` is the value of the first member with that key. */
  lemma {:induction false} GetFirst(ms: seq<Member>, key: string)
    requires HasKey(ms, key)
    ensures exists i :: 0 <= i < |ms| && ms[i] == Member(key, Get(ms, key).value)
                        && forall j :: 0 <= j < i ==> ms[j].key != key
  {
    if ms[0].key != key {
      HasKeyTail(ms, key);
      GetFirst(ms[1..], key);
      var i :| 0 <= i < |ms[1..]| && ms[1..][i] == Member(key, Get(ms[1..], key).value)
               && forall j :: 0 <= j < i ==> ms[1..][j].key != key;
      assert ms[i + 1] == Member(key, Get(ms, key).value);
      assert forall j :: 1 <= j < i + 1 ==> ms[j] == ms[1..][j - 1];
    }
  }

  /** `d.get(key, default)` */
  function GetOr(ms: seq<Member>, key: string, default: Value): Value {
    match Get(ms, key)
    case Some(v) => v
    case None => default
  }

  /** `d.get(key)`: `None` for a missing key. */
  function GetOrNull(ms: seq<Member>, key: string): Value {
    GetOr(ms, key, Null)
  }

  /** `list(d.keys())` */
  function Keys(ms: seq<Member>): (r: seq<string>)
    ensures |r| == |ms|
    ensures forall i :: 0 <= i < |ms| ==> r[i] == ms[i].key
  {
    if ms == [] then [] else [ms[0].key] + Keys(ms[1..])
  }

  /** `d[key] = value`: an existing key keeps its place, a new key goes last. */
  function DictSet(ms: seq<Member>, key: string, value: Value): (r: seq<Member>)
    ensures |r| == if HasKey(ms, key) then |ms| else |ms| + 1
  {
    if ms == [] then [Member(key, value)]
    else if ms[0].key == key then [Member(key, value)] + ms[1..]
    else
      HasKeyTail(ms, key);
      [ms[0]] + DictSet(ms[1..], key, value)
  }

  lemma {:induction false} HasKeyTail(ms: seq<Member>, key: string)
    requires ms != [] && ms[0].key != key
    ensures HasKey(ms, key) <==> HasKey(ms[1..], key)
  {
    if HasKey(ms, key) {
      var i :| 0 <= i < |ms| && ms[i].key == key;
      assert ms[1..][i - 1].key == key;
    }
    if HasKey(ms[1..], key) {
      var i :| 0 <= i < |ms[1..]| && ms[1..][i].key == key;
      assert ms[i + 1].key == key;
    }
  }

  /** After `d[key] = value`, `d[key]` is `value` and every other key reads as before. */
  lemma {:induction false} DictSetGet(ms: seq<Member>, key: string, value: Value, other: string)
    ensures Get(DictSet(ms, key, value), key) == Some(value)
    ensures other != key ==> Get(DictSet(ms, key, value), other) == Get(ms, other)
  {
    if ms != [] && ms[0].key != key {
      DictSetGet(ms[1..], key, value, other);
    }
  }

  /** `d[key] = value` keeps the key order and appends a new key at the end. */
  lemma {:induction false} DictSetKeys(ms: seq<Member>, key: string, value: Value)
    ensures Keys(DictSet(ms, key, value)) == if HasKey(ms, key) then Keys(ms) else Keys(ms) + [key]
  {
    if ms != [] && ms[0].key != key {
      DictSetKeys(ms[1..], key, value);
      HasKeyTail(ms, key);
      var rest := DictSet(ms[1..], key, value);
      assert ([ms[0]] + rest)[1..] == rest;
    }
  }

  /** A dict display `{k1: v1, k2: v2, ...}`: keys are inserted in order by `DictSet`. */
  function DictOf(ms: seq<Member>): seq<Member> {
    DictFrom([], ms)
  }

  function DictFrom(acc: seq<Member>, ms: seq<Member>): seq<Member>
    decreases |ms|
  {
    if ms == [] then acc else DictFrom(DictSet(acc, ms[0].key, ms[0].value), ms[1..])
  }

  /** No key occurs twice. */
  predicate DistinctKeys(ms: seq<Member>) {
    forall i, j :: 0 <= i < j < |ms| ==> ms[i].key != ms[j].key
  }

  /** Setting a new key appends it. */
  lemma {:induction false} DictSetAbsent(ms: seq<Member>, key: string, value: Value)
    requires !HasKey(ms, key)
    ensures DictSet(ms, key, value) == ms + [Member(key, value)]
  {
    if ms != [] {
      HasKeyTail(ms, key);
      DictSetAbsent(ms[1..], key, value);
      assert [ms[0]] + (ms[1..] + [Member(key, value)]) == ms + [Member(key, value)];
    }
  }

  /** A dict display whose keys are distinct holds exactly its members, in order. */
  lemma {:induction false} DictOfDistinct(ms: seq<Member>)
    requires DistinctKeys(ms)
    ensures DictOf(ms) == ms
  {
    DictFromDistinct([], ms);
  }

  lemma {:induction false} DictFromDistinct(acc: seq<Member>, ms: seq<Member>)
    requires DistinctKeys(acc + ms)
    ensures DictFrom(acc, ms) == acc + ms
    decreases |ms|
  {
    if ms != [] {
      var all := acc + ms;
      assert !HasKey(acc, ms[0].key) by {
        forall i | 0 <= i < |acc| ensures acc[i].key != ms[0].key {
          assert all[i] == acc[i] && all[|acc|] == ms[0];
        }
      }
      DictSetAbsent(acc, ms[0].key, ms[0].value);
      assert (acc + [ms[0]]) + ms[1..] == all;
      DictFromDistinct(acc + [ms[0]], ms[1..]);
    }
  }

  // ---------------------------------------------------------------- types and truth

  predicate IsDict(v: Value) { v.Object? }

  /** `isinstance(v, int)`: Python's bool is a subclass of int. */
  predicate IsPyInt(v: Value) { v.Int? || v.Bool? }

  predicate IsNumber(v: Value) { v.Bool? || v.Int? || v.Float? }

  function NumValue(v: Value): real
    requires IsNumber(v)
  {
    match v
    case Bool(b) => if b then 1.0 else 0.0
    case Int(i) => i as real
    case Float(x, _) => x
  }

  /** `type(v).__name__` */
  function TypeName(v: Value): string {
    match v
    case Null => "NoneType"
    case Bool(_) => "bool"
    case Int(_) => "int"
    case Float(_, _) => "float"
    case Str(_) => "str"
    case List(_) => "list"
    case Object(_) => "dict"
  }

  /** `bool(v)` */
  predicate Truthy(v: Value) {
    match v
    case Null => false
    case Bool(b) => b
    case Int(i) => i != 0
    case Float(x, _) => x != 0.0
    case Str(s) => s != ""
    case List(items) => items != []
    case Object(ms) => ms != []
  }

  /** Values that may serve as dictionary keys or set elements. */
  predicate Hashable(v: Value) { !v.List? && !v.Object? }

  /** Python's `==` between two hashable values: numbers compare by value (`True == 1 == 1.0`). */
  predicate KeyEq(a: Value, b: Value) {
    if IsNumber(a) && IsNumber(b) then NumValue(a) == NumValue(b)
    else if a.Str? && b.Str? then a.s == b.s
    else a.Null? && b.Null?
  }

  /** `v == 1` */
  predicate EqualsOne(v: Value) {
    IsNumber(v) && NumValue(v) == 1.0
  }

  // ---------------------------------------------------------------- exceptions

  /** `AttributeError` from `v.attr` on a value whose type has no such method. */
  function NoAttribute(v: Value, attr: string): PyError {
    PyError("AttributeError", "'" + TypeName(v) + "' object has no attribute '" + attr + "'")
  }

  /** `TypeError` from hashing a list or dict. */
  function Unhashable(v: Value): PyError {
    PyError("TypeError", "unhashable type: '" + TypeName(v) + "'")
  }

  /** `raise ValueError(f"{prefix}{e}") from e` */
  function Wrapped(prefix: string, e: PyError): PyError {
    PyError("ValueError", prefix + e.message)
  }

  // ---------------------------------------------------------------- str() and repr()

  function HexDigit(n: nat): char
    requires n < 16
  {
    "0123456789abcdef"[n]
  }

  /** One character inside a quoted string literal, as `repr()` writes it. */
  function EscapeChar(c: char, quote: char): string {
    if c == '\\' then "\\\\"
    else if c == quote then ['\\', quote]
    else if c == '\n' then "\\n"
    else if c == '\r' then "\\r"
    else if c == '\t' then "\\t"
    else if c < ' ' || ('\U{7F}' <= c <= '\U{A0}') || c == '\U{AD}' then
      ['\\', 'x', HexDigit(c as int / 16), HexDigit(c as int % 16)]
    else [c]
  }

  function EscapeChars(s: string, quote: char): string {
    if s == [] then "" else EscapeChar(s[0], quote) + EscapeChars(s[1..], quote)
  }

  /** `repr(s)` for a string: single quotes unless only double quotes avoid escaping. */
  function StrRepr(s: string): string {
    var quote := if '\'' in s && '"' !in s then '"' else '\'';
    [quote] + EscapeChars(s, quote) + [quote]
  }

  /** `repr(v)` */
  function Repr(v: Value): string {
    match v
    case Null => "None"
    case Bool(b) => if b then "True" else "False"
    case Int(i) => IntToString(i)
    case Float(_, text) => text
    case Str(s) => StrRepr(s)
    case List(items) => "[" + ReprItems(items) + "]"
    case Object(ms) => "{" + ReprMembers(ms) + "}"
  }

  function ReprItems(items: seq<Value>): string {
    if items == [] then ""
    else if |items| == 1 then Repr(items[0])
    else Repr(items[0]) + ", " + ReprItems(items[1..])
  }

  function ReprMembers(ms: seq<Member>): string {
    if ms == [] then ""
    else
      var first := StrRepr(ms[0].key) + ": " + Repr(ms[0].value);
      if |ms| == 1 then first else first + ", " + ReprMembers(ms[1..])
  }

  /** `str(v)`, which is also what an f-string interpolates. */
  function ToStr(v: Value): string {
    if v.Str? then v.s else Repr(v)
  }

  /** `repr(names)` for a list of strings, e.g. `['id', 'name']`. */
  function ReprStrings(names: seq<string>): string {
    Repr(List(StrValues(names)))
  }

  function StrValues(names: seq<string>): (r: seq<Value>)
    ensures |r| == |names|
    ensures forall i :: 0 <= i < |names| ==> r[i] == Str(names[i])
  {
    if names == [] then [] else [Str(names[0])] + StrValues(names[1..])
  }
}
