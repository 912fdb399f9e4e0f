/** Values as the bot sees them after `response.json()`: JSON decoded into
    Python objects, with the few pieces of Python semantics the bot relies on
    (truthiness, the `in` operator, `dict.get`, `str()`/`repr()` and the
    exceptions the interpreter raises). */
module Py {

  datatype Option<T> = None | Some(value: T)

  /** A decoded JSON value. Objects keep their keys in insertion order, as a
      Python dict does. The type allows two bindings for one key, which a
      dict never holds; lookups take the first binding. */
  datatype Json =
    | JNull
    | JBool(b: bool)
    | JInt(i: int)
    | JString(s: string)
    | JArray(items: seq<Json>)
    | JObject(fields: seq<(string, Json)>)

  /** The Python exception classes that can reach the bot's handler. */
  datatype ExcClass =
    | TypeError
    | KeyError
    | ValueError
    | AttributeError
    | JSONDecodeError
    | APIHTTPRequestError
    | PlainException

  /** An exception value: its class and the single argument it was built with. */
  datatype Fault = Fault(cls: ExcClass, arg: string)

  /** What a Python function returns or raises. */
  datatype Result<T> = Ok(value: T) | Err(error: Fault)

  /** `type(x).__name__` */
  function TypeName(j: Json): string
  {
    match j
    case JNull => "NoneType"
    case JBool(_) => "bool"
    case JInt(_) => "int"
    case JString(_) => "str"
    case JArray(_) => "list"
    case JObject(_) => "dict"
  }

  /** `bool(x)`: None, False, 0 and empty containers are false. */
  predicate Truthy(j: Json)
  {
    match j
    case JNull => false
    case JBool(b) => b
    case JInt(i) => i != 0
    case JString(s) => s != ""
    case JArray(items) => items != []
    case JObject(fields) => fields != []
  }

  /** The value bound to `key`, as `d.get(key)` finds it. */
  function Lookup(fields: seq<(string, Json)>, key: string): (r: Option<Json>)
    ensures r.Some? <==> exists i :: 0 <= i < |fields| && fields[i].0 == key
    ensures r.Some? ==> exists i :: 0 <= i < |fields| && fields[i] == (key, r.value)
  {
    if fields == [] then None
    else if fields[0].0 == key then Some(fields[0].1)
    else
      var r := Lookup(fields[1..], key);
      assert forall i :: 1 <= i < |fields| ==> fields[i] == fields[1..][i - 1];
      r
  }

  /** `key in d` for a dict. */
  predicate HasKey(fields: seq<(string, Json)>, key: string)
  {
    Lookup(fields, key).Some?
  }

  /** `d.get(key, default)` */
  function GetOr(fields: seq<(string, Json)>, key: string, default: Json): Json
  {
    match Lookup(fields, key)
    case Some(v) => v
    case None => default
  }

  /** `sub in s` for two strings. */
  predicate IsSubstring(sub: string, s: string)
    decreases |s|
  {
    sub <= s || (s != [] && IsSubstring(sub, s[1..]))
  }

  /** The message of the TypeError that `in` raises on a value that is no container. */
  function NotIterable(j: Json): string
  {
    "argument of type '" + TypeName(j) + "' is not iterable"
  }

  /** `key in container` for a string key: a key of a dict, an element of a
      list, a substring of a string; any other value raises TypeError. */
  function Contains(key: string, container: Json): (r: Result<bool>)
    ensures r.Err? <==> container.JNull? || container.JBool? || container.JInt?
    ensures r.Err? ==> r.error == Fault(TypeError, NotIterable(container))
    ensures container.JObject? ==> r == Ok(HasKey(container.fields, key))
  {
    match container
    case JObject(fields) => Ok(HasKey(fields, key))
    case JArray(items) => Ok(JString(key) in items)
    case JString(s) => Ok(IsSubstring(key, s))
    case _ => Err(Fault(TypeError, NotIterable(container)))
  }

  /** A decimal digit. */
  function Digit(d: nat): (c: char)
    requires d < 10
    ensures '0' <= c <= '9'
  {
    ('0' as int + d) as char
  }

  /** A hexadecimal digit, lower case as Python writes it. */
  function HexDigit(d: nat): char
    requires d < 16
  {
    if d < 10 then Digit(d) else ('a' as int + d - 10) as char
  }

  /** `str(n)` for a natural number: its decimal digits. */
  function NaturalText(n: nat): (r: string)
    ensures |r| >= 1 && forall k :: 0 <= k < |r| ==> '0' <= r[k] <= '9'
    ensures n >= 10 ==> |r| >= 2
    decreases n
  {
    if n < 10 then [Digit(n)] else NaturalText(n / 10) + [Digit(n % 10)]
  }

  /** Different numbers are written differently. */
  lemma {:induction false} NaturalTextInjective(a: nat, b: nat)
    requires NaturalText(a) == NaturalText(b)
    ensures a == b
    decreases a
  {
    var t := NaturalText(a);
    if a >= 10 && b >= 10 {
      var ha, hb := NaturalText(a / 10), NaturalText(b / 10);
      assert t == ha + [Digit(a % 10)] == hb + [Digit(b % 10)];
      assert ha == t[..|t| - 1] == hb;
      assert Digit(a % 10) == t[|t| - 1] == Digit(b % 10);
      NaturalTextInjective(a / 10, b / 10);
    }
  }

  /** `str(i)` */
  function IntText(i: int): (r: string)
    ensures |r| >= 1 && (i < 0 <==> r[0] == '-')
  {
    if i < 0 then "-" + NaturalText(-i) else NaturalText(i)
  }

  /** `str` tells integers apart. */
  lemma IntTextInjective(a: int, b: int)
    requires IntText(a) == IntText(b)
    ensures a == b
  {
    if a < 0 {
      assert NaturalText(-a) == IntText(a)[1..] == IntText(b)[1..] == NaturalText(-b);
      NaturalTextInjective(-a, -b);
    } else {
      NaturalTextInjective(a, b);
    }
  }

  /** The quote `repr` puts around a string: single, unless the string holds a
      single quote and no double quote. */
  function QuoteFor(s: string): char
  {
    if '\'' in s && '"' !in s then '"' else '\''
  }

  /** How `repr` writes one character inside quotes `q`. */
  function EscapeChar(c: char, q: char): string
  {
    if c == q || c == '\\' then ['\\', c]
    else if c == '\t' then "\\t"
    else if c == '\n' then "\\n"
    else if c == '\r' then "\\r"
    else if c as int < 32 || c as int == 127 then
      "\\x" + [HexDigit(c as int / 16), HexDigit(c as int % 16)]
    else [c]
  }

  function Escape(s: string, q: char): string
  {
    if s == [] then [] else EscapeChar(s[0], q) + Escape(s[1..], q)
  }

  /** `repr(s)` for a string. */
  function StringRepr(s: string): string
  {
    var q := QuoteFor(s);
    [q] + Escape(s, q) + [q]
  }

  /** `str(x)`, which `str.format` applies to each argument. */
  function Text(j: Json): string
    decreases j, 1, 0
  {
    match j
    case JNull => "None"
    case JBool(b) => if b then "True" else "False"
    case JInt(i) => IntText(i)
    case JString(s) => s
    case JArray(items) => "[" + ItemsRepr(items, 0) + "]"
    case JObject(fields) => "{" + FieldsRepr(fields, 0) + "}"
  }

  /** `repr(x)`, used for the elements of a list or dict. */
  function Repr(j: Json): string
    decreases j, 2, 0
  {
    match j
    case JString(s) => StringRepr(s)
    case _ => Text(j)
  }

  /** The elements of a list from index `from` on, joined by ", ". */
  function ItemsRepr(items: seq<Json>, from: nat): string
    decreases JArray(items), 0, |items| - from
  {
    if from >= |items| then ""
    else
      assert items[from] in items;
      if from == |items| - 1 then Repr(items[from])
      else Repr(items[from]) + ", " + ItemsRepr(items, from + 1)
  }

  /** The entries of a dict from index `from` on, as `'key': value` joined by ", ". */
  function FieldsRepr(fields: seq<(string, Json)>, from: nat): string
    decreases JObject(fields), 0, |fields| - from
  {
    if from >= |fields| then ""
    else
      assert fields[from] in fields;
      var entry := StringRepr(fields[from].0) + ": " + Repr(fields[from].1);
      if from == |fields| - 1 then entry else entry + ", " + FieldsRepr(fields, from + 1)
  }

  /** `str(e)` for an exception: a KeyError shows the repr of its key, every
      other class its message. */
  function ExceptionText(f: Fault): string
  {
    if f.cls == KeyError then StringRepr(f.arg) else f.arg
  }
}
