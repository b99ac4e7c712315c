/** Python values as the service passes them around: the JSON-like values
    that engines return, the exceptions that are raised, and the two
    conversions the service applies to them (truthiness and `str`). */
module Py {
  import opened Base
  import opened Text

  /** A Python value.  Dictionaries have string keys; any other object is
      known by its type name and its truthiness. */
  datatype Value =
    | PyNone
    | PyBool(b: bool)
    | PyInt(i: int)
    | PyFloat(r: real)
    | PyStr(s: string)
    | PyList(items: seq<Value>)
    | PyDict(entries: map<string, Value>)
    | PyObject(typeName: string, truthy: bool)

  /** What an engine's `transcribe` returns: the dictionary with the keys
      `text`, `language`, `segments` and `meta`. */
  datatype Transcript = Transcript(text: string, language: Value, segments: Value, meta: map<string, Value>)

  /** A raised exception: its type name and `str()` of it. */
  datatype Fault = Fault(typeName: string, message: string)

  /** Python truthiness. */
  predicate Truthy(v: Value) {
    match v
    case PyNone => false
    case PyBool(b) => b
    case PyInt(i) => i != 0
    case PyFloat(r) => r != 0.0
    case PyStr(s) => s != ""
    case PyList(items) => |items| > 0
    case PyDict(entries) => |entries| > 0
    case PyObject(_, t) => t
  }

  /** `a or b`. */
  function Or(a: Value, b: Value): (r: Value)
    ensures Truthy(a) ==> r == a
    ensures !Truthy(a) ==> r == b
  {
    if Truthy(a) then a else b
  }

  /** `type(v).__name__`. */
  function TypeName(v: Value): string
  {
    match v
    case PyNone => "NoneType"
    case PyBool(_) => "bool"
    case PyInt(_) => "int"
    case PyFloat(_) => "float"
    case PyStr(_) => "str"
    case PyList(_) => "list"
    case PyDict(_) => "dict"
    case PyObject(t, _) => t
  }

  /** `d.get(key)` on a dictionary: the value, or `None` when absent. */
  function Get(entries: map<string, Value>, key: string): (r: Value)
    ensures key in entries ==> r == entries[key]
    ensures key !in entries ==> r == PyNone
  {
    if key in entries then entries[key] else PyNone
  }

  /** The exception raised by reading attribute `attr` of a value that has
      none, such as `.get` on a list or `.strip` on an int. */
  function NoAttribute(v: Value, attr: string): (f: Fault)
    ensures f.typeName == "AttributeError"
  {
    Fault("AttributeError", "'" + TypeName(v) + "' object has no attribute '" + attr + "'")
  }

  /** `str(v)`.  Strings, `None`, booleans and integers are rendered here;
      the rendering of floats, containers and other objects is `render`. */
  function Str(v: Value, render: Value -> string): (r: string)
    ensures v.PyStr? ==> r == v.s
    ensures v == PyNone ==> r == "None"
    ensures v.PyBool? ==> r == (if v.b then "True" else "False")
    ensures v.PyInt? ==> r == IntToDecimal(v.i)
  {
    match v
    case PyStr(s) => s
    case PyNone => "None"
    case PyBool(b) => if b then "True" else "False"
    case PyInt(i) => IntToDecimal(i)
    case _ => render(v)
  }

  /** `v or default` for an optional string argument. */
  function StrOr(v: Option<string>, default: string): (r: string)
    ensures v.Some? && v.value != "" ==> r == v.value
    ensures !(v.Some? && v.value != "") ==> r == default
  {
    if v.Some? && v.value != "" then v.value else default
  }

  /** An optional string argument as a value. */
  function OfOption(v: Option<string>): (r: Value)
    ensures v.None? <==> r == PyNone
    ensures v.Some? ==> r == PyStr(v.value)
  {
    if v.Some? then PyStr(v.value) else PyNone
  }

  // ---------------------------------------------------------------------
  // `repr` of a string, as `OSError` shows a file name.

  /** The quote `repr` chooses: `"` when the text holds `'` and no `"`. */
  function ReprQuote(s: string): char
  {
    if '\'' in s && '"' !in s then '"' else '\''
  }

  function HexDigit(n: nat): (c: char)
    requires n < 16
  {
    if n < 10 then ('0' as int + n) as char else ('a' as int + n - 10) as char
  }

  function HexValue(c: char): (n: nat)
    ensures n < 16
  {
    if '0' <= c <= '9' then c as int - '0' as int
    else if 'a' <= c <= 'f' then c as int - 'a' as int + 10
    else 0
  }

  /** A control character below the space, or DEL. */
  predicate IsControl(c: char) {
    c < ' ' || c as int == 0x7f
  }

  /** How `repr` writes one character inside quotes `q`: the quote and the
      backslash are escaped, tab, newline and carriage return get their
      letters, other control characters become `\xhh`, and every other
      character is kept. */
  function EscapeChar(c: char, q: char): string
  {
    if c == q || c == '\\' then ['\\', c]
    else if c == '\t' then "\\t"
    else if c == '\n' then "\\n"
    else if c == '\r' then "\\r"
    else if IsControl(c) then ['\\', 'x', HexDigit(c as int / 16), HexDigit(c as int % 16)]
    else [c]
  }

  function EscapeBody(s: string, q: char): string
    decreases |s|
  {
    if |s| == 0 then "" else EscapeChar(s[0], q) + EscapeBody(s[1..], q)
  }

  /** `repr(s)` for a string. */
  function Repr(s: string): (r: string)
    ensures |r| >= |s| + 2 && r[0] == ReprQuote(s) && r[|r| - 1] == ReprQuote(s)
  {
    var q := ReprQuote(s);
    EscapeBodyLength(s, q);
    [q] + EscapeBody(s, q) + [q]
  }

  lemma {:induction false} EscapeBodyLength(s: string, q: char)
    ensures |EscapeBody(s, q)| >= |s|
    decreases |s|
  {
    if |s| > 0 {
      EscapeBodyLength(s[1..], q);
    }
  }

  /** Reading an escaped body back, as Python reads a string literal. */
  function Unescape(t: string): string
    decreases |t|
  {
    if |t| == 0 then ""
    else if t[0] == '\\' && |t| >= 2 then
      if t[1] == 't' then "\t" + Unescape(t[2..])
      else if t[1] == 'n' then "\n" + Unescape(t[2..])
      else if t[1] == 'r' then "\r" + Unescape(t[2..])
      else if t[1] == 'x' && |t| >= 4 then [(16 * HexValue(t[2]) + HexValue(t[3])) as char] + Unescape(t[4..])
      else [t[1]] + Unescape(t[2..])
    else [t[0]] + Unescape(t[1..])
  }

  lemma UnescapeChar(c: char, q: char, rest: string)
    requires q == '\'' || q == '"'
    ensures Unescape(EscapeChar(c, q) + rest) == [c] + Unescape(rest)
  {
    var e := EscapeChar(c, q);
    var t := e + rest;
    if IsControl(c) && c != '\t' && c != '\n' && c != '\r' {
      var n := c as int;
      assert HexValue(HexDigit(n / 16)) == n / 16;
      assert HexValue(HexDigit(n % 16)) == n % 16;
      assert t[4..] == rest;
    } else if |e| == 2 {
      assert t[2..] == rest;
    } else {
      assert t[1..] == rest;
    }
  }

  lemma {:induction false} UnescapeBody(s: string, q: char)
    requires q == '\'' || q == '"'
    ensures Unescape(EscapeBody(s, q)) == s
    decreases |s|
  {
    if |s| > 0 {
      UnescapeChar(s[0], q, EscapeBody(s[1..], q));
      UnescapeBody(s[1..], q);
    }
  }

  /** Reading the text between the quotes back gives the string. */
  lemma ReprRoundTrip(s: string)
    ensures var r := Repr(s); Unescape(r[1..|r| - 1]) == s
  {
    var q := ReprQuote(s);
    var r := Repr(s);
    assert r[1..|r| - 1] == EscapeBody(s, q);
    UnescapeBody(s, q);
  }

  /** A text without quotes, backslashes or control characters is shown
      between single quotes as it is. */
  lemma {:induction false} ReprPlain(s: string)
    requires forall i :: 0 <= i < |s| ==> s[i] != '\'' && s[i] != '\\' && !IsControl(s[i])
    ensures Repr(s) == "'" + s + "'"
  {
    PlainBody(s, '\'');
  }

  lemma {:induction false} PlainBody(s: string, q: char)
    requires forall i :: 0 <= i < |s| ==> s[i] != q && s[i] != '\\' && !IsControl(s[i])
    ensures EscapeBody(s, q) == s
    decreases |s|
  {
    if |s| > 0 {
      PlainBody(s[1..], q);
      assert s == [s[0]] + s[1..];
    }
  }

  /** A single quote with no double quote switches to double quotes, and
      a newline is written as its escape. */
  lemma ReprExamples()
    ensures Repr("a'b") == "\"a'b\""
    ensures Repr("a\nb") == "'a\\nb'"
  {
    PlainBody("a'b", '"');
    assert EscapeBody("a\nb", '\'') == "a\\nb" by {
      assert EscapeBody("b", '\'') == "b";
      assert "a\nb"[1..] == "\nb" && "\nb"[1..] == "b";
    }
  }
}
