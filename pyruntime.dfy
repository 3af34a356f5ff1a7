/** The parts of Python's runtime that homework.py leans on when it handles a
    decoded JSON value: truthiness, `isinstance(x, int)`, subscripting with a
    string, the `in` operator, `dict.get`, `str()`/`repr()` and the text of the
    exceptions it raises. The wording of built-in error messages is that of
    CPython 3.9. */
module PyRuntime {
  import opened Wrappers
  import opened JsonValues

  /** The exceptions that reach the bot's `except Exception` clause, each with
      the argument it was raised with. The last three are the classes of
      exceptions.py. */
  datatype PyError =
    | TypeError(msg: string)
    | KeyError(msg: string)
    | AttributeError(msg: string)
    | PlainException(msg: string)
    | ErorrAPI(msg: string)
    | WrongAnswerApiError(msg: string)
    | BadRequestError(msg: string)

  /** `str(error)`: a `KeyError` shows the repr of its argument; every other
      class here shows its message as it is. */
  function ErrorText(e: PyError): string {
    if e.KeyError? then StrRepr(e.msg) else e.msg
  }

  /** Python's `bool(x)`: the falsy values are `None`, `False`, `0` and the
      empty string, list and dict. */
  predicate Truthy(j: Json)
    ensures !Truthy(j) <==>
      j == JNull || j == JBool(false) || j == JInt(0) || j == JStr("") || j == JList([]) || j == JObject(map[])
  {
    match j
    case JNull => false
    case JBool(b) => b
    case JInt(i) => i != 0
    case JStr(s) => s != ""
    case JList(items) => items != []
    case JObject(fields) => fields != map[]
  }

  /** `isinstance(x, int)`; `bool` is a subclass of `int` in Python. */
  predicate IsInt(j: Json)
    ensures IsInt(j) <==> TypeName(j) == "int" || TypeName(j) == "bool"
  {
    j.JInt? || j.JBool?
  }

  /** `type(x).__name__` */
  function TypeName(j: Json): string {
    match j
    case JNull => "NoneType"
    case JBool(_) => "bool"
    case JInt(_) => "int"
    case JStr(_) => "str"
    case JList(_) => "list"
    case JObject(_) => "dict"
  }

  /** `container[key]` for a string `key`. */
  function GetItem(container: Json, key: string): (r: Result<Json, PyError>)
    ensures r.Success? <==> container.JObject? && key in container.fields
    ensures r.Success? ==> r.value == container.fields[key]
    ensures container.JObject? && key !in container.fields ==> r == Failure(KeyError(key))
    ensures !container.JObject? ==> r.Failure? && r.error.TypeError?
  {
    match container
    case JObject(fields) =>
      if key in fields then Success(fields[key]) else Failure(KeyError(key))
    case JList(_) => Failure(TypeError("list indices must be integers or slices, not str"))
    case JStr(_) => Failure(TypeError("string indices must be integers"))
    case _ => Failure(TypeError("'" + TypeName(container) + "' object is not subscriptable"))
  }

  /** `key in container` for a string `key`: a key of a dict, an element of a
      list, a substring of a string; other values are not iterable. */
  function Contains(container: Json, key: string): (r: Result<bool, PyError>)
    ensures container.JObject? ==> r == Success(key in container.fields)
    ensures container.JList? ==> r == Success(JStr(key) in container.items)
    ensures container.JStr? ==> r.Success? && (r.value <==> exists k :: 0 <= k && OccursAt(key, container.s, k))
    ensures r.Failure? <==> container.JNull? || IsInt(container)
    ensures r.Failure? ==> r.error.TypeError?
  {
    match container
    case JObject(fields) => Success(key in fields)
    case JList(items) => Success(JStr(key) in items)
    case JStr(s) => Success(Occurs(key, s))
    case _ => Failure(TypeError("argument of type '" + TypeName(container) + "' is not iterable"))
  }

  /** `container.get(key)`: `None` for a missing key; only a dict has `get`. */
  function Get(container: Json, key: string): (r: Result<Json, PyError>)
    ensures container.JObject? ==> r == Success(if key in container.fields then container.fields[key] else JNull)
    ensures r.Failure? <==> !container.JObject?
    ensures r.Failure? ==> r.error.AttributeError?
  {
    match container
    case JObject(fields) => Success(if key in fields then fields[key] else JNull)
    case _ => Failure(AttributeError("'" + TypeName(container) + "' object has no attribute 'get'"))
  }

  /** `needle` appears in `hay` starting at index `k`. */
  predicate OccursAt(needle: string, hay: string, k: nat) {
    k + |needle| <= |hay| && hay[k..k + |needle|] == needle
  }

  /** Python's substring test `needle in hay`. */
  function Occurs(needle: string, hay: string): (b: bool)
    ensures b <==> exists k :: 0 <= k && OccursAt(needle, hay, k)
    decreases |hay|
  {
    if |hay| < |needle| then
      assert forall k :: 0 <= k ==> !OccursAt(needle, hay, k);
      false
    else if hay[..|needle|] == needle then
      assert OccursAt(needle, hay, 0);
      true
    else
      OccursShift(needle, hay);
      Occurs(needle, hay[1..])
  }

  /** Away from index 0, the occurrences in `hay` are those in `hay[1..]`. */
  lemma OccursShift(needle: string, hay: string)
    requires |hay| > 0 && !OccursAt(needle, hay, 0)
    ensures (exists k :: 0 <= k && OccursAt(needle, hay, k)) <==> (exists k :: 0 <= k && OccursAt(needle, hay[1..], k))
  {
    forall k | 0 <= k && OccursAt(needle, hay, k)
      ensures OccursAt(needle, hay[1..], k - 1)
    {
      assert k > 0;
      assert hay[1..][k - 1..k - 1 + |needle|] == hay[k..k + |needle|];
    }
    forall k | 0 <= k && OccursAt(needle, hay[1..], k)
      ensures OccursAt(needle, hay, k + 1)
    {
      assert hay[1..][k..k + |needle|] == hay[k + 1..k + 1 + |needle|];
    }
  }

  /** `str(x)` of a decoded JSON value. A dict's text depends on the order of
      its keys, which the model does not keep, so it is shown as `{...}`. */
  function Str(j: Json): (r: string)
    ensures j.JNull? ==> r == "None"
    ensures j.JBool? ==> r == (if j.b then "True" else "False")
    ensures j.JInt? ==> Canonical(r) && DecimalValue(r) == j.i
    ensures j.JStr? ==> r == j.s
    ensures j.JList? ==> |r| >= 2 && r[0] == '[' && r[|r| - 1] == ']'
    ensures j.JList? && j.items == [] ==> r == "[]"
    ensures j.JList? && |j.items| == 1 ==> r == "[" + Repr(j.items[0]) + "]"
    decreases j, 0
  {
    match j
    case JNull => "None"
    case JBool(b) => if b then "True" else "False"
    case JInt(i) => IntText(i)
    case JStr(s) => s
    case JList(items) =>
      "[" + Join(", ", seq(|items|, k requires 0 <= k < |items| => Repr(items[k]))) + "]"
    case JObject(_) => "{...}"
  }

  /** `repr(x)`: strings are quoted, everything else reads as `str(x)`. */
  function Repr(j: Json): string
    decreases j, 1
  {
    if j.JStr? then StrRepr(j.s) else Str(j)
  }

  function Join(sep: string, parts: seq<string>): string {
    if parts == [] then ""
    else if |parts| == 1 then parts[0]
    else parts[0] + sep + Join(sep, parts[1..])
  }

  /** A non-empty run of decimal digits. */
  predicate IsDigits(t: string) {
    |t| > 0 && forall k :: 0 <= k < |t| ==> '0' <= t[k] <= '9'
  }

  /** Decimal text as `int()` reads it: digits, with an optional minus sign. */
  predicate IsDecimal(t: string) {
    IsDigits(t) || (|t| > 1 && t[0] == '-' && IsDigits(t[1..]))
  }

  /** The one text `str(int)` writes for a value: no leading zero, no "-0". */
  predicate Canonical(t: string) {
    && IsDecimal(t)
    && (t[0] == '0' ==> t == "0")
    && (t[0] == '-' ==> t[1] != '0')
  }

  function DigitValue(c: char): nat {
    if '0' <= c <= '9' then c as int - '0' as int else 0
  }

  /** The number a run of digits denotes, most significant digit first. */
  function DigitsValue(t: string): nat {
    if t == [] then 0 else DigitsValue(t[..|t| - 1]) * 10 + DigitValue(t[|t| - 1])
  }

  function DecimalValue(t: string): int {
    if |t| > 0 && t[0] == '-' then -(DigitsValue(t[1..]) as int) else DigitsValue(t)
  }

  /** Decimal text of an integer, as `str(int)` writes it. */
  function IntText(i: int): (r: string)
    ensures Canonical(r) && DecimalValue(r) == i
  {
    if i < 0 then
      var t := NatText(-i);
      assert ("-" + t)[1..] == t;
      assert t != "0";
      "-" + t
    else NatText(i)
  }

  function NatText(n: nat): (r: string)
    ensures IsDigits(r) && DigitsValue(r) == n
    ensures r[0] != '0' || r == "0"
  {
    if n < 10 then [DigitChar(n)]
    else
      var t := NatText(n / 10);
      assert (t + [DigitChar(n % 10)])[..|t|] == t;
      t + [DigitChar(n % 10)]
  }

  function DigitChar(d: nat): (c: char)
    requires d < 10
    ensures '0' <= c <= '9' && DigitValue(c) == d
  {
    ('0' as int + d) as char
  }

  function HexChar(d: nat): char
    requires d < 16
  {
    if d < 10 then DigitChar(d) else ('a' as int + d - 10) as char
  }

  /** The quote `repr` of a string uses: single, unless the text holds a
      single quote and no double quote. */
  function QuoteFor(s: string): char {
    if '\'' in s && '"' !in s then '"' else '\''
  }

  /** `repr(s)` of a string: the chosen quote, the escaped text, the quote. */
  function StrRepr(s: string): string {
    [QuoteFor(s)] + Escape(s, QuoteFor(s)) + [QuoteFor(s)]
  }

  /** The body of `repr(s)` between the quotes. */
  function Escape(s: string, quote: char): (r: string)
    ensures |r| >= |s|
  {
    if s == [] then [] else EscapeChar(s[0], quote) + Escape(s[1..], quote)
  }

  /** A Latin-1 character `repr` shows as a `\xNN` escape: the C0 and C1
      controls, DEL, the no-break space and the soft hyphen. */
  predicate HexEscaped(c: char) {
    c < ' ' || 0x7f <= c as int <= 0xa0 || c as int == 0xad
  }

  function EscapeChar(c: char, quote: char): string {
    if c == quote || c == '\\' then ['\\', c]
    else if c == '\t' then "\\t"
    else if c == '\n' then "\\n"
    else if c == '\r' then "\\r"
    else if HexEscaped(c) then ['\\', 'x', HexChar(c as int / 16), HexChar(c as int % 16)]
    else [c]
  }

  /** No escape is a proper prefix of another: two escaped texts that agree
      start with the escape of the same character. */
  lemma EscapeCharPrefix(c: char, d: char, quote: char, x: string, y: string)
    requires quote == '\'' || quote == '"'
    requires EscapeChar(c, quote) + x == EscapeChar(d, quote) + y
    ensures c == d && x == y
  {
    var e, f := EscapeChar(c, quote), EscapeChar(d, quote);
    assert (e + x)[0] == e[0] && (f + y)[0] == f[0];
    if |e| > 1 {
      assert (e + x)[1] == e[1] && (f + y)[1] == f[1];
      if |e| == 4 {
        assert (e + x)[2] == e[2] && (f + y)[2] == f[2];
        assert (e + x)[3] == e[3] && (f + y)[3] == f[3];
        assert c as int == (c as int / 16) * 16 + c as int % 16;
      }
    }
    assert (e + x)[|e|..] == x && (f + y)[|f|..] == y;
  }

  /** Escaping is injective for either quote. */
  lemma {:induction false} EscapeInjective(a: string, b: string, quote: char)
    requires quote == '\'' || quote == '"'
    requires Escape(a, quote) == Escape(b, quote)
    ensures a == b
  {
    if a != [] {
      EscapeCharPrefix(a[0], b[0], quote, Escape(a[1..], quote), Escape(b[1..], quote));
      EscapeInjective(a[1..], b[1..], quote);
    }
  }

  /** Different strings have different reprs. */
  lemma {:induction false} StrReprInjective(a: string, b: string)
    requires StrRepr(a) == StrRepr(b)
    ensures a == b
  {
    var r := StrRepr(a);
    assert r[0] == QuoteFor(a) && StrRepr(b)[0] == QuoteFor(b);
    assert r[1..|r| - 1] == Escape(a, QuoteFor(a));
    assert StrRepr(b)[1..|r| - 1] == Escape(b, QuoteFor(b));
    EscapeInjective(a, b, QuoteFor(a));
  }

  /** A character `repr` writes as it is, whichever quote it chose. */
  predicate PlainChar(c: char) {
    ' ' <= c <= '~' && c != '\'' && c != '"' && c != '\\'
  }

  /** A string of plain characters is shown between single quotes, unchanged. */
  lemma {:induction false} PlainStrRepr(s: string)
    requires forall k :: 0 <= k < |s| ==> PlainChar(s[k])
    ensures StrRepr(s) == "'" + s + "'"
  {
    PlainEscape(s);
    assert QuoteFor(s) == '\'';
  }

  lemma {:induction false} PlainEscape(s: string)
    requires forall k :: 0 <= k < |s| ==> PlainChar(s[k])
    ensures Escape(s, '\'') == s
  {
    if s != [] {
      assert PlainChar(s[0]);
      PlainEscape(s[1..]);
      assert s == [s[0]] + s[1..];
    }
  }
}
