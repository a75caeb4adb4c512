/**
 * The JSON-shaped values that the tools pass around as Python dicts and lists,
 * with Python's truthiness, `dict.get` and `str()`.
 */
module JsonValue {
  import opened Seqs
  import opened Text

  datatype Json =
    | JNull
    | JBool(b: bool)
    | JInt(i: int)
    | JReal(r: real)
    | JStr(s: string)
    | JArr(items: seq<Json>)
    | JObj(fields: map<string, Json>)

  /** Python's `bool(v)`. */
  predicate Truthy(j: Json)
  {
    match j
    case JNull => false
    case JBool(b) => b
    case JInt(i) => i != 0
    case JReal(r) => r != 0.0
    case JStr(s) => s != ""
    case JArr(items) => items != []
    case JObj(fields) => fields != map[]
  }

  /** Python truthiness of an optional string argument (or environment variable): present and non-empty. */
  predicate Given(o: Option<string>) { o.Some? && o.value != "" }

  /** `d.get(key, default)` on a dict. */
  function Get(fields: map<string, Json>, key: string, default: Json): (r: Json)
    ensures key in fields ==> r == fields[key]
    ensures key !in fields ==> r == default
  {
    if key in fields then fields[key] else default
  }

  /**
   * Python's `str(v)` (and the `{v}` of an f-string). Strings, integers, booleans and
   * `None` are rendered exactly; floats, lists and dicts go through `repr`, Python's own
   * rendering of those, which this model takes as given.
   */
  function Show(j: Json, repr: Json -> string): (r: string)
    ensures j.JStr? ==> r == j.s
    ensures j.JInt? ==> r == IntToString(j.i)
    ensures j == JNull ==> r == "None"
  {
    match j
    case JNull => "None"
    case JBool(b) => if b then "True" else "False"
    case JInt(i) => IntToString(i)
    case JStr(s) => s
    case _ => repr(j)
  }

  /** A value Python can put in a dict or a set. */
  predicate Hashable(j: Json) { !j.JArr? && !j.JObj? }

  /** `type(v).__name__`, as Python error messages print it. */
  function TypeName(j: Json): (r: string)
    ensures r == "dict" <==> j.JObj?
    ensures r == "NoneType" <==> j == JNull
  {
    match j
    case JNull => "NoneType"
    case JBool(_) => "bool"
    case JInt(_) => "int"
    case JReal(_) => "float"
    case JStr(_) => "str"
    case JArr(_) => "list"
    case JObj(_) => "dict"
  }

  /** The message of the `AttributeError` raised by calling `.get` on a value that is not a dict. */
  function NoGetMessage(j: Json): string
  {
    "'" + TypeName(j) + "' object has no attribute 'get'"
  }

  /** Python's `int(x)` on a float: truncation toward zero. */
  function Trunc(x: real): int
  {
    if x >= 0.0 then x.Floor else -((-x).Floor)
  }

  /** Decimal digits with single underscores between them, as `int()` accepts them ("1_000"). */
  predicate Grouped(t: string)
  {
    && t != [] && IsDigit(t[0]) && IsDigit(t[|t| - 1])
    && (forall i :: 0 <= i < |t| ==> IsDigit(t[i]) || t[i] == '_')
    && (forall i :: 0 < i < |t| && t[i] == '_' ==> IsDigit(t[i - 1]))
  }

  /** The digits of a text, its underscores dropped. */
  function DigitsOf(t: string): (r: string)
    ensures AllDigits(r)
    ensures AllDigits(t) ==> r == t
  {
    if t == [] then []
    else DigitsOf(t[..|t| - 1]) + (if IsDigit(t[|t| - 1]) then [t[|t| - 1]] else [])
  }

  /**
   * Python's `int(s)` on a string: surrounding whitespace, an optional sign and decimal digits,
   * grouped by single underscores or not; `None` where Python raises `ValueError`.
   */
  function IntOfString(s: string): (r: Option<int>)
    ensures r.Some? ==> Strip(s) != ""
  {
    var t := Strip(s);
    if t != "" && (t[0] == '-' || t[0] == '+') && Grouped(t[1..]) then
      var n: int := DigitsValue(DigitsOf(t[1..]));
      Some(if t[0] == '-' then -n else n)
    else if Grouped(t) then Some(DigitsValue(DigitsOf(t)))
    else None
  }

  /** Python's `int(v)` on a JSON value; `None` where Python raises. */
  function IntOf(j: Json): Option<int>
  {
    match j
    case JInt(i) => Some(i)
    case JBool(b) => Some(if b then 1 else 0)
    case JReal(x) => Some(Trunc(x))
    case JStr(s) => IntOfString(s)
    case _ => None
  }

  /** A string without surrounding whitespace is its own strip. */
  lemma StripNoSpaces(s: string)
    requires s != [] && !IsSpace(s[0]) && !IsSpace(s[|s| - 1])
    ensures Strip(s) == s
  {
  }

  /** `int(str(i)) == i`: the decimal text of an integer reads back as that integer. */
  lemma IntOfShownInt(i: int)
    ensures IntOf(JStr(IntToString(i))) == Some(i)
  {
    var d := NatToString(if i < 0 then -i else i);
    if i < 0 {
      IntOfSigned(d);
      assert IntToString(i) == "-" + d;
    } else {
      IntOfDigits(d);
    }
  }

  /** Plain digits read as their value. */
  lemma IntOfDigits(d: string)
    requires d != [] && AllDigits(d)
    ensures IntOfString(d) == Some(DigitsValue(d))
  {
    assert !IsSpace(d[0]) && !IsSpace(d[|d| - 1]);
    StripNoSpaces(d);
    DigitsGrouped(d);
    assert d[0] != '-' && d[0] != '+';
  }

  /** A minus sign before plain digits negates their value. */
  lemma IntOfSigned(d: string)
    requires d != [] && AllDigits(d)
    ensures IntOfString("-" + d) == Some(-(DigitsValue(d) as int))
  {
    var s := "-" + d;
    assert !IsSpace(s[0]) && s[|s| - 1] == d[|d| - 1] && !IsSpace(s[|s| - 1]);
    StripNoSpaces(s);
    var t := Strip(s);
    DigitsGrouped(d);
    assert t[0] == '-' && t[1..] == d && Grouped(t[1..]);
    assert DigitsOf(t[1..]) == d;
  }

  /** Plain digits are a single group. */
  lemma DigitsGrouped(t: string)
    requires t != [] && AllDigits(t)
    ensures Grouped(t) && DigitsOf(t) == t
  {
  }

  /** Underscores between digit groups are read past. */
  lemma GroupedDigitsRead()
    ensures IntOf(JStr("1_000")) == Some(1000)
  {
    var t := "1_000";
    StripNoSpaces(t);
    assert Grouped(t);
    DigitsOfExample();
    assert DigitsValue("1000") == 1000 by {
      assert "1000"[..3] == "100" && "100"[..2] == "10" && "10"[..1] == "1";
    }
  }

  lemma DigitsOfExample()
    ensures DigitsOf("1_000") == "1000"
  {
    var t := "1_000";
    assert DigitsOf(t[..1]) == "1" by { assert t[..1][..0] == []; }
    assert DigitsOf(t[..2]) == "1" by { assert t[..2][..1] == t[..1]; }
    assert DigitsOf(t[..3]) == "10" by { assert t[..3][..2] == t[..2]; }
    assert DigitsOf(t[..4]) == "100" by { assert t[..4][..3] == t[..3]; }
    assert t[..|t| - 1] == t[..4];
  }

  /** A doubled, leading or trailing underscore is refused. */
  lemma MisplacedUnderscoreRefused()
    ensures IntOf(JStr("1__0")) == None && IntOf(JStr("1_")) == None && IntOf(JStr("_1")) == None
  {
    StripNoSpaces("1__0");
    assert !Grouped("1__0") by { assert "1__0"[2] == '_' && "1__0"[1] == '_'; }
    StripNoSpaces("1_");
    StripNoSpaces("_1");
  }
}
