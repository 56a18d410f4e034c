/** The small part of JavaScript's value semantics that the form, the relay
    route and the Apps Script rely on: values produced by JSON.parse, property
    access, truthiness, conversion to a string, Array.prototype.join and
    String.prototype.trim. */
module JsValues {

  datatype Option<+T> = None | Some(value: T)

  /** The value an expression produces, or the message of the error it throws. */
  datatype Result<+T> = Ok(value: T) | Thrown(message: string)

  /** A value as JSON.parse produces it (numbers are integers in this model). */
  datatype Json =
    | JNull
    | JBool(b: bool)
    | JNum(n: int)
    | JStr(s: string)
    | JArr(items: seq<Json>)
    | JObj(fields: map<string, Json>)

  /** `j.key`: the own data property of an object, `undefined` (None) on a
      missing key or a primitive, and a TypeError when `j` is null. */
  function GetProperty(j: Json, key: string): (r: Result<Option<Json>>)
    ensures r.Thrown? <==> j == JNull
    ensures r == Ok(None) <==> j != JNull && !(j.JObj? && key in j.fields)
    ensures j.JObj? && key in j.fields ==> r == Ok(Some(j.fields[key]))
  {
    match j
    case JNull => Thrown("Cannot read properties of null (reading '" + key + "')")
    case JObj(m) => if key in m then Ok(Some(m[key])) else Ok(None)
    case _ => Ok(None)
  }

  /** ToBoolean of a property value; None stands for `undefined`. */
  predicate Truthy(v: Option<Json>) {
    match v
    case None => false
    case Some(JNull) => false
    case Some(JBool(b)) => b
    case Some(JNum(n)) => n != 0
    case Some(JStr(s)) => s != ""
    case Some(_) => true
  }

  /** `x || fallback` where the result is then used as an error message:
      `new Error(v)` turns a truthy non-string into its String() form. */
  function MessageOr(v: Option<Json>, fallback: string): (r: string)
    ensures !Truthy(v) ==> r == fallback
    ensures v.Some? && v.value.JStr? && v.value.s != "" ==> r == v.value.s
  {
    if Truthy(v) then ToText(v.value) else fallback
  }

  function DigitText(d: nat): (c: char)
    requires d < 10
    ensures '0' <= c <= '9'
  {
    "0123456789"[d]
  }

  /** Decimal digits of a natural number, most significant first. */
  function NaturalText(n: nat): (r: string)
    ensures |r| >= 1
    ensures forall i :: 0 <= i < |r| ==> '0' <= r[i] <= '9'
  {
    if n < 10 then [DigitText(n)] else NaturalText(n / 10) + [DigitText(n % 10)]
  }

  function DecimalText(n: int): string {
    if n < 0 then "-" + NaturalText(-n) else NaturalText(n)
  }

  /** String(j). */
  function ToText(j: Json): string
    decreases j, 1
  {
    match j
    case JNull => "null"
    case JBool(b) => if b then "true" else "false"
    case JNum(n) => DecimalText(n)
    case JStr(s) => s
    case JArr(items) => ArrayJoin(items, ",")
    case JObj(_) => "[object Object]"
  }

  /** Array.prototype.join: null elements become the empty string. */
  function ArrayJoin(items: seq<Json>, sep: string): string
    decreases items, 0
  {
    if |items| == 0 then ""
    else ElementText(items[0]) + (if |items| == 1 then "" else sep + ArrayJoin(items[1..], sep))
  }

  function ElementText(j: Json): string
    decreases j, 2
  {
    if j == JNull then "" else ToText(j)
  }

  /** The parts with `sep` between each pair of neighbours. */
  function Join(parts: seq<string>, sep: string): string {
    if |parts| == 0 then ""
    else parts[0] + (if |parts| == 1 then "" else sep + Join(parts[1..], sep))
  }

  /** The text of each element of a list of strings. */
  function Texts(items: seq<Json>): (r: seq<string>)
    requires forall i :: 0 <= i < |items| ==> items[i].JStr?
    ensures |r| == |items|
    ensures forall i :: 0 <= i < |items| ==> r[i] == items[i].s
  {
    if items == [] then [] else [items[0].s] + Texts(items[1..])
  }

  /** On an array of strings, join is the plain Join of their texts. */
  lemma {:induction false} ArrayJoinOfStrings(items: seq<Json>, sep: string)
    requires forall i :: 0 <= i < |items| ==> items[i].JStr?
    ensures ArrayJoin(items, sep) == Join(Texts(items), sep)
  {
    if |items| > 1 {
      ArrayJoinOfStrings(items[1..], sep);
      assert Texts(items)[1..] == Texts(items[1..]);
      assert Texts(items)[0] == ElementText(items[0]);
    } else if |items| == 1 {
      assert Texts(items)[0] == ElementText(items[0]);
    }
  }

  /** The whitespace set shared by the regular-expression class `\s` and by
      String.prototype.trim: WhiteSpace (tab, vertical tab, form feed, space,
      no-break space, byte order mark and the Unicode "Zs" category) and
      LineTerminator (line feed, carriage return, line and paragraph
      separators). */
  predicate IsJsSpace(c: char) {
    c == '\t' || c == '\U{B}' || c == '\U{C}' || c == ' ' || c == '\U{A0}' || c == '\U{FEFF}'
    || c == '\U{1680}' || ('\U{2000}' <= c <= '\U{200A}') || c == '\U{202F}' || c == '\U{205F}'
    || c == '\U{3000}' || c == '\n' || c == '\r' || c == '\U{2028}' || c == '\U{2029}'
  }

  /** Every character of `s` is JavaScript whitespace. */
  predicate IsBlank(s: string) {
    forall i :: 0 <= i < |s| ==> IsJsSpace(s[i])
  }

  /** `s` with its leading whitespace removed. */
  function TrimStart(s: string): (r: string)
    ensures |r| <= |s| && r == s[|s| - |r|..]
    ensures IsBlank(s[..|s| - |r|])
    ensures r == [] || !IsJsSpace(r[0])
  {
    if s != [] && IsJsSpace(s[0]) then TrimStart(s[1..]) else s
  }

  /** `s` with its trailing whitespace removed. */
  function TrimEnd(s: string): (r: string)
    ensures |r| <= |s| && r == s[..|r|]
    ensures IsBlank(s[|r|..])
    ensures r == [] || !IsJsSpace(r[|r| - 1])
  {
    if s != [] && IsJsSpace(s[|s| - 1]) then TrimEnd(s[..|s| - 1]) else s
  }

  /** String.prototype.trim. */
  function Trim(s: string): string {
    TrimEnd(TrimStart(s))
  }

  /** `s.trim() === ""` holds exactly for the all-whitespace strings. */
  lemma TrimEmptyIffBlank(s: string)
    ensures Trim(s) == "" <==> IsBlank(s)
  {
    var t := TrimStart(s);
    if Trim(s) == "" {
      assert IsBlank(t[0..]);
      forall i | 0 <= i < |s| ensures IsJsSpace(s[i]) {
        if i < |s| - |t| {
          assert s[..|s| - |t|][i] == s[i];
        } else {
          assert t[i - (|s| - |t|)] == s[i];
        }
      }
    }
  }
}
