/** JavaScript value conventions shared by the server and the page scripts:
    possibly-undefined values, truthiness, template-literal text and the
    decimal text of a number. */
module Js {

  datatype Option<+T> = None | Some(value: T)

  /** An operation that either yields a value or fails with a message. */
  datatype Result<+T> = Ok(value: T) | Err(error: string)

  /** A possibly-undefined string is truthy exactly when it is present and non-empty. */
  predicate Truthy(s: Option<string>)
  {
    s.Some? && s.value != ""
  }

  /** A possibly-undefined string read with a fallback for undefined. */
  function OrDefault(s: Option<string>, fallback: string): (r: string)
    ensures s.Some? ==> r == s.value
    ensures s.None? ==> r == fallback
  {
    if s.Some? then s.value else fallback
  }

  /** Reading with a fallback loses exactly one distinction: undefined and
      the fallback string itself give the same text; any other two values
      stay apart. */
  lemma OrDefaultCollision(a: Option<string>, b: Option<string>, fallback: string)
    ensures OrDefault(a, fallback) == OrDefault(b, fallback) <==>
      a == b || (a == None && b == Some(fallback)) || (a == Some(fallback) && b == None)
  {
  }

  /** `${x}` of a possibly-undefined string: an undefined value prints as "undefined". */
  function Text(s: Option<string>): (r: string)
    ensures s.Some? ==> r == s.value
    ensures s.None? ==> r == "undefined"
  {
    OrDefault(s, "undefined")
  }

  /** Rendered markup cannot tell an undefined field from the string
      "undefined", and tells every other two values apart. */
  lemma TextCollision(a: Option<string>, b: Option<string>)
    ensures Text(a) == Text(b) <==>
      a == b || (a == None && b == Some("undefined")) || (a == Some("undefined") && b == None)
  {
    OrDefaultCollision(a, b, "undefined");
  }

  /** A request field the handlers expect to hold a list of strings. */
  datatype StringsField =
    | Absent                    // missing, null or undefined
    | Items(items: seq<string>) // a JSON array of strings
    | Single(item: string)      // a bare string, which `Array.isArray` rejects

  /** Assigning a possibly-undefined string to `textContent`: undefined, like
      null, clears it. */
  function TextContent(s: Option<string>): (r: string)
    ensures s.Some? ==> r == s.value
    ensures s.None? ==> r == ""
  {
    OrDefault(s, "")
  }

  /** An undefined value leaves the element as empty as the empty string
      does, and every other two values give different text. */
  lemma TextContentCollision(a: Option<string>, b: Option<string>)
    ensures TextContent(a) == TextContent(b) <==>
      a == b || (a == None && b == Some("")) || (a == Some("") && b == None)
  {
    OrDefaultCollision(a, b, "");
  }

  /** How many UTF-16 code units a character takes: two for a character
      outside the Basic Multilingual Plane (a surrogate pair), one otherwise. */
  function Utf16Units(c: char): nat
  {
    if c as int >= 0x1_0000 then 2 else 1
  }

  /** A JavaScript string's `.length`: its UTF-16 code units. It is at least
      the number of characters and at most twice that, and the two agree on
      text inside the Basic Multilingual Plane. */
  function Utf16Length(s: string): (n: nat)
    ensures |s| <= n <= 2 * |s|
    ensures (forall i :: 0 <= i < |s| ==> s[i] as int < 0x1_0000) ==> n == |s|
  {
    if s == [] then 0 else Utf16Length(s[..|s| - 1]) + Utf16Units(s[|s| - 1])
  }

  /** `.length` of a concatenation adds up. */
  lemma {:induction false} Utf16LengthAppend(a: string, b: string)
    ensures Utf16Length(a + b) == Utf16Length(a) + Utf16Length(b)
    decreases |b|
  {
    if b == [] {
      assert a + b == a;
    } else {
      assert (a + b)[..|a + b| - 1] == a + b[..|b| - 1];
      assert (a + b)[|a + b| - 1] == b[|b| - 1];
      Utf16LengthAppend(a, b[..|b| - 1]);
    }
  }

  /** `n` blanks, the indentation inside a multi-line template literal. */
  function Spaces(n: nat): (r: string)
    ensures |r| == n
  {
    seq(n, _ => ' ')
  }

  /** Opaque structured data as it travels in request bodies and is stored in documents. */
  datatype Json =
    | JNull
    | JBool(b: bool)
    | JNum(n: int)
    | JStr(s: string)
    | JArr(items: seq<Json>)
    | JObj(fields: seq<(string, Json)>)

  /** JavaScript truthiness of a JSON value. */
  predicate JsonTruthy(j: Json)
  {
    match j
    case JNull => false
    case JBool(b) => b
    case JNum(n) => n != 0
    case JStr(s) => s != ""
    case JArr(_) => true
    case JObj(_) => true
  }

  /** `value || {}`: an absent or falsy value is replaced by the empty object. */
  function OrEmptyObject(value: Option<Json>): (r: Json)
    ensures JsonTruthy(r)
    ensures value.Some? && JsonTruthy(value.value) ==> r == value.value
    ensures !(value.Some? && JsonTruthy(value.value)) ==> r == JObj([])
  {
    if value.Some? && JsonTruthy(value.value) then value.value else JObj([])
  }

  predicate IsDigit(c: char)
  {
    '0' <= c <= '9'
  }

  function Digit(d: nat): (c: char)
    requires d < 10
    ensures IsDigit(c) && c as int - '0' as int == d
  {
    ('0' as int + d) as char
  }

  /** `${n}` of a non-negative integer: its decimal digits, most significant first. */
  function Decimal(n: nat): (r: string)
    ensures |r| > 0
    ensures forall i :: 0 <= i < |r| ==> IsDigit(r[i])
    ensures n > 0 ==> r[0] != '0'
  {
    if n < 10 then [Digit(n)] else Decimal(n / 10) + [Digit(n % 10)]
  }

  /** The number a string of decimal digits denotes. */
  function DigitsValue(s: string): nat
    requires forall i :: 0 <= i < |s| ==> IsDigit(s[i])
  {
    if s == [] then 0
    else
      assert IsDigit(s[|s| - 1]);
      DigitsValue(s[..|s| - 1]) * 10 + (s[|s| - 1] as int - '0' as int)
  }

  /** Reads a number back from its decimal text (no sign, no blanks). */
  function ParseDecimal(s: string): (r: Option<nat>)
    ensures r.Some? <==> s != [] && forall i :: 0 <= i < |s| ==> IsDigit(s[i])
  {
    if s != [] && forall i :: 0 <= i < |s| ==> IsDigit(s[i]) then Some(DigitsValue(s)) else None
  }

  /** The decimal text of a number reads back as that number. */
  lemma {:induction false} DecimalRoundTrip(n: nat)
    ensures ParseDecimal(Decimal(n)) == Some(n)
  {
    DecimalValue(n);
  }

  lemma {:induction false} DecimalValue(n: nat)
    ensures DigitsValue(Decimal(n)) == n
  {
    if n >= 10 {
      var d := Decimal(n);
      assert d[..|d| - 1] == Decimal(n / 10);
      DecimalValue(n / 10);
    }
  }
}
