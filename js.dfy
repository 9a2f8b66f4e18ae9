/** JavaScript values as the pages use them: optional values, the `||`
    fallback on strings, `Number(...)`, and the JSON values a request body holds. */
module Js {
  import opened Text

  /** A value that may be `undefined` or `null`. */
  datatype Option<+T> = None | Some(value: T)

  /** A string is truthy unless it is missing or empty. */
  predicate Truthy(o: Option<string>) {
    o.Some? && o.value != ""
  }

  /** `o || fallback` on an optional string. */
  function OrElse(o: Option<string>, fallback: string): string {
    if Truthy(o) then o.value else fallback
  }

  /** `o || fallback` where the fallback is itself optional. */
  function OrElseOpt(o: Option<string>, fallback: Option<string>): Option<string> {
    if Truthy(o) then o else fallback
  }

  /** The JavaScript `||` on strings is the first truthy operand, else the fallback. */
  lemma OrElseChoice(o: Option<string>, f: Option<string>, d: string)
    ensures OrElse(OrElseOpt(o, f), d) == (if Truthy(o) then o.value else if Truthy(f) then f.value else d)
    ensures OrElse(OrElseOpt(o, f), d) != "" || d == ""
  {
  }

  /** A `number` that is either an integer or NaN. */
  datatype JsNumber = Num(n: int) | NaN

  /** `Number(s)` on the literals an admin types: surrounding JavaScript
      whitespace is ignored, an empty or blank string is 0, an optional sign
      followed by decimal digits is that integer, anything else is NaN. */
  function ToNumber(s: string): (r: JsNumber)
    ensures IsBlank(s) ==> r == Num(0)
  {
    TrimEmptyIffBlank(s);
    var t := Trim(s);
    if t == "" then Num(0)
    else if AllDigits(t) then Num(DigitsValue(t))
    else if |t| > 1 && t[0] == '+' && AllDigits(t[1..]) then Num(DigitsValue(t[1..]))
    else if |t| > 1 && t[0] == '-' && AllDigits(t[1..]) then Num(-(DigitsValue(t[1..]) as int))
    else NaN
  }

  /** Writing an integer out and reading it back gives the integer. */
  lemma ToNumberRoundTrip(n: int)
    ensures ToNumber(IntToString(n)) == Num(n)
  {
    var t := IntToString(n);
    if n < 0 {
      NatToStringRoundTrip(-n);
      assert t[1..] == NatToString(-n);
      assert !AllDigits(t) by { assert !IsDigit(t[0]); }
    } else {
      NatToStringRoundTrip(n);
    }
    NoWhitespaceTrim(t);
  }

  lemma NoWhitespaceTrim(t: string)
    requires |t| > 0 && (IsDigit(t[0]) || t[0] == '-') && IsDigit(t[|t| - 1])
    ensures Trim(t) == t
  {
    assert !IsWhitespace(t[0]);
    assert TrimStart(t) == t;
    assert !IsWhitespace(t[|t| - 1]);
  }

  /** A JSON value as `JSON.stringify` writes it. A key whose value is
      `undefined` is left out of an object, and NaN is written as null. */
  datatype JsonValue =
    | JNull
    | JBool(b: bool)
    | JNum(n: int)
    | JStr(s: string)
    | JObject(fields: map<string, JsonValue>)

  function FromNumber(x: JsNumber): JsonValue {
    match x
    case Num(n) => JNum(n)
    case NaN => JNull
  }

  /** The entry `key: value` as an object literal holds it after
      `JSON.stringify`: present when the value is defined, absent otherwise. */
  function Field(key: string, value: Option<JsonValue>): (m: map<string, JsonValue>)
    ensures key in m <==> value.Some?
    ensures value.Some? ==> m[key] == value.value
    ensures m.Keys <= {key}
  {
    if value.Some? then map[key := value.value] else map[]
  }

  function OptStr(o: Option<string>): Option<JsonValue> {
    if o.Some? then Some(JStr(o.value)) else None
  }

  /** `x || []` on a list: a missing list reads as empty. */
  function OrEmpty<T>(o: Option<seq<T>>): (r: seq<T>)
    ensures o.None? ==> r == []
    ensures o.Some? ==> r == o.value
  {
    if o.Some? then o.value else []
  }

  /** `a` lists some of the elements of `b`, in `b`'s order: what
      `Array.prototype.filter` leaves of `b`. */
  predicate IsSubsequence<T(==)>(a: seq<T>, b: seq<T>)
    decreases |b|
  {
    a == [] || (b != [] && ((a[0] == b[0] && IsSubsequence(a[1..], b[1..])) || IsSubsequence(a, b[1..])))
  }

  lemma {:induction false} SubsequenceReflexive<T>(s: seq<T>)
    ensures IsSubsequence(s, s)
    decreases |s|
  {
    if s != [] {
      SubsequenceReflexive(s[1..]);
    }
  }
}
