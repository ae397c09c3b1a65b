/** JavaScript values as the controllers and components see them: request
    body fields, form fields and the results of awaited calls. */
module JsValues {

  /** A dynamically typed JavaScript value. Numbers are integral here
      (amounts in minor currency units); `NaN` is kept apart because it
      is falsy and compares false with everything. */
  datatype Val =
    | Undefined
    | Null
    | Bool(b: bool)
    | Num(n: int)
    | NaN
    | Str(s: string)
    | Date(ms: int)

  datatype Option<T> = None | Some(value: T)

  /** An awaited call that either returns a value or throws. */
  datatype Call<T> = Returned(value: T) | Threw(message: string)

  /** The outcome of a chain of guard checks: the first failing check's
      message, or success. */
  datatype Verdict = Valid | Invalid(message: string)

  /** JavaScript truthiness: `!v` is `!Truthy(v)`. */
  predicate Truthy(v: Val)
  {
    match v
    case Undefined => false
    case Null => false
    case NaN => false
    case Bool(b) => b
    case Num(n) => n != 0
    case Str(s) => s != ""
    case Date(_) => true
  }

  /** `a || b` */
  function Or(a: Val, b: Val): Val
  {
    if Truthy(a) then a else b
  }

  /** The value that `JSON.stringify` followed by `JSON.parse` yields for a
      field: NaN travels as null, a Date as its text. */
  function Json(v: Val): Val
  {
    match v
    case NaN => Null
    case Date(ms) => Str(IntToString(ms))
    case _ => v
  }

  function DigitChar(d: nat): char
    requires d < 10
  {
    "0123456789"[d]
  }

  /** Decimal text of a natural number, most significant digit first. */
  function NatToString(n: nat): (s: string)
    ensures |s| >= 1
    ensures forall i :: 0 <= i < |s| ==> '0' <= s[i] <= '9'
  {
    if n < 10 then [DigitChar(n)] else NatToString(n / 10) + [DigitChar(n % 10)]
  }

  function IntToString(n: int): string
  {
    if n < 0 then "-" + NatToString(-n) else NatToString(n)
  }

  /** The number a string of decimal digits denotes: the inverse of
      `NatToString`. */
  function DigitsValue(s: string): nat
    requires forall i :: 0 <= i < |s| ==> '0' <= s[i] <= '9'
  {
    if s == [] then 0
    else DigitsValue(s[..|s| - 1]) * 10 + (s[|s| - 1] as int - '0' as int)
  }

  lemma {:induction false} NatToStringRoundTrip(n: nat)
    ensures DigitsValue(NatToString(n)) == n
  {
    if n >= 10 {
      var prefix := NatToString(n / 10);
      var s := prefix + [DigitChar(n % 10)];
      assert s[..|s| - 1] == prefix;
      NatToStringRoundTrip(n / 10);
    }
  }

  /** `s.length`, which counts UTF-16 code units: a character outside the
      Basic Multilingual Plane takes two. */
  function CodeUnits(s: string): (n: nat)
    ensures |s| <= n <= 2 * |s|
    ensures (forall i :: 0 <= i < |s| ==> s[i] as int < 0x1_0000) ==> n == |s|
  {
    if s == [] then 0
    else (if s[0] as int < 0x1_0000 then 1 else 2) + CodeUnits(s[1..])
  }

  /** `String(v)`, which is also what a template literal `${v}` inserts.
      The text of a Date object is abstracted as its time value. */
  function Text(v: Val): string
  {
    match v
    case Undefined => "undefined"
    case Null => "null"
    case NaN => "NaN"
    case Bool(b) => if b then "true" else "false"
    case Num(n) => IntToString(n)
    case Str(s) => s
    case Date(ms) => IntToString(ms)
  }

  /** A field keeps its truthiness across `JSON.stringify`/`JSON.parse`. */
  lemma JsonKeepsTruthiness(v: Val)
    ensures Truthy(Json(v)) == Truthy(v)
  {
  }

  /** `s.startsWith(prefix)` */
  predicate StartsWith(s: string, prefix: string)
  {
    |prefix| <= |s| && s[..|prefix|] == prefix
  }

  /** The text of a number never starts with a letter, so no numeric id
      can carry a textual prefix such as "fallback-". */
  lemma NumberTextStartsWithDigitOrSign(n: int, prefix: string)
    requires prefix != [] && !('0' <= prefix[0] <= '9') && prefix[0] != '-'
    ensures !StartsWith(Text(Num(n)), prefix)
  {
    if n < 0 {
      assert Text(Num(n))[0] == '-';
    }
  }

  /** The characters `String.prototype.trim` removes: white space and line
      terminators. */
  predicate IsSpace(c: char)
  {
    c == ' ' || c == '\t' || c == '\n' || c == '\r' || c == '\U{B}' || c == '\U{C}'
    || c == '\U{A0}' || c == '\U{1680}' || ('\U{2000}' <= c <= '\U{200A}')
    || c == '\U{2028}' || c == '\U{2029}' || c == '\U{202F}' || c == '\U{205F}'
    || c == '\U{3000}' || c == '\U{FEFF}'
  }

  predicate AllSpace(s: string)
  {
    forall i :: 0 <= i < |s| ==> IsSpace(s[i])
  }

  function TrimStart(s: string): (r: string)
    ensures r == [] || !IsSpace(r[0])
  {
    if s != [] && IsSpace(s[0]) then TrimStart(s[1..]) else s
  }

  function TrimEnd(s: string): (r: string)
    ensures r == [] || !IsSpace(r[|r| - 1])
  {
    if s != [] && IsSpace(s[|s| - 1]) then TrimEnd(s[..|s| - 1]) else s
  }

  /** `s.trim()` */
  function Trim(s: string): string
  {
    TrimEnd(TrimStart(s))
  }

  lemma {:induction false} TrimStartEmpty(s: string)
    ensures TrimStart(s) == [] <==> AllSpace(s)
  {
    if s != [] && IsSpace(s[0]) {
      TrimStartEmpty(s[1..]);
      assert AllSpace(s) <==> AllSpace(s[1..]) by {
        if AllSpace(s[1..]) {
          forall i | 0 <= i < |s| ensures IsSpace(s[i]) {
            if i > 0 { assert s[i] == s[1..][i - 1]; }
          }
        }
      }
    }
  }

  lemma {:induction false} TrimEndKeepsFirst(s: string)
    requires s != [] && !IsSpace(s[0])
    ensures TrimEnd(s) != []
  {
    if IsSpace(s[|s| - 1]) {
      TrimEndKeepsFirst(s[..|s| - 1]);
    }
  }

  /** `!s.trim()` holds exactly when the string is blank. */
  lemma TrimEmptyIff(s: string)
    ensures Trim(s) == [] <==> AllSpace(s)
  {
    TrimStartEmpty(s);
    if TrimStart(s) != [] {
      TrimEndKeepsFirst(TrimStart(s));
    }
  }
}
