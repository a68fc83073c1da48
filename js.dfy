/** The few JavaScript value semantics the modelled code relies on: truthiness and JSON.stringify. */
module Js {
  import opened Base

  /** What `JSON.stringify` does with a value: returns text, throws (a cycle or a BigInt inside the
      object), or returns `undefined` (a function or a symbol). */
  datatype Stringified = Json(text: string) | Throws | NoJson

  /** A JavaScript value as far as the modelled code inspects it. Numbers are integers (NaN, ±Infinity,
      fractions and BigInt are not modelled); `ErrorObject` is an instance of `Error`; `Other` is any other
      object, function or symbol, described by what `JSON.stringify` does with it. */
  datatype JsValue =
    | Undefined
    | Null
    | Bool(b: bool)
    | Number(n: int)
    | Str(s: string)
    | ErrorObject(message: string)
    | Other(json: Stringified)

  /** JavaScript truthiness: `undefined`, `null`, `false`, `0` and `''` are falsy; every object is truthy. */
  predicate Truthy(v: JsValue) {
    match v
    case Undefined => false
    case Null => false
    case Bool(b) => b
    case Number(n) => n != 0
    case Str(s) => s != ""
    case ErrorObject(_) => true
    case Other(_) => true
  }

  /** Truthiness of an optional string (`undefined` or a string). */
  predicate TruthyStr(s: Option<string>) {
    s.Some? && s.value != ""
  }

  /** Decimal digits of a natural number. */
  function NatDigits(n: nat): (r: string)
    ensures |r| >= 1
    ensures forall i :: 0 <= i < |r| ==> '0' <= r[i] <= '9'
  {
    if n < 10 then [DigitChar(n)] else NatDigits(n / 10) + [DigitChar(n % 10)]
  }

  function DigitChar(d: nat): (c: char)
    requires d < 10
    ensures '0' <= c <= '9'
  {
    "0123456789"[d]
  }

  /** `JSON.stringify` of an integer. */
  function Decimal(n: int): string {
    if n < 0 then "-" + NatDigits(-n) else NatDigits(n)
  }

  /** Four lower-case hexadecimal digits of a code unit below 0x10000. */
  function Hex4(n: nat): string
    requires n < 0x1_0000
  {
    var h := "0123456789abcdef";
    [h[n / 0x1000], h[(n / 0x100) % 16], h[(n / 16) % 16], h[n % 16]]
  }

  /** The escaping `JSON.stringify` applies inside a string literal: quote and backslash are escaped,
      the five named control characters get their short escapes and the other control characters
      `\u00xx`. */
  function Escape(s: string): string {
    if s == [] then ""
    else
      var c := s[0];
      var e :=
        if c == '"' then "\\\""
        else if c == '\\' then "\\\\"
        else if c == '\U{8}' then "\\b"
        else if c == '\U{C}' then "\\f"
        else if c == '\n' then "\\n"
        else if c == '\r' then "\\r"
        else if c == '\t' then "\\t"
        else if (c as int) < 0x20 then "\\u" + Hex4(c as int)
        else [c];
      e + Escape(s[1..])
  }

  /** `JSON.stringify` of a string: the escaped text between double quotes. */
  function Quote(s: string): (r: string)
    ensures |r| >= 2 && r[0] == '"' && r[|r| - 1] == '"'
  {
    "\"" + Escape(s) + "\""
  }

  /** `JSON.stringify(v)`. An `Error` has no enumerable own properties, so it becomes `{}`. */
  function Stringify(v: JsValue): Stringified {
    match v
    case Undefined => NoJson
    case Null => Json("null")
    case Bool(b) => Json(if b then "true" else "false")
    case Number(n) => Json(Decimal(n))
    case Str(s) => Json(Quote(s))
    case ErrorObject(_) => Json("{}")
    case Other(j) => j
  }

  /** Every modelled primitive value has a JSON text except `undefined`; only other objects can make
      `JSON.stringify` throw. */
  lemma StringifyThrowsOnlyOnObjects(v: JsValue)
    ensures Stringify(v) == Throws ==> v == Other(Throws)
    ensures Stringify(v) == NoJson ==> v == Undefined || v == Other(NoJson)
  {
  }
}
