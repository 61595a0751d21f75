/** Small shared vocabulary of the model. */
module Common {

  /** A value that may be absent: JavaScript's `undefined` (or a missing key). */
  datatype Option<+T> = None | Some(value: T)

  /** JavaScript truthiness of an optional string: `undefined` and `""` are falsy. */
  predicate Truthy(s: Option<string>) {
    s.Some? && s.value != ""
  }

  /**
   * An id as it arrives in a JSON request body or a token claim: a string or an
   * integer. JavaScript keeps the two apart (`7 !== "7"`).
   */
  datatype Json = JStr(str: string) | JNum(num: int)

  /** JavaScript truthiness of an optional id: `undefined`, `""` and `0` are falsy. */
  predicate TruthyJson(v: Option<Json>) {
    v.Some? &&
    match v.value
    case JStr(s) => s != ""
    case JNum(n) => n != 0
  }

  function DigitChar(d: nat): char
    requires d < 10
  {
    "0123456789"[d]
  }

  /** The decimal digits of a natural number. */
  function Digits(n: nat): (s: string)
    ensures |s| >= 1
    decreases n
  {
    if n < 10 then [DigitChar(n)] else Digits(n / 10) + [DigitChar(n % 10)]
  }

  /**
   * `String(v)`: the text Redis stores for an id, since every command argument is
   * sent as a string. For a number this is its decimal digits, which is what
   * JavaScript writes for magnitudes below 10^21.
   */
  function Text(v: Json): string {
    match v
    case JStr(s) => s
    case JNum(n) => if n < 0 then "-" + Digits(-n) else Digits(n)
  }
}
