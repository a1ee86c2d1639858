/** Values and helpers shared by every module: optional values, the
    JavaScript string idioms the application relies on (`a || b` on an
    optional string, `Array.join`, number interpolation) and the
    whole-day arithmetic on millisecond timestamps. */
module Common {

  /** An optional value: TypeScript's `T | undefined`. */
  datatype Option<+T> = None | Some(value: T) {
    function GetOr(default: T): T {
      match this
      case Some(v) => v
      case None => default
    }
  }

  /** An optional field after `{ ...record, ...updates }`: the update's
      value when the update object has the key, the record's otherwise. */
  function Overriding<T>(current: Option<T>, given: Option<T>): Option<T> {
    if given.Some? then given else current
  }

  /** `s || fallback` for an optional string: both `undefined` and the
      empty string are falsy in JavaScript. */
  function OrElse(s: Option<string>, fallback: string): string {
    if s.Some? && s.value != "" then s.value else fallback
  }

  /** `parts.join(sep)`. */
  function Join(parts: seq<string>, sep: string): string
  {
    if |parts| == 0 then ""
    else if |parts| == 1 then parts[0]
    else parts[0] + sep + Join(parts[1..], sep)
  }

  predicate IsDigit(c: char) {
    '0' <= c <= '9'
  }

  function DigitChar(d: nat): (c: char)
    requires d < 10
    ensures IsDigit(c) && c as int - '0' as int == d
  {
    (48 + d) as char
  }

  /** The decimal text of a non-negative integer, as `${n}` prints it. */
  function NatToString(n: nat): (r: string)
    ensures |r| >= 1
    ensures forall i :: 0 <= i < |r| ==> IsDigit(r[i])
    ensures n >= 10 <==> |r| >= 2
    decreases n
  {
    if n < 10 then [DigitChar(n)] else NatToString(n / 10) + [DigitChar(n % 10)]
  }

  function DigitValue(c: char): nat
    requires IsDigit(c)
  {
    c as int - '0' as int
  }

  /** Reads back a string of decimal digits. */
  function DigitsValue(s: string): nat
    requires forall i :: 0 <= i < |s| ==> IsDigit(s[i])
  {
    if s == [] then 0
    else 10 * DigitsValue(s[..|s| - 1]) + DigitValue(s[|s| - 1])
  }

  /** Interpolating a number loses nothing: its digits read back as the number. */
  lemma {:induction false} NatToStringRoundTrip(n: nat)
    ensures DigitsValue(NatToString(n)) == n
    decreases n
  {
    if n >= 10 {
      NatToStringRoundTrip(n / 10);
      var r := NatToString(n);
      assert r[..|r| - 1] == NatToString(n / 10);
    }
  }

  /** `${n}` for an integer that may be negative. */
  function IntToString(n: int): string {
    if n < 0 then "-" + NatToString(-n) else NatToString(n)
  }

  function Abs(n: int): (r: nat)
    ensures r == n || r == -n
  {
    if n < 0 then -n else n
  }

  /** One day, `1000 * 60 * 60 * 24` milliseconds. */
  const DAY_MS: int := 86_400_000

  /** `Math.floor(ms / DAY_MS)`: the unique q with q days <= ms < q+1 days. */
  function FloorDays(ms: int): (q: int)
    ensures DAY_MS * q <= ms < DAY_MS * q + DAY_MS
  {
    ms / DAY_MS
  }

  /** `Math.ceil(ms / DAY_MS)`: the unique q with q-1 days < ms <= q days. */
  function CeilDays(ms: int): (q: int)
    ensures DAY_MS * q - DAY_MS < ms <= DAY_MS * q
  {
    -((-ms) / DAY_MS)
  }

  /** The bounds in FloorDays's contract determine its result. */
  lemma FloorDaysUnique(ms: int, q: int)
    requires DAY_MS * q <= ms < DAY_MS * q + DAY_MS
    ensures FloorDays(ms) == q
  {
  }

  /** Counting whole days back from k days: the ceiling of the remaining
      time is k minus the floor of the elapsed time. */
  lemma CeilDaysComplement(ms: int, k: int)
    ensures CeilDays(DAY_MS * k - ms) == k - FloorDays(ms)
  {
  }
}
