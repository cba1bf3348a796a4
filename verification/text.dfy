/** The few string operations the review messages and rules use. */
module Text {

  function DigitChar(d: nat): char
    requires d < 10
  {
    "0123456789"[d]
  }

  /** Decimal notation of `n`, as `str` prints a non-negative integer. */
  function NatToString(n: nat): (s: string)
    ensures |s| > 0
    decreases n
  {
    if n < 10 then [DigitChar(n)] else NatToString(n / 10) + [DigitChar(n % 10)]
  }

  /** The elements of `ns` separated by ", ". */
  function JoinNats(ns: seq<nat>): string
    decreases |ns|
  {
    if ns == [] then ""
    else if |ns| == 1 then NatToString(ns[0])
    else NatToString(ns[0]) + ", " + JoinNats(ns[1..])
  }

  /** How a list of integers prints: "[3, 7, 12]". */
  function ListRepr(ns: seq<nat>): string {
    "[" + JoinNats(ns) + "]"
  }

  /** Lower case for ASCII letters; other characters are kept. */
  function LowerChar(c: char): char {
    if 'A' <= c <= 'Z' then (c as int + 32) as char else c
  }

  function Lower(s: string): string {
    seq(|s|, i requires 0 <= i < |s| => LowerChar(s[i]))
  }

  /** `part` occurs in `s` as a contiguous substring. */
  predicate Contains(s: string, part: string)
    decreases |s|
  {
    if |s| < |part| then false
    else if s[..|part|] == part then true
    else Contains(s[1..], part)
  }
}
