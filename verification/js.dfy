/**
  The few JavaScript primitives the modelled code leans on, written out with
  their exact semantics on the values the model uses.
*/
module Js {
  import opened Wrappers

  /** `s.startsWith(p)` */
  predicate StartsWith(s: string, p: string) {
    |p| <= |s| && s[..|p|] == p
  }

  /** `s.includes(c)` for a one-character needle */
  predicate Includes(s: string, c: char) {
    c in s
  }

  /**
    `n || 0` on a JavaScript number, where `None` stands for NaN: NaN and 0 are
    falsy, so both give 0, and every other number is kept.
  */
  function OrZero(n: Option<real>): (r: real)
    ensures n.None? ==> r == 0.0
    ensures n.Some? ==> r == n.value
  {
    match n
    case None => 0.0
    case Some(x) => if x == 0.0 then 0.0 else x
  }

  /** `c.toUpperCase()` restricted to ASCII letters. */
  function AsciiUpper(c: char): (u: char)
    ensures 'a' <= c <= 'z' ==> 'A' <= u <= 'Z' && u as int - c as int == 'A' as int - 'a' as int
    ensures !('a' <= c <= 'z') ==> u == c
  {
    if 'a' <= c <= 'z' then (c as int - 'a' as int + 'A' as int) as char else c
  }

  function AsciiUpperString(s: string): (r: string)
    ensures |r| == |s|
    ensures forall i | 0 <= i < |s| :: r[i] == AsciiUpper(s[i])
  {
    if s == [] then [] else AsciiUpperString(s[..|s| - 1]) + [AsciiUpper(s[|s| - 1])]
  }

  /** The decimal digit character of `d`. */
  function DigitChar(d: int): (c: char)
    requires 0 <= d <= 9
    ensures '0' <= c <= '9' && c as int - '0' as int == d
  {
    ('0' as int + d) as char
  }
}
