/** Small datatypes and arithmetic shared by every module. */
module Basics {

  datatype Option<+T> = None | Some(value: T)

  /** One key of a decoded request body: missing, rejected by its decoder, or carrying a value. */
  datatype Field<+T> = Absent | Malformed | Given(value: T)

  /** SQL COALESCE on two nullable values. */
  function Coalesce<T>(first: Option<T>, second: Option<T>): Option<T> {
    if first.Some? then first else second
  }

  function Max(a: int, b: int): int {
    if a > b then a else b
  }

  function Abs(x: int): int {
    if x < 0 then -x else x
  }

  /** std::llround: to the nearest integer, halves away from zero. */
  function LlRound(x: real): int {
    if x >= 0.0 then (x + 0.5).Floor else -((-x + 0.5).Floor)
  }

  /** LlRound returns n exactly when x lies less than half a unit from n. */
  lemma LlRoundNear(x: real, n: int)
    requires -0.5 < x - n as real < 0.5
    ensures LlRound(x) == n
  {
  }

  /** ASCII lower-casing of a character, as std::tolower does in the C locale. */
  function LowerChar(c: char): char {
    if 'A' <= c <= 'Z' then ((c as int) + 32) as char else c
  }

  function UpperChar(c: char): char {
    if 'a' <= c <= 'z' then ((c as int) - 32) as char else c
  }

  function Lower(s: string): string {
    seq(|s|, i requires 0 <= i < |s| => LowerChar(s[i]))
  }

  function Upper(s: string): string {
    seq(|s|, i requires 0 <= i < |s| => UpperChar(s[i]))
  }

  /** To the nearest integer, and at the midpoint to the one farther from zero. */
  lemma LlRoundMeaning(x: real, n: int)
    ensures LlRound(x) == n <==>
            || -0.5 < x - n as real < 0.5
            || (x > 0.0 && x - n as real == -0.5)
            || (x < 0.0 && x - n as real == 0.5)
  {
  }

  /** The same letter of the ASCII alphabet, whatever its case, or the same character. */
  predicate SameLetter(a: char, b: char) {
    || a == b
    || ('A' <= a <= 'Z' && b as int == a as int + 32)
    || ('A' <= b <= 'Z' && a as int == b as int + 32)
  }

  /** Comparing lower-cased texts ignores the case of ASCII letters and nothing else. */
  lemma LowerMeaning(a: string, b: string)
    ensures Lower(a) == Lower(b) <==> |a| == |b| && forall i :: 0 <= i < |a| ==> SameLetter(a[i], b[i])
  {
    if Lower(a) == Lower(b) {
      forall i | 0 <= i < |a| ensures SameLetter(a[i], b[i]) {
        assert Lower(a)[i] == Lower(b)[i];
      }
    }
  }

  /** Upper-casing changes only case, and leaves no lower-case letter. */
  lemma UpperMeaning(s: string)
    ensures |Upper(s)| == |s|
    ensures forall i :: 0 <= i < |s| ==> SameLetter(s[i], Upper(s)[i]) && !('a' <= Upper(s)[i] <= 'z')
  {
  }
}
