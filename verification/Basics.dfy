/** Small notions several components share. */
module Basics {
  /** Number.MAX_SAFE_INTEGER. */
  const MAX_SAFE_INTEGER := 9_007_199_254_740_991

  newtype byte = x: int | 0 <= x < 256

  function Abs(x: int): nat {
    if x < 0 then -x else x
  }

  function Max(a: int, b: int): int { if a < b then b else a }

  function LowerChar(c: char): char {
    if 'A' <= c <= 'Z' then (c as int + 32) as char else c
  }

  /** ASCII lower case. */
  function Lower(s: string): string {
    seq(|s|, i requires 0 <= i < |s| => LowerChar(s[i]))
  }

  /** ASCII upper case. */
  function Upper(s: string): string {
    seq(|s|, i requires 0 <= i < |s| => UpperChar(s[i]))
  }

  function UpperChar(c: char): char {
    if 'a' <= c <= 'z' then (c as int - 32) as char else c
  }

  predicate SameLetter(capital: char, small: char) {
    'A' <= capital <= 'Z' && small as int == capital as int + 32
  }

  /** Equal but for the case of ASCII letters. */
  predicate SameLetters(a: string, b: string) {
    |a| == |b| && forall i | 0 <= i < |a| :: a[i] == b[i] || SameLetter(a[i], b[i]) || SameLetter(b[i], a[i])
  }

  lemma LowerIsSameLetters(a: string, b: string)
    ensures Lower(a) == Lower(b) <==> SameLetters(a, b)
  {
    if Lower(a) == Lower(b) {
      assert |Lower(a)| == |Lower(b)|;
      forall i | 0 <= i < |a| ensures a[i] == b[i] || SameLetter(a[i], b[i]) || SameLetter(b[i], a[i]) {
        assert Lower(a)[i] == Lower(b)[i];
      }
    }
    if SameLetters(a, b) {
      forall i | 0 <= i < |a| ensures Lower(a)[i] == Lower(b)[i] {
      }
    }
  }

  lemma UpperIsSameLetters(a: string, b: string)
    ensures Upper(a) == Upper(b) <==> SameLetters(a, b)
  {
    if Upper(a) == Upper(b) {
      assert |Upper(a)| == |Upper(b)|;
      forall i | 0 <= i < |a| ensures a[i] == b[i] || SameLetter(a[i], b[i]) || SameLetter(b[i], a[i]) {
        assert Upper(a)[i] == Upper(b)[i];
      }
    }
    if SameLetters(a, b) {
      forall i | 0 <= i < |a| ensures Upper(a)[i] == Upper(b)[i] {
      }
    }
  }
}
