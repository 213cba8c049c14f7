/**
 * Decimal numerals and the two string operations the card builder performs on the
 * aspect-ratio text: splitting at ':' and replacing the first ':' (main.js:84, main.js:259).
 */
module Numerals {

  predicate IsDigit(c: char) {
    '0' <= c <= '9'
  }

  /** A non-empty run of decimal digits: the only field text the model reads as a number. */
  predicate IsNumeral(s: string) {
    |s| > 0 && forall i :: 0 <= i < |s| ==> IsDigit(s[i])
  }

  function DigitValue(c: char): (d: nat)
    requires IsDigit(c)
    ensures d < 10
  {
    c as int - '0' as int
  }

  function DigitChar(d: nat): (c: char)
    requires d < 10
    ensures IsDigit(c) && DigitValue(c) == d
  {
    ('0' as int + d) as char
  }

  /** The number a string of decimal digits denotes (what `Number` gives for it). */
  function Value(s: string): nat
    requires IsNumeral(s) || s == []
    decreases |s|
  {
    if s == [] then 0 else 10 * Value(s[..|s| - 1]) + DigitValue(s[|s| - 1])
  }

  /** The decimal text of `n` without leading zeros (what a template literal gives for it). */
  function Show(n: nat): (s: string)
    ensures IsNumeral(s)
    ensures ':' !in s
    ensures |s| > 1 ==> s[0] != '0'
    decreases n
  {
    if n < 10 then [DigitChar(n)] else Show(n / 10) + [DigitChar(n % 10)]
  }

  /** Reading back what `Show` writes gives the number again. */
  lemma {:induction false} ValueOfShow(n: nat)
    ensures Value(Show(n)) == n
    decreases n
  {
    if n >= 10 {
      var s := Show(n);
      assert s[..|s| - 1] == Show(n / 10);
      ValueOfShow(n / 10);
    }
  }

  /** Position of the first `c` in `s`, or `|s|` when there is none. */
  function IndexOf(s: string, c: char): (i: nat)
    ensures i <= |s|
    ensures i < |s| <==> c in s
    ensures i < |s| ==> s[i] == c
    ensures forall j :: 0 <= j < i ==> s[j] != c
  {
    if s == [] then 0 else if s[0] == c then 0 else 1 + IndexOf(s[1..], c)
  }

  /** `s.replace(c, d)` with a one-character pattern: only the first occurrence changes. */
  function ReplaceFirst(s: string, c: char, d: char): (r: string)
    ensures |r| == |s|
    ensures c !in s ==> r == s
    ensures c in s ==> r[IndexOf(s, c)] == d
    ensures forall k :: 0 <= k < |s| && k != IndexOf(s, c) ==> r[k] == s[k]
  {
    var i := IndexOf(s, c);
    if i == |s| then s else s[..i] + [d] + s[i + 1..]
  }

  /** Replacing the separator of `a + [c] + b`, where `a` holds no `c`, gives `a + [d] + b`. */
  lemma ReplaceFirstAfter(a: string, c: char, d: char, b: string)
    requires c !in a
    ensures IndexOf(a + [c] + b, c) == |a|
    ensures ReplaceFirst(a + [c] + b, c, d) == a + [d] + b
  {
    var s := a + [c] + b;
    var i := IndexOf(s, c);
    assert s[|a|] == c;
    assert i == |a|;
    assert s[..i] == a && s[i + 1..] == b;
  }
}
