/**
 * Character classes and string helpers shared by the extractor's keyword
 * checks and regular-expression scanners. Strings are `seq<char>`.
 */
module Text {

  /** `\d` in a JavaScript regular expression. */
  predicate IsDigit(c: char)
  {
    '0' <= c <= '9'
  }

  /** `\w` in a JavaScript regular expression without the `u` flag. */
  predicate IsWordChar(c: char)
  {
    'a' <= c <= 'z' || 'A' <= c <= 'Z' || IsDigit(c) || c == '_'
  }

  /** `\s` in a JavaScript regular expression: white space and line terminators. */
  predicate IsSpace(c: char)
  {
    var n := c as int;
    n == 0x09 || n == 0x0A || n == 0x0B || n == 0x0C || n == 0x0D || n == 0x20
    || n == 0xA0 || n == 0x1680 || 0x2000 <= n <= 0x200A || n == 0x2028 || n == 0x2029
    || n == 0x202F || n == 0x205F || n == 0x3000 || n == 0xFEFF
  }

  function LowerChar(c: char): char
  {
    if 'A' <= c <= 'Z' then (c as int + 32) as char else c
  }

  /** `toLowerCase()` restricted to the ASCII letters. */
  function Lower(s: string): (r: string)
    ensures |r| == |s|
    ensures forall i :: 0 <= i < |s| ==> r[i] == LowerChar(s[i])
  {
    if s == [] then [] else [LowerChar(s[0])] + Lower(s[1..])
  }

  /** `w` occurs in `s` starting at index `i`, compared character by character from `w[k]` on. */
  predicate PrefixAt(s: string, i: int, w: string, k: int)
    requires 0 <= i && 0 <= k
    decreases |w| - k
  {
    k >= |w| || (i + k < |s| && s[i + k] == w[k] && PrefixAt(s, i, w, k + 1))
  }

  /** `w` occurs in `s` at index `i`. */
  predicate At(s: string, i: int, w: string)
    requires 0 <= i
  {
    PrefixAt(s, i, w, 0)
  }

  /** Some occurrence of `w` in `s` starts at or after index `i`. */
  predicate ContainsFrom(s: string, w: string, i: int)
    requires 0 <= i
    decreases |s| - i
  {
    i + |w| <= |s| && (At(s, i, w) || ContainsFrom(s, w, i + 1))
  }

  /** `s.includes(w)`. */
  predicate Contains(s: string, w: string)
  {
    ContainsFrom(s, w, 0)
  }

  /** A match of `w` at `i` fixes every character it covers. */
  lemma {:induction false} PrefixAtChar(s: string, i: int, w: string, k: int, m: int)
    requires 0 <= i && 0 <= k <= m < |w|
    ensures PrefixAt(s, i, w, k) ==> i + m < |s| && s[i + m] == w[m]
    decreases m - k
  {
    if k < m {
      PrefixAtChar(s, i, w, k + 1, m);
    }
  }

  /**
   * `w` does not occur in `s` at or after `i` when three consecutive
   * characters of `w`, from offset `d`, occur at no candidate position.
   */
  lemma {:induction false} AbsentByTrigram(s: string, w: string, d: int, i: int)
    requires 0 <= i && 0 <= d && d + 3 <= |w|
    requires forall k :: i + d <= k && k + |w| - d <= |s| ==>
      !(s[k] == w[d] && s[k + 1] == w[d + 1] && s[k + 2] == w[d + 2])
    ensures !ContainsFrom(s, w, i)
    decreases |s| - i
  {
    if i + |w| <= |s| {
      PrefixAtChar(s, i, w, 0, d);
      PrefixAtChar(s, i, w, 0, d + 1);
      PrefixAtChar(s, i, w, 0, d + 2);
      AbsentByTrigram(s, w, d, i + 1);
    }
  }

  /** `w` does not occur in `s` when one of its characters does not occur in `s`. */
  lemma {:induction false} AbsentByChar(s: string, w: string, m: int, i: int)
    requires 0 <= i && 0 <= m < |w| && forall k :: 0 <= k < |s| ==> s[k] != w[m]
    ensures !ContainsFrom(s, w, i)
    decreases |s| - i
  {
    if i + |w| <= |s| {
      PrefixAtChar(s, i, w, 0, m);
      AbsentByChar(s, w, m, i + 1);
    }
  }

  /** `w` occurs at `i` when each of its characters stands at its offset from `i`. */
  lemma {:induction false} AtByChars(s: string, i: int, w: string, k: int)
    requires 0 <= i && 0 <= k <= |w| && i + |w| <= |s|
    requires forall m :: k <= m < |w| ==> s[i + m] == w[m]
    ensures PrefixAt(s, i, w, k)
    decreases |w| - k
  {
    if k < |w| {
      AtByChars(s, i, w, k + 1);
    }
  }

  /** A match of `w` at `p` is found by a scan that starts at or before `p`. */
  lemma {:induction false} PresentAt(s: string, w: string, i: int, p: int)
    requires 0 <= i <= p && p + |w| <= |s| && At(s, p, w)
    ensures ContainsFrom(s, w, i)
    decreases p - i
  {
    if i < p {
      PresentAt(s, w, i + 1, p);
    }
  }

  /** Lower-casing a string gives `r` when it gives `r`'s characters one by one. */
  lemma LowerIs(s: string, r: string)
    requires |s| == |r| && forall k :: 0 <= k < |s| ==> LowerChar(s[k]) == r[k]
    ensures Lower(s) == r
  {
  }

  /** The index of the first character at or after `i` that is not `\s` (`i` itself when past the end). */
  function SkipSpaces(s: string, i: int): (j: int)
    requires 0 <= i
    ensures i <= j
    ensures j <= |s| || j == i
    ensures forall k | i <= k < j :: IsSpace(s[k])
    ensures j < |s| ==> !IsSpace(s[j])
    decreases |s| - i
  {
    if i < |s| && IsSpace(s[i]) then SkipSpaces(s, i + 1) else i
  }

  /** The length of the run of digits at `i`, capped at 2: what greedy `\d{1,2}` consumes. */
  function DigitRun(s: string, i: nat): (n: nat)
    ensures n <= 2 && (n == 0 || i + n <= |s|)
    ensures forall k :: i <= k < i + n ==> IsDigit(s[k])
    ensures n == 1 ==> i + 1 >= |s| || !IsDigit(s[i + 1])
    ensures n == 0 ==> i >= |s| || !IsDigit(s[i])
  {
    if i < |s| && IsDigit(s[i]) then
      (if i + 1 < |s| && IsDigit(s[i + 1]) then 2 else 1)
    else 0
  }

  /** `parseInt` of a string of decimal digits. */
  function ParseDigits(d: string): (v: nat)
    requires forall k :: 0 <= k < |d| ==> IsDigit(d[k])
    ensures |d| <= 1 ==> v < 10
    ensures |d| <= 2 ==> v < 100
    decreases |d|
  {
    if d == [] then 0
    else
      assert IsDigit(d[|d| - 1]);
      ParseDigits(d[..|d| - 1]) * 10 + (d[|d| - 1] as int - '0' as int)
  }
}
