/** String operations of the ECMAScript runtime that the application relies on: white space and
    `trim`, `includes` / `indexOf`, insertion, and the decimal text of an integer (`${n}`). */
module Text {
  import opened Common

  /** The characters ECMAScript counts as white space or line terminators: exactly what
      `String.prototype.trim` strips and what the regular-expression class `\s` matches. */
  predicate IsWhitespace(c: char) {
    || c == ' ' || c == '\t' || c == '\n' || c == '\r'
    || c == '\U{000B}' || c == '\U{000C}' || c == '\U{00A0}' || c == '\U{1680}'
    || ('\U{2000}' <= c <= '\U{200A}')
    || c == '\U{2028}' || c == '\U{2029}' || c == '\U{202F}' || c == '\U{205F}'
    || c == '\U{3000}' || c == '\U{FEFF}'
  }

  /** The line terminators: the characters the regular-expression wildcard `.` does not match. */
  predicate IsLineTerminator(c: char) {
    c == '\n' || c == '\r' || c == '\U{2028}' || c == '\U{2029}'
  }

  /** Every character of `s` is white space (the empty string included). */
  predicate IsBlank(s: string) {
    forall i :: 0 <= i < |s| ==> IsWhitespace(s[i])
  }

  /** The first index at or after `i` that is not white space, or the end of `s`: where `\s*`
      starting at `i` stops. */
  function SkipWhitespace(s: string, i: nat): (j: nat)
    requires i <= |s|
    ensures i <= j <= |s| && (j < |s| ==> !IsWhitespace(s[j]))
    ensures forall k :: i <= k < j ==> IsWhitespace(s[k])
    decreases |s| - i
  {
    if i < |s| && IsWhitespace(s[i]) then SkipWhitespace(s, i + 1) else i
  }

  /** The last index at or before `j` not preceded by white space, or 0. */
  function BackWhitespace(s: string, j: nat): (i: nat)
    requires j <= |s|
    ensures i <= j && (i > 0 ==> !IsWhitespace(s[i - 1]))
    ensures forall k :: i <= k < j ==> IsWhitespace(s[k])
    decreases j
  {
    if j > 0 && IsWhitespace(s[j - 1]) then BackWhitespace(s, j - 1) else j
  }

  /** `s` with its leading white space removed. */
  function TrimStart(s: string): (r: string)
    ensures |r| <= |s| && r == s[|s| - |r|..]
    ensures IsBlank(s[..|s| - |r|])
    ensures r == [] || !IsWhitespace(r[0])
    ensures r == [] <==> IsBlank(s)
  {
    var j := SkipWhitespace(s, 0);
    assert forall k :: 0 <= k < j ==> s[..j][k] == s[k];
    s[j..]
  }

  /** `s` with its trailing white space removed. */
  function TrimEnd(s: string): (r: string)
    ensures |r| <= |s| && r == s[..|r|]
    ensures IsBlank(s[|r|..])
    ensures r == [] || !IsWhitespace(r[|r| - 1])
    ensures r == [] <==> IsBlank(s)
  {
    var i := BackWhitespace(s, |s|);
    assert forall k :: 0 <= k < |s| - i ==> s[i..][k] == s[i + k];
    s[..i]
  }

  /** `String.prototype.trim`: `s` without its leading and its trailing white space. */
  function Trim(s: string): (r: string)
    ensures |r| <= |s|
    ensures r == [] <==> IsBlank(s)
    ensures r == [] || (!IsWhitespace(r[0]) && !IsWhitespace(r[|r| - 1]))
    ensures exists i :: 0 <= i <= |s| - |r| && r == s[i..i + |r|] && IsBlank(s[..i]) && IsBlank(s[i + |r|..])
  {
    var t := TrimStart(s);
    assert t == [] || t[..1] == [t[0]];
    var r := TrimEnd(t);
    var i := |s| - |t|;
    assert t == s[i..];
    assert r == s[i..i + |r|];
    assert s[i + |r|..] == t[|r|..];
    r
  }

  /** Trimming is idempotent. */
  lemma TrimIdempotent(s: string)
    ensures Trim(Trim(s)) == Trim(s)
  {
    var r := Trim(s);
    assert SkipWhitespace(r, 0) == 0 by {
      if r != [] { assert !IsWhitespace(r[0]); }
    }
    assert r[0..] == r;
    assert TrimStart(r) == r;
    assert BackWhitespace(r, |r|) == |r| by {
      if r != [] { assert !IsWhitespace(r[|r| - 1]); }
    }
    assert r[..|r|] == r;
    assert TrimEnd(r) == r;
  }

  /** `w` occurs in `s` starting at index `i`. */
  predicate OccursAt(s: string, i: int, w: string) {
    0 <= i && i + |w| <= |s| && s[i..i + |w|] == w
  }

  /** The first index at or after `k` where `w` occurs in `s`, if any. */
  function IndexFrom(s: string, w: string, k: nat): (r: Option<nat>)
    requires k <= |s|
    ensures r.Some? ==> k <= r.value && OccursAt(s, r.value, w)
    ensures r.Some? ==> forall j :: k <= j < r.value ==> !OccursAt(s, j, w)
    ensures r.None? ==> forall j :: k <= j ==> !OccursAt(s, j, w)
    decreases |s| - k
  {
    if k + |w| > |s| then None
    else if s[k..k + |w|] == w then Some(k)
    else IndexFrom(s, w, k + 1)
  }

  /** `String.prototype.indexOf`: the first index where `w` occurs in `s`, if any. */
  function IndexOf(s: string, w: string): Option<nat> {
    IndexFrom(s, w, 0)
  }

  /** `String.prototype.includes`. */
  predicate Contains(s: string, w: string) {
    IndexOf(s, w).Some?
  }

  /** An occurrence at any index makes `Contains` true. */
  lemma OccursContains(s: string, i: int, w: string)
    requires OccursAt(s, i, w)
    ensures Contains(s, w)
  {
  }

  /** A string contains every piece it is concatenated from. */
  lemma ContainsPiece(a: string, w: string, b: string)
    ensures Contains(a + w + b, w)
  {
    assert (a + w + b)[|a|..|a| + |w|] == w;
    OccursContains(a + w + b, |a|, w);
  }

  /** Containment is transitive. */
  lemma ContainsTransitive(s: string, m: string, w: string)
    requires Contains(s, m) && Contains(m, w)
    ensures Contains(s, w)
  {
    var i := IndexOf(s, m).value;
    var j := IndexOf(m, w).value;
    assert s[i..i + |m|] == m && m[j..j + |w|] == w;
    forall k | 0 <= k < |w|
      ensures s[i + j + k] == w[k]
    {
      assert s[i + j + k] == s[i..i + |m|][j + k];
      assert w[k] == m[j..j + |w|][k];
    }
    assert s[i + j..i + j + |w|] == w;
    OccursContains(s, i + j, w);
  }

  /** `t` inserted into `s` just before index `k`. */
  function InsertAt(s: string, k: nat, t: string): (r: string)
    requires k <= |s|
    ensures |r| == |s| + |t| && r[..k] == s[..k] && r[k..k + |t|] == t && r[k + |t|..] == s[k..]
  {
    s[..k] + t + s[k..]
  }

  /** A decimal digit character. */
  predicate IsDigit(c: char) {
    '0' <= c <= '9'
  }

  /** The character of the decimal digit `d`. */
  function DigitChar(d: nat): (c: char)
    requires d < 10
    ensures IsDigit(c)
  {
    ('0' as int + d) as char
  }

  /** The value of a decimal digit character. */
  function DigitValue(c: char): (d: nat)
    requires IsDigit(c)
    ensures d < 10 && DigitChar(d) == c
  {
    c as int - '0' as int
  }

  /** Every character of `s` is a decimal digit. */
  predicate AllDigits(s: string) {
    forall i :: 0 <= i < |s| ==> IsDigit(s[i])
  }

  /** The value of a string of decimal digits. */
  function DigitsValue(s: string): nat
    requires AllDigits(s)
  {
    if s == [] then 0 else DigitsValue(s[..|s| - 1]) * 10 + DigitValue(s[|s| - 1])
  }

  /** The decimal text of a natural number, as ECMAScript prints it: no leading zeros. */
  function NatText(n: nat): (r: string)
    ensures |r| >= 1 && AllDigits(r)
    ensures r[0] == '0' ==> n == 0 && r == "0"
    decreases n
  {
    if n < 10 then [DigitChar(n)] else NatText(n / 10) + [DigitChar(n % 10)]
  }

  /** Reading the decimal text back gives the number. */
  lemma {:induction false} NatTextValue(n: nat)
    ensures DigitsValue(NatText(n)) == n
    decreases n
  {
    if n >= 10 {
      NatTextValue(n / 10);
      var t := NatText(n);
      assert t[..|t| - 1] == NatText(n / 10);
    }
  }

  /** The decimal text of an integer, `${n}` in a template literal. */
  function IntText(n: int): string {
    if n < 0 then "-" + NatText(-n) else NatText(n)
  }

  /** Different natural numbers have different decimal texts. */
  lemma NatTextInjective(a: nat, b: nat)
    requires NatText(a) == NatText(b)
    ensures a == b
  {
    NatTextValue(a);
    NatTextValue(b);
  }

  /** The text of an integer starts with a minus sign exactly when the integer is negative. */
  lemma IntTextSign(n: int)
    ensures |IntText(n)| >= 1 && (IntText(n)[0] == '-' <==> n < 0)
  {
    if n >= 0 {
      assert IsDigit(NatText(n)[0]);
    }
  }

  /** Different integers have different decimal texts, so a rendered count determines the count. */
  lemma {:induction false} IntTextInjective(a: int, b: int)
    requires IntText(a) == IntText(b)
    ensures a == b
  {
    IntTextSign(a);
    IntTextSign(b);
    if a < 0 {
      var ta, tb := NatText(-a), NatText(-b);
      assert ("-" + ta)[1..] == ta && ("-" + tb)[1..] == tb;
      NatTextInjective(-a, -b);
    } else {
      NatTextInjective(a, b);
    }
  }
}
