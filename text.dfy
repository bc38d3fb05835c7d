/** Text helpers shared by the reports: Python's `str()` of integers, concatenation of the
    pieces a loop appends with `+=`, and the "Z" to "+00:00" rewrite of timestamps. */
module Text {

  predicate IsDigit(c: char) {
    '0' <= c <= '9'
  }

  predicate AllDigits(s: string) {
    forall k :: 0 <= k < |s| ==> IsDigit(s[k])
  }

  function DigitChar(d: nat): (c: char)
    requires d < 10
    ensures IsDigit(c) && (c as int) - ('0' as int) == d
  {
    (('0' as int) + d) as char
  }

  function DigitValue(c: char): (d: nat)
    requires IsDigit(c)
    ensures d < 10
  {
    (c as int) - ('0' as int)
  }

  /** Decimal rendering of a natural number, as Python's `str()` writes it: no leading zeros. */
  function NatToString(n: nat): (s: string)
    ensures |s| >= 1 && AllDigits(s)
    ensures |s| == 1 <==> n < 10
    ensures n > 0 ==> s[0] != '0'
    decreases n
  {
    if n < 10 then [DigitChar(n)] else NatToString(n / 10) + [DigitChar(n % 10)]
  }

  /** The number a string of decimal digits denotes (the reader's side of `NatToString`). */
  function DigitsValue(s: string): nat
    requires AllDigits(s)
  {
    if s == [] then 0 else DigitsValue(s[..|s| - 1]) * 10 + DigitValue(s[|s| - 1])
  }

  /** Reading back what `NatToString` writes gives the number written. */
  lemma {:induction false} NatToStringInverse(n: nat)
    ensures DigitsValue(NatToString(n)) == n
  {
    if n >= 10 {
      var p := NatToString(n / 10);
      var s := p + [DigitChar(n % 10)];
      assert s[..|s| - 1] == p;
      NatToStringInverse(n / 10);
    }
  }

  /** `NatToString` never writes the same text for two numbers. */
  lemma NatToStringInjective(m: nat, n: nat)
    requires NatToString(m) == NatToString(n)
    ensures m == n
  {
    NatToStringInverse(m);
    NatToStringInverse(n);
  }

  /** Python's `str()` of an integer: a minus sign before the magnitude when negative. */
  function IntToString(i: int): (s: string)
    ensures |s| >= 1
    ensures s[0] == '-' <==> i < 0
    ensures i >= 0 ==> s == NatToString(i)
  {
    if i < 0 then "-" + NatToString(-i) else NatToString(i)
  }

  predicate IsIntText(s: string) {
    if |s| > 0 && s[0] == '-' then AllDigits(s[1..]) else AllDigits(s)
  }

  /** The integer an optionally signed digit string denotes. */
  function ParseInt(s: string): int
    requires IsIntText(s)
  {
    if |s| > 0 && s[0] == '-' then -(DigitsValue(s[1..]) as int) else DigitsValue(s)
  }

  /** Reading back what `IntToString` writes gives the integer written. */
  lemma IntToStringInverse(i: int)
    ensures IsIntText(IntToString(i)) && ParseInt(IntToString(i)) == i
  {
    var s := IntToString(i);
    if i < 0 {
      assert s[1..] == NatToString(-i);
      NatToStringInverse(-i);
    } else {
      NatToStringInverse(i);
    }
  }

  /** How Python prints a `KeyError` on a string key: the key in single quotes. */
  function KeyErrorText(key: string): string {
    "'" + key + "'"
  }

  /** `+` on strings is associative. */
  lemma AppendAssoc(a: string, b: string, c: string)
    ensures (a + b) + c == a + (b + c)
  {
  }

  /** A string is a prefix of itself followed by anything. */
  lemma PrefixOfAppend(a: string, b: string)
    ensures a <= a + b
  {
    assert (a + b)[..|a|] == a;
  }

  /** A string is what remains of anything followed by it, once the front is dropped. */
  lemma SuffixOfAppend(a: string, b: string)
    ensures (a + b)[|a + b| - |b|..] == b
  {
  }

  /** Putting the same text in front keeps a prefix a prefix. */
  lemma PrefixUnderLead(lead: string, p: string, q: string)
    requires p <= q
    ensures lead + p <= lead + q
  {
    assert (lead + q)[..|lead + p|] == lead + q[..|p|];
  }

  /** After a common start, `note` is not found where the text is empty or has another first
      character. */
  lemma NotPrefixAfter(start: string, note: string, text: string)
    requires |note| > 0
    requires text == [] || note[0] != text[0]
    ensures !(start + note <= start + text)
  {
    if text != [] {
      assert (start + note)[|start|] != (start + text)[|start|];
    }
  }

  /** Python's `s.replace("Z", "+00:00")`: every "Z" becomes the UTC offset. */
  function ReplaceZ(s: string): (r: string)
    ensures 'Z' !in r
    ensures |r| >= |s|
  {
    if s == [] then []
    else (if s[0] == 'Z' then "+00:00" else [s[0]]) + ReplaceZ(s[1..])
  }

  /** The reverse rewrite: every "+00:00" becomes "Z" again. */
  function RestoreZ(r: string): string
    decreases |r|
  {
    if |r| >= 6 && r[..6] == "+00:00" then "Z" + RestoreZ(r[6..])
    else if r == [] then []
    else [r[0]] + RestoreZ(r[1..])
  }

  /** On text without a '+', the rewrite loses nothing: undoing it gives the original back. */
  lemma {:induction false} ReplaceZInverse(s: string)
    requires '+' !in s
    ensures RestoreZ(ReplaceZ(s)) == s
  {
    if s != [] {
      assert '+' !in s[1..] by {
        forall k | 0 <= k < |s[1..]| ensures s[1..][k] != '+' {
          assert s[1..][k] == s[k + 1];
        }
      }
      ReplaceZInverse(s[1..]);
      var rest := ReplaceZ(s[1..]);
      if s[0] == 'Z' {
        var r := "+00:00" + rest;
        assert r[..6] == "+00:00" && r[6..] == rest;
      } else {
        var r := [s[0]] + rest;
        assert r[0] == s[0] && r[1..] == rest;
        assert s == [s[0]] + s[1..];
      }
    }
  }

  /** Text without a "Z" is left as it is, however many '+' it holds. */
  lemma {:induction false} ReplaceZKeeps(s: string)
    requires 'Z' !in s
    ensures ReplaceZ(s) == s
  {
    if s != [] {
      assert 'Z' !in s[1..] by {
        forall k | 0 <= k < |s[1..]| ensures s[1..][k] != 'Z' {
          assert s[1..][k] == s[k + 1];
        }
      }
      ReplaceZKeeps(s[1..]);
      assert s == [s[0]] + s[1..];
    }
  }
}
