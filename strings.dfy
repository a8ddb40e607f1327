/** Text helpers for the generated GLSL source: decimal rendering of
    numbers used in identifiers (`buckets3`, `propertyTex0`, `arg2`) and
    JavaScript's `Array.prototype.join`. */
module Strings {

  /** The decimal digit character for `d`. */
  function DigitChar(d: nat): (c: char)
    requires d < 10
    ensures '0' <= c <= '9'
    ensures c as int - '0' as int == d
  {
    (('0' as int) + d) as char
  }

  /** Decimal text of a natural number, as JavaScript's template literals render it. */
  function NatToString(n: nat): (s: string)
    ensures 1 <= |s|
    ensures forall i :: 0 <= i < |s| ==> '0' <= s[i] <= '9'
    ensures |s| == 1 <==> n < 10
    decreases n
  {
    if n < 10 then [DigitChar(n)] else NatToString(n / 10) + [DigitChar(n % 10)]
  }

  /** Different numbers render differently, so names built from distinct
      counters never collide. */
  lemma {:induction false} NatToStringInjective(a: nat, b: nat)
    requires NatToString(a) == NatToString(b)
    ensures a == b
    decreases a
  {
    var s := NatToString(a);
    if a < 10 {
      assert b < 10;
      assert s[0] as int - '0' as int == a;
    } else {
      assert b >= 10;
      var pa, pb := NatToString(a / 10), NatToString(b / 10);
      assert s == pa + [DigitChar(a % 10)];
      assert s == pb + [DigitChar(b % 10)];
      assert s[|s| - 1] == DigitChar(a % 10) == DigitChar(b % 10);
      assert pa == s[..|s| - 1] == pb;
      NatToStringInjective(a / 10, b / 10);
    }
  }

  /** Appending the same prefix keeps distinct numbers distinct. */
  lemma PrefixedNamesDistinct(prefix: string, a: nat, b: nat)
    requires a != b
    ensures prefix + NatToString(a) != prefix + NatToString(b)
  {
    if prefix + NatToString(a) == prefix + NatToString(b) {
      assert NatToString(a) == (prefix + NatToString(a))[|prefix|..];
      assert NatToString(b) == (prefix + NatToString(b))[|prefix|..];
      NatToStringInjective(a, b);
    }
  }

  /** A numbered name followed by `(` is never the start of another
      numbered name followed by `(`: the `(` ends the number. */
  lemma {:induction false} NumberedCallsDistinct(prefix: string, a: nat, b: nat, rest: string)
    requires a != b
    ensures !(prefix + NatToString(b) + "(" <= prefix + NatToString(a) + "(" + rest)
  {
    var sa, sb := NatToString(a), NatToString(b);
    var x, y := prefix + sb + "(", prefix + sa + "(" + rest;
    var p := |prefix|;
    if |sb| < |sa| {
      assert x[p + |sb|] == '(' && y[p + |sb|] == sa[|sb|];
    } else if |sb| > |sa| {
      assert x[p + |sa|] == sb[|sa|] && y[p + |sa|] == '(';
    } else {
      if sb == sa {
        NatToStringInjective(a, b);
      }
      assert x[p..p + |sb|] == sb && y[p..p + |sb|] == sa;
    }
  }

  /** `parts.join(sep)`. */
  function Join(sep: string, parts: seq<string>): string
    decreases |parts|
  {
    if |parts| == 0 then ""
    else if |parts| == 1 then parts[0]
    else parts[0] + sep + Join(sep, parts[1..])
  }
}
