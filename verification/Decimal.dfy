/** Decimal rendering, as template strings and String() give it, and its inverse. */
module Decimal {

  predicate IsDigit(c: char) {
    '0' <= c <= '9'
  }

  predicate AllDigits(s: string) {
    forall i :: 0 <= i < |s| ==> IsDigit(s[i])
  }

  function Digit(d: nat): char
    requires d < 10
  {
    ('0' as int + d) as char
  }

  function ToDecimal(n: nat): (s: string)
    ensures s != [] && AllDigits(s)
  {
    if n < 10 then [Digit(n)] else ToDecimal(n / 10) + [Digit(n % 10)]
  }

  function FromDecimal(s: string): nat
    requires AllDigits(s)
  {
    if s == [] then 0
    else FromDecimal(s[..|s| - 1]) * 10 + (s[|s| - 1] as int - '0' as int)
  }

  lemma {:induction false} DecimalRoundTrip(n: nat)
    ensures FromDecimal(ToDecimal(n)) == n
  {
    if n >= 10 {
      DecimalRoundTrip(n / 10);
      var s := ToDecimal(n);
      assert s[..|s| - 1] == ToDecimal(n / 10);
    } else {
      assert ToDecimal(n)[..0] == [];
    }
  }

  /** `${text}${separator}${n}` determines text and n, even when the text contains the separator. */
  lemma SuffixedInjective(text: string, n: nat, text': string, n': nat, separator: char)
    requires !IsDigit(separator)
    requires text + [separator] + ToDecimal(n) == text' + [separator] + ToDecimal(n')
    ensures text == text' && n == n'
  {
    var s, a, b := text + [separator] + ToDecimal(n), ToDecimal(n), ToDecimal(n');
    assert s[|s| - |a| - 1] == separator && s[|s| - |b| - 1] == separator;
    assert forall k :: |s| - |a| <= k < |s| ==> s[k] == a[k - (|s| - |a|)];
    assert forall k :: |s| - |b| <= k < |s| ==> s[k] == b[k - (|s| - |b|)];
    assert a == s[|s| - |a|..] && b == s[|s| - |b|..];
    DecimalRoundTrip(n);
    DecimalRoundTrip(n');
    assert text == s[..|s| - |a| - 1] && text' == s[..|s| - |b| - 1];
  }
}
