/** The decimal rendering of integers, as Python's str(int) produces it for status-code labels,
    together with its parser, which is the partner the round trip is proved against. */
module Decimal {

  predicate IsDigit(c: char) {
    '0' <= c <= '9'
  }

  predicate AllDigits(s: string) {
    forall i :: 0 <= i < |s| ==> IsDigit(s[i])
  }

  function DigitChar(d: nat): (c: char)
    requires d < 10
    ensures IsDigit(c) && c as int - '0' as int == d
  {
    ('0' as int + d) as char
  }

  /** Canonical decimal digits of n: never empty, digits only, no leading zero except for "0" itself. */
  function FromNat(n: nat): (s: string)
    ensures |s| >= 1 && AllDigits(s)
    ensures s[0] == '0' <==> n == 0
    decreases n
  {
    if n < 10 then [DigitChar(n)] else FromNat(n / 10) + [DigitChar(n % 10)]
  }

  /** Python's str(i): a minus sign followed by the digits of |i| for negative i. */
  function FromInt(i: int): (s: string)
    ensures |s| >= 1
    ensures s[0] == '-' <==> i < 0
    ensures i >= 0 ==> AllDigits(s)
  {
    if i < 0 then "-" + FromNat(-i) else FromNat(i)
  }

  /** Value of a string of decimal digits. */
  function ParseNat(s: string): (n: nat)
    requires AllDigits(s)
    decreases |s|
  {
    if s == [] then 0 else ParseNat(s[..|s| - 1]) * 10 + (s[|s| - 1] as int - '0' as int)
  }

  /** Inverse of FromInt on its image: an optional minus sign followed by digits. */
  function ParseInt(s: string): (r: int)
    requires |s| >= 1 && (if s[0] == '-' then AllDigits(s[1..]) else AllDigits(s))
  {
    if s[0] == '-' then -(ParseNat(s[1..]) as int) else ParseNat(s) as int
  }

  lemma {:induction false} ParseFromNat(n: nat)
    ensures ParseNat(FromNat(n)) == n
    decreases n
  {
    var s := FromNat(n);
    if n < 10 {
      assert s[..|s| - 1] == [];
    } else {
      ParseFromNat(n / 10);
      assert s[..|s| - 1] == FromNat(n / 10);
    }
  }

  lemma ParseFromInt(i: int)
    ensures var s := FromInt(i); (if s[0] == '-' then AllDigits(s[1..]) else AllDigits(s)) && ParseInt(s) == i
  {
    var s := FromInt(i);
    if i < 0 {
      assert s[1..] == FromNat(-i);
      ParseFromNat(-i);
    } else {
      ParseFromNat(i);
    }
  }

  /** Distinct status codes never share a label. */
  lemma FromIntInjective(a: int, b: int)
    ensures FromInt(a) == FromInt(b) <==> a == b
  {
    ParseFromInt(a);
    ParseFromInt(b);
  }

  /** The label "422" is produced by exactly one status code. */
  lemma Is422Iff(code: int)
    ensures FromInt(code) == "422" <==> code == 422
  {
    assert FromNat(4) == "4";
    assert FromNat(42) == "42";
    assert FromInt(422) == "422";
    FromIntInjective(code, 422);
  }

  /** A rendered code begins with a digit or a minus sign, so it is never a word label such as "in_progress". */
  lemma FromIntNotWord(code: int, word: string)
    requires |word| >= 1 && word[0] != '-' && !IsDigit(word[0])
    ensures FromInt(code) != word
  {
  }
}
