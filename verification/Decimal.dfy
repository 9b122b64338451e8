/** Decimal printing of integers, as the format strings of the bidder do it. */
module Decimal {
  import opened Common

  predicate IsDigit(c: char) { '0' <= c <= '9' }

  function Digit(d: nat): (c: char)
    requires d < 10
    ensures IsDigit(c) && c as int - '0' as int == d
  {
    ('0' as int + d) as char
  }

  function Digits(n: nat): string {
    if n < 10 then [Digit(n)] else Digits(n / 10) + [Digit(n % 10)]
  }

  /** The number a non-empty string of digits denotes. */
  function Parse(s: string): Option<nat> {
    if s == [] || !IsDigit(s[|s| - 1]) then None
    else
      var d := s[|s| - 1] as int - '0' as int;
      if |s| == 1 then Some(d)
      else
        match Parse(s[..|s| - 1])
        case None => None
        case Some(high) => Some(high * 10 + d)
  }

  lemma {:induction false} ParseDigits(n: nat)
    ensures Digits(n) != "" && forall c :: c in Digits(n) ==> IsDigit(c)
    ensures Parse(Digits(n)) == Some(n)
  {
    if n >= 10 {
      ParseDigits(n / 10);
      var s := Digits(n);
      assert s[..|s| - 1] == Digits(n / 10);
    }
  }

  function SignedDigits(i: int): string {
    if i < 0 then "-" + Digits(-i) else Digits(i)
  }

  function ParseSigned(s: string): Option<int> {
    if s != "" && s[0] == '-' then
      match Parse(s[1..])
      case None => None
      case Some(n) => Some(0 - n)
    else
      match Parse(s)
      case None => None
      case Some(n) => Some(n)
  }

  lemma ParseSignedDigits(i: int)
    ensures ParseSigned(SignedDigits(i)) == Some(i)
    ensures forall c :: c in SignedDigits(i) ==> IsDigit(c) || c == '-'
    ensures i >= 0 ==> SignedDigits(i) == Digits(i)
  {
    ParseDigits(if i < 0 then -i else i);
    if i < 0 {
      assert SignedDigits(i)[1..] == Digits(-i);
    } else {
      assert Digits(i)[0] in Digits(i);
    }
  }

  /** The text after the last separator, and the text before it, are determined. */
  lemma SplitAtLast(x: string, d: string, y: string, e: string, sep: char)
    requires sep !in d && sep !in e && x + [sep] + d == y + [sep] + e
    ensures x == y && d == e
  {
    var s := x + [sep] + d;
    assert s[|x|] == sep && (y + [sep] + e)[|y|] == sep;
    assert forall k :: |x| < k < |s| ==> s[k] == d[k - |x| - 1];
    assert forall k :: |y| < k < |s| ==> s[k] == e[k - |y| - 1];
    assert s[..|x|] == x && s[..|y|] == y && s[|x| + 1..] == d && s[|y| + 1..] == e;
  }
}
