/** Decimal printing (`std::to_string`, `operator<<`) and reading (`stoi`, `operator>>`) of integers. */
module Decimal {
  import opened Common

  predicate IsDigit(c: char) { '0' <= c <= '9' }

  ghost predicate AllDigits(s: string) {
    forall i :: 0 <= i < |s| ==> IsDigit(s[i])
  }

  function Digits(n: nat): (s: string)
    ensures |s| >= 1 && AllDigits(s)
  {
    if n < 10 then [('0' as int + n) as char] else Digits(n / 10) + [('0' as int + n % 10) as char]
  }

  function Value(s: string): nat
    requires AllDigits(s)
  {
    if s == [] then 0 else 10 * Value(s[..|s| - 1]) + (s[|s| - 1] as int - '0' as int)
  }

  /** The length of the longest prefix of digits. */
  function DigitRun(s: string): (k: nat)
    ensures k <= |s| && AllDigits(s[..k]) && (k < |s| ==> !IsDigit(s[k]))
  {
    if s == [] || !IsDigit(s[0]) then 0 else 1 + DigitRun(s[1..])
  }

  function Print(i: int): (s: string) {
    if i < 0 then "-" + Digits(-i) else Digits(i)
  }

  /** Reads an optional minus sign and the digits after it; whatever follows is left unread. */
  function Parse(s: string): Option<int> {
    if s != [] && s[0] == '-' then
      var k := DigitRun(s[1..]);
      if k == 0 then None else Some(0 - Value(s[1..][..k]))
    else
      var k := DigitRun(s);
      if k == 0 then None else Some(Value(s[..k]))
  }

  lemma {:induction false} ValueOfDigits(n: nat)
    ensures Value(Digits(n)) == n
  {
    if n >= 10 {
      ValueOfDigits(n / 10);
      var s := Digits(n);
      assert s[..|s| - 1] == Digits(n / 10);
    }
  }

  lemma {:induction false} DigitRunOfDigits(s: string)
    requires AllDigits(s)
    ensures DigitRun(s) == |s|
  {
    if s != [] {
      assert AllDigits(s[1..]);
      DigitRunOfDigits(s[1..]);
    }
  }

  /** What is printed is read back unchanged. */
  lemma ParsePrint(i: int)
    ensures Parse(Print(i)) == Some(i)
  {
    var n := if i < 0 then -i else i;
    var s := Digits(n);
    ValueOfDigits(n);
    DigitRunOfDigits(s);
    assert s[..|s|] == s;
    if i < 0 {
      assert Print(i)[1..] == s;
    } else {
      assert IsDigit(s[0]);
    }
  }

  /** A printed number is one word: it contains only digits and a minus sign. */
  lemma PrintedChars(i: int)
    ensures Print(i) != []
    ensures forall k :: 0 <= k < |Print(i)| ==> Print(i)[k] == '-' || IsDigit(Print(i)[k])
  {
  }

  lemma {:induction false} NoLeadingZero(n: nat)
    ensures Digits(n)[0] == '0' ==> n == 0
    ensures n < 10 ==> |Digits(n)| == 1
  {
    if n >= 10 {
      NoLeadingZero(n / 10);
    }
  }

  /** A number is printed in one way only: the minus sign for negative numbers, and no leading zero. */
  lemma PrintIsPlain(i: int)
    ensures Print(i)[0] == '-' <==> i < 0
    ensures Print(i)[0] == '0' <==> i == 0
    ensures i == 0 ==> Print(i) == "0"
    ensures i < 0 ==> Print(i) == "-" + Print(-i)
  {
    if i >= 0 {
      NoLeadingZero(i);
      assert IsDigit(Digits(i)[0]);
    }
  }
}
