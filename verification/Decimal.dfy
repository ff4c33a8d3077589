// Decimal numbers as the source prints and reads them: %d, strconv.ParseInt(s, 10, 64) and
// fmt.Sscanf with %d.
module Decimal {
  import opened Prelude
  import opened Text

  const INT64_MIN := -0x8000_0000_0000_0000
  const INT64_MAX := 0x7FFF_FFFF_FFFF_FFFF

  predicate IsInt64(n: int) {
    INT64_MIN <= n <= INT64_MAX
  }

  predicate IsDigit(c: char) {
    '0' <= c <= '9'
  }

  predicate AllDigits(s: string) {
    forall i :: 0 <= i < |s| ==> IsDigit(s[i])
  }

  function Digit(d: nat): (c: char)
    requires d < 10
    ensures IsDigit(c)
  {
    ('0' as int + d) as char
  }

  function Digits(n: nat): (s: string)
    ensures s != "" && AllDigits(s)
  {
    if n < 10 then [Digit(n)] else Digits(n / 10) + [Digit(n % 10)]
  }

  function Value(s: string): nat
    requires AllDigits(s)
  {
    if s == "" then 0 else Value(s[..|s| - 1]) * 10 + (s[|s| - 1] as int - '0' as int)
  }

  lemma {:induction false} ValueOfDigits(n: nat)
    ensures Value(Digits(n)) == n
  {
    if n < 10 {
      assert Digits(n)[..0] == "";
    } else {
      ValueOfDigits(n / 10);
      assert Digits(n)[..|Digits(n)| - 1] == Digits(n / 10);
    }
  }

  function Format(n: int): string {
    if n < 0 then "-" + Digits(-n) else Digits(n)
  }

  // An optional sign, then digits to the end.
  function Signed(s: string): Option<int> {
    var digits := if s != "" && s[0] in "+-" then s[1..] else s;
    if digits == "" || !AllDigits(digits) then None
    else if s[0] == '-' then Some(0 - Value(digits))
    else Some(Value(digits))
  }

  function ParseInt(s: string): Option<int> {
    var n := Signed(s);
    if n.Some? && IsInt64(n.value) then n else None
  }

  lemma SignedFormat(n: int)
    ensures Signed(Format(n)) == Some(n)
  {
    hide Value, Digits;
    ValueOfDigits(if n < 0 then -n else n);
    if n < 0 {
      assert Format(n)[1..] == Digits(-n);
    }
  }

  lemma ParseFormat(n: int)
    requires IsInt64(n)
    ensures ParseInt(Format(n)) == Some(n)
  {
    SignedFormat(n);
  }

  function DigitPrefix(s: string): (k: nat)
    ensures k <= |s| && AllDigits(s[..k]) && (k < |s| ==> !IsDigit(s[k]))
  {
    if s == "" || !IsDigit(s[0]) then 0
    else
      var k := 1 + DigitPrefix(s[1..]);
      assert forall i :: 1 <= i < k ==> s[i] == s[1..][i - 1];
      k
  }

  // Space before a number is skipped; a line break there is an error.
  function SkipSpaces(s: string): string {
    if s != "" && IsSpace(s[0]) && s[0] != '\n' then SkipSpaces(s[1..]) else s
  }

  // Sscanf reads a number and ignores what follows it.
  function Scan(s: string): Option<int> {
    var t := SkipSpaces(s);
    var signed := t != "" && t[0] in "+-";
    var u := if signed then t[1..] else t;
    var k := DigitPrefix(u);
    if k == 0 then None else ParseInt(t[..k + if signed then 1 else 0])
  }

  lemma ScanFormat(n: int)
    requires IsInt64(n)
    ensures Scan(Format(n)) == Some(n)
  {
    hide Value, Digits;
    ParseFormat(n);
    var s := Format(n);
    var digits := Digits(if n < 0 then -n else n);
    assert s == (if n < 0 then "-" else "") + digits;
    assert (if n < 0 then s[1..] else s) == digits;
    assert DigitPrefix(digits) == |digits|;
    assert s[..|s|] == s;
  }

  lemma FormatHasNoOther(n: int, c: char)
    requires !IsDigit(c) && c != '-'
    ensures c !in Format(n)
  {
  }

  lemma FormatInjective(m: int, n: int)
    requires Format(m) == Format(n)
    ensures m == n
  {
    SignedFormat(m);
    SignedFormat(n);
  }
}
