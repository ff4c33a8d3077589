// Go strings as bytes, and what ranging over one yields: the Unicode scalar values of the
// UTF-8 text, with U+FFFD standing for every byte that starts no valid sequence.
module Utf8 {
  type Byte = b: int | 0 <= b < 256

  type Bytes = seq<Byte>

  const REPLACEMENT := '\U{FFFD}'

  function EncodeChar(c: char): (b: Bytes)
    ensures 1 <= |b| <= 4
  {
    var r := c as int;
    var q := r / 0x40;
    var p := q / 0x40;
    if r < 0x80 then [r]
    else if r < 0x800 then [0xC0 + q, 0x80 + r % 0x40]
    else if r < 0x10000 then [0xE0 + p, 0x80 + q % 0x40, 0x80 + r % 0x40]
    else [0xF0 + p / 0x40, 0x80 + p % 0x40, 0x80 + q % 0x40, 0x80 + r % 0x40]
  }

  function Encode(s: string): Bytes {
    if s == "" then [] else EncodeChar(s[0]) + Encode(s[1..])
  }

  // Bytes read one by one as characters: what a scanner of ASCII sees.
  function Chars(b: Bytes): (s: string) {
    seq(|b|, i requires 0 <= i < |b| => b[i] as char)
  }

  predicate Continues(b: Bytes, i: nat, low: int, high: int) {
    i < |b| && low <= b[i] <= high
  }

  function Low(b: Bytes, i: nat): int
    requires i < |b|
  {
    b[i] as int - 0x80
  }

  // One step of a range loop: the scalar value and how many bytes it takes.
  function DecodeChar(b: Bytes): (r: (char, nat))
    requires b != []
    ensures 1 <= r.1 <= |b|
  {
    var b0: int := b[0];
    if b0 < 0x80 then (b0 as char, 1)
    else if 0xC2 <= b0 <= 0xDF && Continues(b, 1, 0x80, 0xBF) then
      (((b0 - 0xC0) * 0x40 + Low(b, 1)) as char, 2)
    else if 0xE0 <= b0 <= 0xEF
            && Continues(b, 1, if b0 == 0xE0 then 0xA0 else 0x80, if b0 == 0xED then 0x9F else 0xBF)
            && Continues(b, 2, 0x80, 0xBF) then
      ((((b0 - 0xE0) * 0x40 + Low(b, 1)) * 0x40 + Low(b, 2)) as char, 3)
    else if 0xF0 <= b0 <= 0xF4
            && Continues(b, 1, if b0 == 0xF0 then 0x90 else 0x80, if b0 == 0xF4 then 0x8F else 0xBF)
            && Continues(b, 2, 0x80, 0xBF) && Continues(b, 3, 0x80, 0xBF) then
      (((((b0 - 0xF0) * 0x40 + Low(b, 1)) * 0x40 + Low(b, 2)) * 0x40 + Low(b, 3)) as char, 4)
    else (REPLACEMENT, 1)
  }

  // The values a range loop over b yields.
  function Runes(b: Bytes): string
    decreases |b|
  {
    if b == [] then "" else var (c, n) := DecodeChar(b); [c] + Runes(b[n..])
  }

  predicate ValidUtf8(b: Bytes) {
    Encode(Runes(b)) == b
  }

  function Truncate(b: Bytes, n: nat): Bytes {
    if |b| <= n then b else b[..n]
  }

  lemma DecodeEncodeChar(c: char, rest: Bytes)
    ensures DecodeChar(EncodeChar(c) + rest) == (c, |EncodeChar(c)|)
  {
    var r := c as int;
    var b := EncodeChar(c) + rest;
    assert b[0] == EncodeChar(c)[0];
    if r >= 0x80 {
      assert b[1] == EncodeChar(c)[1];
    }
    if r >= 0x800 {
      assert b[2] == EncodeChar(c)[2];
    }
    if r >= 0x10000 {
      assert b[3] == EncodeChar(c)[3];
    }
  }

  lemma RunesStep(c: char, rest: Bytes)
    ensures Runes(EncodeChar(c) + rest) == [c] + Runes(rest)
  {
    DecodeEncodeChar(c, rest);
    assert (EncodeChar(c) + rest)[|EncodeChar(c)|..] == rest;
  }

  // Text comes back from its encoding, whatever bytes follow it.
  lemma {:induction false} RunesEncode(s: string, rest: Bytes)
    ensures Runes(Encode(s) + rest) == s + Runes(rest)
  {
    hide EncodeChar, DecodeChar;
    if s == "" {
      assert Encode(s) + rest == rest;
    } else {
      RunesEncode(s[1..], rest);
      RunesStep(s[0], Encode(s[1..]) + rest);
      assert Encode(s) + rest == EncodeChar(s[0]) + (Encode(s[1..]) + rest);
    }
  }

  lemma RunesOfEncoded(s: string)
    ensures Runes(Encode(s)) == s
  {
    RunesEncode(s, []);
    assert Encode(s) + [] == Encode(s);
    assert s + Runes([]) == s;
  }

  function Replacements(n: nat): string {
    seq(n, _ => REPLACEMENT)
  }

  // A proper prefix of one encoded character, cut further from the left, decodes to one
  // U+FFFD per byte.
  lemma {:induction false} RunesCutChar(c: char, m: nat, n: nat)
    requires m <= n < |EncodeChar(c)|
    ensures Runes(EncodeChar(c)[m..n]) == Replacements(n - m)
    decreases n - m
  {
    if m < n {
      RunesCutChar(c, m + 1, n);
      var b := EncodeChar(c)[m..n];
      assert b[0] == EncodeChar(c)[m];
      assert DecodeChar(b) == (REPLACEMENT, 1);
      assert b[1..] == EncodeChar(c)[m + 1..n];
    }
  }

  // How many whole characters of s fit in n bytes.
  function Fitting(s: string, n: nat): (k: nat)
    ensures k <= |s|
  {
    if s == "" || |EncodeChar(s[0])| > n then 0 else 1 + Fitting(s[1..], n - |EncodeChar(s[0])|)
  }

  lemma {:induction false} EncodeAppend(s: string, t: string)
    ensures Encode(s + t) == Encode(s) + Encode(t)
  {
    if s == "" {
      assert s + t == t;
    } else {
      assert (s + t)[1..] == s[1..] + t;
      EncodeAppend(s[1..], t);
    }
  }

  // Cutting encoded text at n bytes keeps the whole characters that fit and turns each of
  // the at most three bytes left of the next one into U+FFFD.
  lemma {:induction false} RunesTruncate(s: string, n: nat)
    requires n <= |Encode(s)|
    ensures var k := Fitting(s, n);
            && |Encode(s[..k])| <= n < |Encode(s[..k])| + 4
            && Runes(Encode(s)[..n]) == s[..k] + Replacements(n - |Encode(s[..k])|)
  {
    hide EncodeChar, DecodeChar;
    if s == "" {
    } else if |EncodeChar(s[0])| > n {
      assert Encode(s)[..n] == EncodeChar(s[0])[0..n];
      RunesCutChar(s[0], 0, n);
    } else {
      var w := |EncodeChar(s[0])|;
      var k := Fitting(s[1..], n - w);
      RunesTruncate(s[1..], n - w);
      var tail := Encode(s[1..])[..n - w];
      assert Encode(s)[..n] == EncodeChar(s[0]) + tail;
      RunesStep(s[0], tail);
      assert s[..1 + k] == [s[0]] + s[1..][..k];
      assert s[..1 + k][1..] == s[1..][..k];
    }
  }

  // The cut text is valid UTF-8 exactly when the cut falls between two characters.
  lemma TruncateValid(s: string, n: nat)
    requires n <= |Encode(s)|
    ensures ValidUtf8(Encode(s)[..n]) <==> n == |Encode(s[..Fitting(s, n)])|
  {
    hide Encode, Runes, Fitting, Replacements;
    var k := Fitting(s, n);
    RunesTruncate(s, n);
    var left := n - |Encode(s[..k])|;
    EncodeAppend(s[..k], Replacements(left));
    if left == 0 {
      assert Replacements(0) == [] by { NoReplacements(); }
      assert s[..k] + Replacements(0) == s[..k];
      EncodeAppend(s[..k], s[k..]);
      assert s == s[..k] + s[k..];
    } else {
      EncodeReplacements(left);
    }
  }

  lemma NoReplacements()
    ensures Replacements(0) == []
  {
  }

  lemma {:induction false} EncodeReplacements(n: nat)
    ensures |Encode(Replacements(n))| == 3 * n
  {
    if n > 0 {
      EncodeReplacements(n - 1);
      assert Replacements(n)[1..] == Replacements(n - 1);
    }
  }

  // ---- Text columns ----

  // What a text column of a UTF-8 database takes: valid text without a zero byte.
  predicate Storable(b: Bytes) {
    ValidUtf8(b) && 0 !in b
  }

  ghost predicate NoNul(s: string) {
    '\0' !in s
  }

  lemma {:induction false} EncodeNoNul(s: string)
    requires NoNul(s)
    ensures 0 !in Encode(s)
  {
    if s != "" {
      CharNoNul(s[0]);
      EncodeNoNul(s[1..]);
    }
  }

  lemma CharNoNul(c: char)
    requires c != '\0'
    ensures 0 !in EncodeChar(c)
  {
  }

  // A text cut at n bytes can be stored exactly if it needed no cut or the cut falls between
  // two characters.
  lemma StorableCut(s: string, n: nat)
    requires NoNul(s)
    ensures Storable(Truncate(Encode(s), n)) <==> |Encode(s)| <= n || n == |Encode(s[..Fitting(s, n)])|
  {
    EncodeNoNul(s);
    hide Encode, Fitting;
    assert 0 !in Truncate(Encode(s), n);
    if |Encode(s)| <= n {
      RunesOfEncoded(s);
    } else {
      TruncateValid(s, n);
    }
  }

  // n letters of one byte each.
  function Letters(n: nat): (s: string)
    ensures |s| == n
  {
    seq(n, _ => 'a')
  }

  lemma {:induction false} LettersFit(n: nat, t: string, m: nat)
    ensures |Encode(Letters(n) + t)| == n + |Encode(t)|
    ensures Fitting(Letters(n) + t, n + m) == n + Fitting(t, m)
  {
    var s := Letters(n) + t;
    if n == 0 {
      assert s == t;
    } else {
      assert s[1..] == Letters(n - 1) + t && s[0] == 'a';
      assert |EncodeChar('a')| == 1;
      LettersFit(n - 1, t, m);
    }
  }

  lemma TwoBytes()
    ensures |Encode("\U{00E9}")| == 2 && Fitting("\U{00E9}", 1) == 0
  {
    assert Encode("\U{00E9}") == EncodeChar('\U{00E9}') + Encode("");
  }

  // A text whose cut at n bytes cannot be stored: one letter short of n, then a character of
  // two bytes.
  lemma CutInside(n: nat)
    requires n > 0
    ensures var s := Letters(n - 1) + "\U{00E9}";
            NoNul(s) && |Encode(s)| == n + 1 && Fitting(s, n) == n - 1 && !Storable(Truncate(Encode(s), n))
  {
    hide Encode, Fitting, Storable;
    var s := Letters(n - 1) + "\U{00E9}";
    TwoBytes();
    LettersFit(n - 1, "\U{00E9}", 1);
    LettersFit(n - 1, "", 0);
    assert s[..n - 1] == Letters(n - 1) + "";
    NoBytes();
    StorableCut(s, n);
  }

  lemma NoBytes()
    ensures Encode("") == []
  {
  }
}
