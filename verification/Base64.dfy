// encoding/base64 as the source uses it: RawURLEncoding (section 5 of RFC 4648, no
// padding) and StdEncoding (section 4, padded). Decoding skips line breaks and does not
// insist that unused trailing bits are zero, as the library's decoders do by default.
module Base64 {
  import opened Prelude
  import opened Utf8

  type Sextet = v: int | 0 <= v < 64

  function CharOf(v: Sextet, url: bool): char {
    if v < 26 then ('A' as int + v) as char
    else if v < 52 then ('a' as int + v - 26) as char
    else if v < 62 then ('0' as int + v - 52) as char
    else if v == 62 then (if url then '-' else '+')
    else (if url then '_' else '/')
  }

  function ValueOf(c: char, url: bool): Option<Sextet> {
    if 'A' <= c <= 'Z' then Some(c as int - 'A' as int)
    else if 'a' <= c <= 'z' then Some(c as int - 'a' as int + 26)
    else if '0' <= c <= '9' then Some(c as int - '0' as int + 52)
    else if c == (if url then '-' else '+') then Some(62)
    else if c == (if url then '_' else '/') then Some(63)
    else None
  }

  lemma ValueOfChar(v: Sextet, url: bool)
    ensures ValueOf(CharOf(v, url), url) == Some(v)
  {
  }

  function EncodeRaw(b: Bytes, url: bool): string {
    if |b| == 0 then ""
    else if |b| == 1 then [CharOf(b[0] / 4, url), CharOf(b[0] % 4 * 16, url)]
    else if |b| == 2 then [CharOf(b[0] / 4, url), CharOf(b[0] % 4 * 16 + b[1] / 16, url), CharOf(b[1] % 16 * 4, url)]
    else
      [CharOf(b[0] / 4, url), CharOf(b[0] % 4 * 16 + b[1] / 16, url),
       CharOf(b[1] % 16 * 4 + b[2] / 64, url), CharOf(b[2] % 64, url)] + EncodeRaw(b[3..], url)
  }

  // Without line breaks or padding.
  function DecodeClean(s: string, url: bool): Option<Bytes> {
    if |s| == 0 then Some([])
    else if |s| == 1 then None
    else
      var v0, v1 := ValueOf(s[0], url), ValueOf(s[1], url);
      if v0.None? || v1.None? then None
      else if |s| == 2 then Some([v0.value * 4 + v1.value / 16])
      else
        var v2 := ValueOf(s[2], url);
        if v2.None? then None
        else if |s| == 3 then Some([v0.value * 4 + v1.value / 16, v1.value % 16 * 16 + v2.value / 4])
        else
          var v3, rest := ValueOf(s[3], url), DecodeClean(s[4..], url);
          if v3.None? || rest.None? then None
          else Some([v0.value * 4 + v1.value / 16, v1.value % 16 * 16 + v2.value / 4, v2.value % 4 * 64 + v3.value] + rest.value)
  }

  function Unbroken(s: string): string {
    if s == "" then "" else (if s[0] == '\n' || s[0] == '\r' then "" else [s[0]]) + Unbroken(s[1..])
  }

  function DecodeRaw(s: string, url: bool): Option<Bytes> {
    DecodeClean(Unbroken(s), url)
  }

  function Padding(n: nat): string {
    if n % 3 == 0 then "" else if n % 3 == 1 then "==" else "="
  }

  function EncodePadded(b: Bytes): string {
    EncodeRaw(b, false) + Padding(|b|)
  }

  function DecodePadded(s: string): Option<Bytes> {
    var t := Unbroken(s);
    var n := |t|;
    if n % 4 != 0 then None
    else if n >= 2 && t[n - 1] == '=' && t[n - 2] == '=' then DecodeClean(t[..n - 2], false)
    else if n >= 1 && t[n - 1] == '=' then DecodeClean(t[..n - 1], false)
    else DecodeClean(t, false)
  }

  // ---- Round trips ----

  predicate IsCode(c: char, url: bool) {
    ValueOf(c, url).Some?
  }

  lemma {:induction false} EncodedChars(b: Bytes, url: bool)
    ensures forall i :: 0 <= i < |EncodeRaw(b, url)| ==> IsCode(EncodeRaw(b, url)[i], url)
    ensures |EncodeRaw(b, url)| == |b| / 3 * 4 + (if |b| % 3 == 0 then 0 else |b| % 3 + 1)
  {
    if |b| >= 3 {
      EncodedChars(b[3..], url);
    }
  }

  // Three bytes are four sextets and back.
  lemma Quantum(x: Byte, y: Byte, z: Byte)
    ensures var v0, v1, v2, v3 := x / 4, x % 4 * 16 + y / 16, y % 16 * 4 + z / 64, z % 64;
            v0 * 4 + v1 / 16 == x && v1 % 16 * 16 + v2 / 4 == y && v2 % 4 * 64 + v3 == z
  {
  }

  lemma DecodeQuad(v0: Sextet, v1: Sextet, v2: Sextet, v3: Sextet, rest: string, url: bool)
    requires DecodeClean(rest, url).Some?
    ensures DecodeClean([CharOf(v0, url), CharOf(v1, url), CharOf(v2, url), CharOf(v3, url)] + rest, url) ==
            Some([v0 * 4 + v1 / 16, v1 % 16 * 16 + v2 / 4, v2 % 4 * 64 + v3] + DecodeClean(rest, url).value)
  {
    ValueOfChar(v0, url);
    ValueOfChar(v1, url);
    ValueOfChar(v2, url);
    ValueOfChar(v3, url);
    hide CharOf, ValueOf;
    var s := [CharOf(v0, url), CharOf(v1, url), CharOf(v2, url), CharOf(v3, url)] + rest;
    assert s[4..] == rest;
  }

  lemma DecodeShort(b: Bytes, url: bool)
    requires |b| < 3
    ensures DecodeClean(EncodeRaw(b, url), url) == Some(b)
  {
    if |b| == 2 {
      Quantum(b[0], b[1], 0);
      assert b == [b[0], b[1]];
      ValueOfChar(b[0] / 4, url);
      ValueOfChar(b[0] % 4 * 16 + b[1] / 16, url);
      ValueOfChar(b[1] % 16 * 4, url);
      hide CharOf, ValueOf;
    } else if |b| == 1 {
      assert b == [b[0]];
      ValueOfChar(b[0] / 4, url);
      ValueOfChar(b[0] % 4 * 16, url);
      hide CharOf, ValueOf;
    }
  }

  // What three bytes are encoded as.
  function Quad(x: Byte, y: Byte, z: Byte, url: bool): string {
    [CharOf(x / 4, url), CharOf(x % 4 * 16 + y / 16, url), CharOf(y % 16 * 4 + z / 64, url), CharOf(z % 64, url)]
  }

  lemma DecodeThree(x: Byte, y: Byte, z: Byte, rest: string, url: bool)
    requires DecodeClean(rest, url).Some?
    ensures DecodeClean(Quad(x, y, z, url) + rest, url) == Some([x, y, z] + DecodeClean(rest, url).value)
  {
    hide DecodeClean, CharOf;
    Quantum(x, y, z);
    DecodeQuad(x / 4, x % 4 * 16 + y / 16, y % 16 * 4 + z / 64, z % 64, rest, url);
  }

  lemma EncodeThree(b: Bytes, url: bool)
    requires |b| >= 3
    ensures EncodeRaw(b, url) == Quad(b[0], b[1], b[2], url) + EncodeRaw(b[3..], url)
  {
    hide CharOf;
  }

  lemma {:induction false} DecodeEncode(b: Bytes, url: bool)
    ensures DecodeClean(EncodeRaw(b, url), url) == Some(b)
  {
    hide *;
    if |b| < 3 {
      DecodeShort(b, url);
    } else {
      DecodeEncode(b[3..], url);
      EncodeThree(b, url);
      DecodeThree(b[0], b[1], b[2], EncodeRaw(b[3..], url), url);
      assert b == [b[0], b[1], b[2]] + b[3..];
    }
  }

  lemma {:induction false} UnbrokenKeeps(s: string)
    requires forall i :: 0 <= i < |s| ==> s[i] != '\n' && s[i] != '\r'
    ensures Unbroken(s) == s
  {
    if s != "" {
      UnbrokenKeeps(s[1..]);
    }
  }

  lemma RawRoundTrip(b: Bytes, url: bool)
    ensures DecodeRaw(EncodeRaw(b, url), url) == Some(b)
  {
    EncodedChars(b, url);
    UnbrokenKeeps(EncodeRaw(b, url));
    DecodeEncode(b, url);
  }

  lemma WholeQuanta(n: nat)
    ensures (n / 3 * 4 + (if n % 3 == 0 then 0 else n % 3 + 1) + |Padding(n)|) % 4 == 0
    ensures n % 3 != 0 ==> n / 3 * 4 + n % 3 + 1 >= 2
  {
  }

  lemma PaddedIsUnbroken(raw: string, n: nat)
    requires forall i :: 0 <= i < |raw| ==> raw[i] != '\n' && raw[i] != '\r'
    ensures Unbroken(raw + Padding(n)) == raw + Padding(n)
  {
    UnbrokenKeeps(raw + Padding(n));
  }

  // Padding is recognised after text that holds none.
  lemma Unpad(raw: string, n: nat)
    requires |raw| == n / 3 * 4 + (if n % 3 == 0 then 0 else n % 3 + 1)
    requires forall i :: 0 <= i < |raw| ==> raw[i] != '=' && raw[i] != '\n' && raw[i] != '\r'
    ensures DecodePadded(raw + Padding(n)) == DecodeClean(raw, false)
  {
    hide DecodeClean, Unbroken;
    var s := raw + Padding(n);
    WholeQuanta(n);
    PaddedIsUnbroken(raw, n);
    assert s[..|raw|] == raw;
    assert |raw| > 0 ==> s[|raw| - 1] == raw[|raw| - 1];
    assert forall j :: |raw| <= j < |s| ==> s[j] == '=';
    assert |s| == |raw| + |Padding(n)| && |s| % 4 == 0;
    assert Padding(n) == "" ==> s == raw;
  }

  lemma PaddedRoundTrip(b: Bytes)
    ensures DecodePadded(EncodePadded(b)) == Some(b)
  {
    EncodedChars(b, false);
    DecodeEncode(b, false);
    hide EncodeRaw, DecodeClean, DecodePadded;
    var raw := EncodeRaw(b, false);
    assert forall i :: 0 <= i < |raw| ==> IsCode(raw[i], false);
    Unpad(raw, |b|);
  }

  lemma EncodeRawInjective(a: Bytes, b: Bytes, url: bool)
    requires EncodeRaw(a, url) == EncodeRaw(b, url)
    ensures a == b
  {
    DecodeEncode(a, url);
    DecodeEncode(b, url);
  }
}
