// The event detail writer of internal/store/queue.go, and a reader of the JSON it writes.
//
// The reader follows sections 4 and 7 of RFC 8259 on Unicode text: objects whose members
// are strings, every escape, no raw control characters.
module JsonString {
  import opened Prelude
  import opened Utf8

  // ---- The writer, as a function of the characters ranged over ----

  function EscapedChar(c: char): string {
    if c == '"' then ['\\', '"']
    else if c == '\\' then ['\\', '\\']
    else if c == '\n' then ['\\', 'n']
    else if c == '\r' then ['\\', 'r']
    else if c == '\t' then ['\\', 't']
    else if c < ' ' then [' ']
    else [c]
  }

  function Escaped(s: string): string {
    if s == "" then "" else EscapedChar(s[0]) + Escaped(s[1..])
  }

  function Quoted(s: string): string {
    ['"'] + Escaped(s) + ['"']
  }

  const REASON_OPEN := "{\"reason\":"

  // The text an event's detail column holds for a non-empty detail.
  function Detail(reason: Bytes): Bytes {
    Encode(REASON_OPEN + Quoted(Runes(reason)) + "}")
  }

  const MAX_DETAIL := 500

  // The whole detail column: an empty object, or the first 500 bytes as a reason.
  function EventDetail(detail: Bytes): Bytes {
    if detail == [] then Encode("{}") else Detail(Truncate(detail, MAX_DETAIL))
  }

  lemma {:induction false} EscapedAppend(s: string, c: char)
    ensures Escaped(s + [c]) == Escaped(s) + EscapedChar(c)
  {
    if s != "" {
      assert (s + [c])[1..] == s[1..] + [c];
      EscapedAppend(s[1..], c);
    }
  }

  lemma EncodeCat(a: string, b: string, c: string)
    ensures Encode(a + b + c) == Encode(a) + Encode(b) + Encode(c)
  {
    EncodeAppend(a + b, c);
    EncodeAppend(a, b);
  }

  lemma EscapedStep(done: string, c: char)
    ensures Encode(Escaped(done + [c])) == Encode(Escaped(done)) + Encode(EscapedChar(c))
  {
    EscapedAppend(done, c);
    EncodeAppend(Escaped(done), EscapedChar(c));
  }

  lemma NothingEscaped()
    ensures Encode(Escaped("")) == []
  {
  }

  lemma NoRunes()
    ensures Runes([]) == ""
  {
  }

  lemma RunesTurn(rest: Bytes)
    requires rest != []
    ensures Runes(rest) == [DecodeChar(rest).0] + Runes(rest[DecodeChar(rest).1..])
  {
  }

  lemma EscapedCases(c: char)
    ensures c !in "\"\\\n\r\t" ==> EscapedChar(c) == if c < ' ' then " " else [c]
    ensures EscapedChar('"') == ['\\', '"'] && EscapedChar('\\') == ['\\', '\\']
    ensures EscapedChar('\n') == ['\\', 'n'] && EscapedChar('\r') == ['\\', 'r'] && EscapedChar('\t') == ['\\', 't']
  {
  }

  // appendJSONString: grows dst by one quoted string.
  method AppendJsonString(dst: Bytes, s: Bytes) returns (out: Bytes)
    ensures out == dst + Encode(Quoted(Runes(s)))
  {
    hide Encode, EncodeChar, DecodeChar, Escaped, EscapedChar, Runes;
    NoRunes();
    out := dst + Encode(['"']);
    var rest := s;
    ghost var done := "";
    NothingEscaped();
    while rest != []
      invariant Runes(s) == done + Runes(rest)
      invariant out == dst + Encode(['"']) + Encode(Escaped(done))
      decreases |rest|
    {
      var (r, n) := DecodeChar(rest);
      RunesTurn(rest);
      EscapedStep(done, r);
      EscapedCases(r);
      ghost var escaped := Encode(Escaped(done));
      if r == '"' {
        out := out + Encode(['\\', '"']);
      } else if r == '\\' {
        out := out + Encode(['\\', '\\']);
      } else if r == '\n' {
        out := out + Encode(['\\', 'n']);
      } else if r == '\r' {
        out := out + Encode(['\\', 'r']);
      } else if r == '\t' {
        out := out + Encode(['\\', 't']);
      } else if r < ' ' {
        out := out + Encode([' ']);
      } else {
        out := out + Encode([r]);
      }
      assert out == dst + Encode(['"']) + escaped + Encode(EscapedChar(r));
      done := done + [r];
      rest := rest[n..];
    }
    assert done == Runes(s);
    EncodeCat(['"'], Escaped(done), ['"']);
    out := out + Encode(['"']);
  }

  method MustJsonString(reason: Bytes) returns (out: Bytes)
    ensures out == Detail(reason)
  {
    hide Encode, Runes, Escaped;
    out := AppendJsonString(Encode(REASON_OPEN), reason);
    EncodeCat(REASON_OPEN, Quoted(Runes(reason)), "}");
    out := out + Encode("}");
  }

  // ---- The reader ----

  function HexDigit(c: char): (r: Option<int>)
    ensures r.Some? ==> 0 <= r.value < 16
  {
    if '0' <= c <= '9' then Some(c as int - '0' as int)
    else if 'a' <= c <= 'f' then Some(c as int - 'a' as int + 10)
    else if 'A' <= c <= 'F' then Some(c as int - 'A' as int + 10)
    else None
  }

  function Hex4(t: string): (r: Option<int>)
    ensures r.Some? ==> |t| >= 4 && 0 <= r.value < 0x10000
  {
    if |t| < 4 then None
    else
      var a, b, c, d := HexDigit(t[0]), HexDigit(t[1]), HexDigit(t[2]), HexDigit(t[3]);
      if a.None? || b.None? || c.None? || d.None? then None
      else Some(((a.value * 16 + b.value) * 16 + c.value) * 16 + d.value)
  }

  // The characters after a backslash: what they stand for and what is left.
  function ReadEscape(t: string): (r: Option<(char, string)>)
    ensures r.Some? ==> |r.value.1| < |t|
  {
    if t == "" then None
    else if t[0] in "\"\\/" then Some((t[0], t[1..]))
    else if t[0] == 'b' then Some((8 as char, t[1..]))
    else if t[0] == 'f' then Some((12 as char, t[1..]))
    else if t[0] == 'n' then Some(('\n', t[1..]))
    else if t[0] == 'r' then Some(('\r', t[1..]))
    else if t[0] == 't' then Some(('\t', t[1..]))
    else if t[0] != 'u' then None
    else
      var high := Hex4(t[1..]);
      if high.None? then None
      else if !(0xD800 <= high.value < 0xE000) then Some((high.value as char, t[5..]))
      else if high.value >= 0xDC00 || |t| < 11 || t[5] != '\\' || t[6] != 'u' then None
      else
        var low := Hex4(t[7..]);
        if low.None? || !(0xDC00 <= low.value < 0xE000) then None
        else Some(((0x10000 + (high.value - 0xD800) * 0x400 + (low.value - 0xDC00)) as char, t[11..]))
  }

  // The rest of a string after its opening quote, and what follows the closing one.
  function ReadString(t: string): (r: Option<(string, string)>)
    ensures r.Some? ==> |r.value.1| < |t|
    decreases |t|
  {
    if t == "" || t[0] < ' ' then None
    else if t[0] == '"' then Some(("", t[1..]))
    else
      var head := if t[0] == '\\' then ReadEscape(t[1..]) else Some((t[0], t[1..]));
      if head.None? then None
      else
        var tail := ReadString(head.value.1);
        if tail.None? then None else Some(([head.value.0] + tail.value.0, tail.value.1))
  }

  function SkipSpace(t: string): (r: string)
    ensures |r| <= |t|
  {
    if t != "" && t[0] in " \t\n\r" then SkipSpace(t[1..]) else t
  }

  // Members up to and including the closing brace, with nothing after it.
  function ReadMembers(t: string): Option<seq<(string, string)>>
    decreases |t|
  {
    var u := SkipSpace(t);
    if u == "" || u[0] != '"' then None
    else
      var name := ReadString(u[1..]);
      if name.None? then None
      else
        var v := SkipSpace(name.value.1);
        if v == "" || v[0] != ':' then None
        else
          var w := SkipSpace(v[1..]);
          if w == "" || w[0] != '"' then None
          else
            var value := ReadString(w[1..]);
            if value.None? then None
            else
              var x := SkipSpace(value.value.1);
              if x == "" then None
              else if x[0] == '}' then
                if SkipSpace(x[1..]) == "" then Some([(name.value.0, value.value.0)]) else None
              else if x[0] != ',' then None
              else
                var rest := ReadMembers(x[1..]);
                if rest.None? then None else Some([(name.value.0, value.value.0)] + rest.value)
  }

  // Some(members) exactly when t is a JSON object of string members.
  function ReadObject(t: string): Option<seq<(string, string)>> {
    var u := SkipSpace(t);
    if u == "" || u[0] != '{' then None
    else
      var v := SkipSpace(u[1..]);
      if v != "" && v[0] == '}' then (if SkipSpace(v[1..]) == "" then Some([]) else None)
      else ReadMembers(v)
  }

  // ---- Round trip ----

  function SanitizedChar(c: char): char {
    if c < ' ' && c != '\n' && c != '\r' && c != '\t' then ' ' else c
  }

  function Sanitized(s: string): string {
    seq(|s|, i requires 0 <= i < |s| => SanitizedChar(s[i]))
  }

  // A plain character, or a two-character escape, and then the rest of the string.
  lemma ReadPlain(c: char, rest: string)
    requires c >= ' ' && c != '"' && c != '\\' && ReadString(rest).Some?
    ensures ReadString([c] + rest) == Some(([c] + ReadString(rest).value.0, ReadString(rest).value.1))
  {
    hide ReadEscape;
    assert ([c] + rest)[1..] == rest;
  }

  lemma ReadShortEscape(e: char, meant: char, rest: string)
    requires ReadEscape([e] + rest) == Some((meant, rest)) && ReadString(rest).Some?
    ensures ReadString(['\\', e] + rest) == Some(([meant] + ReadString(rest).value.0, ReadString(rest).value.1))
  {
    hide ReadEscape;
    assert (['\\', e] + rest)[1..] == [e] + rest;
  }

  lemma EscapeMeans(e: char, meant: char, rest: string)
    requires (e, meant) in {('"', '"'), ('\\', '\\'), ('n', '\n'), ('r', '\r'), ('t', '\t')}
    ensures ReadEscape([e] + rest) == Some((meant, rest))
  {
    hide Hex4;
    assert ([e] + rest)[1..] == rest;
  }

  lemma ReadEscapedChar(c: char, rest: string)
    requires ReadString(rest).Some?
    ensures ReadString(EscapedChar(c) + rest) ==
            Some(([SanitizedChar(c)] + ReadString(rest).value.0, ReadString(rest).value.1))
  {
    hide ReadString, ReadEscape;
    var e := EscapedChar(c);
    if |e| == 2 {
      EscapeMeans(e[1], c, rest);
      assert e == ['\\', e[1]];
      ReadShortEscape(e[1], c, rest);
    } else {
      ReadPlain(e[0], rest);
    }
  }

  lemma ReadClosing(rest: string)
    ensures ReadString(['"'] + rest) == Some(("", rest))
  {
    hide ReadEscape;
    assert (['"'] + rest)[1..] == rest;
  }

  lemma {:induction false} ReadEscaped(s: string, rest: string)
    ensures ReadString(Escaped(s) + ['"'] + rest) == Some((Sanitized(s), rest))
  {
    hide ReadString, EscapedChar, SanitizedChar, SkipSpace;
    if s == "" {
      assert Escaped(s) + ['"'] + rest == ['"'] + rest;
      ReadClosing(rest);
    } else {
      ReadEscaped(s[1..], rest);
      ReadEscapedChar(s[0], Escaped(s[1..]) + ['"'] + rest);
      assert Escaped(s) + ['"'] + rest == EscapedChar(s[0]) + (Escaped(s[1..]) + ['"'] + rest);
      assert Sanitized(s) == [SanitizedChar(s[0])] + Sanitized(s[1..]);
    }
  }

  lemma ReadDetail(s: string)
    ensures ReadObject(REASON_OPEN + Quoted(s) + "}") == Some([("reason", Sanitized(s))])
  {
    hide ReadString, Escaped, Sanitized;
    var text := REASON_OPEN + Quoted(s) + "}";
    var afterBrace := "\"reason\":" + Quoted(s) + "}";
    var afterName := ":" + Quoted(s) + "}";
    assert text[1..] == afterBrace;
    EscapedReason();
    ReadEscaped("reason", afterName);
    assert afterBrace[1..] == Escaped("reason") + ['"'] + afterName;
    ReadEscaped(s, "}");
    assert afterName[1..] == Quoted(s) + "}";
    assert (Quoted(s) + "}")[1..] == Escaped(s) + ['"'] + "}";
  }

  // What is written is always one well-formed JSON object, and reading it gives back the
  // reason with its other control characters turned into spaces.
  lemma DetailRoundTrip(reason: Bytes)
    ensures var text := Runes(Detail(reason));
            && Encode(text) == Detail(reason)
            && ReadObject(text) == Some([("reason", Sanitized(Runes(reason)))])
  {
    var s := Runes(reason);
    RunesOfEncoded(REASON_OPEN + Quoted(s) + "}");
    ReadDetail(s);
  }

  lemma {:induction false} EscapedPlain(s: string)
    requires forall i :: 0 <= i < |s| ==> 'a' <= s[i] <= 'z'
    ensures Escaped(s) == s == Sanitized(s)
  {
    if s != "" {
      EscapedPlain(s[1..]);
      assert s == [s[0]] + s[1..];
    }
  }

  lemma EscapedReason()
    ensures Escaped("reason") == "reason" == Sanitized("reason")
  {
    EscapedPlain("reason");
  }

  // The detail of an event about valid text keeps the characters that fit in 500 bytes,
  // with one U+FFFD for each of the at most three bytes of a cut character.
  lemma EventDetailKeeps(s: string)
    requires s != "" && |Encode(s)| > MAX_DETAIL
    ensures var k := Fitting(s, MAX_DETAIL);
            && MAX_DETAIL - 3 <= |Encode(s[..k])| <= MAX_DETAIL
            && ReadObject(Runes(EventDetail(Encode(s)))) ==
               Some([("reason", Sanitized(s[..k] + Replacements(MAX_DETAIL - |Encode(s[..k])|)))])
  {
    RunesTruncate(s, MAX_DETAIL);
    DetailRoundTrip(Truncate(Encode(s), MAX_DETAIL));
  }
}
