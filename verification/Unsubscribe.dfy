// internal/unsubscribe/token.go: one-click unsubscribe tokens.
//
// The MAC is any function of secret and payload. Times are nanoseconds since the epoch;
// Unix() is whole seconds, rounded down. `lower` is the case mapping of one character.
module Unsubscribe {
  import opened Prelude
  import opened Text
  import opened Utf8
  import opened Decimal
  import Base64

  const SECOND := 1_000_000_000
  const LIFETIME := 90 * 24 * 3600 * SECOND

  type Mac = (Bytes, Bytes) -> Bytes

  type Lower = char -> char

  datatype Error = Malformed | Expired | BadSignature

  datatype Token = Token(messageId: Bytes, address: Bytes, expiresAt: int)

  // strings.ToLower(strings.TrimSpace(address)).
  function Normalize(lower: Lower, address: string): string {
    MapChars(lower, TrimSpace(address))
  }

  function PayloadOf(lower: Lower, messageId: string, address: string, expiry: int): Bytes {
    Encode(messageId) + [0] + Encode(Normalize(lower, address)) + [0] + Encode(Format(expiry))
  }

  function ExpiryOf(now: int): int {
    (now + LIFETIME) / SECOND
  }

  function Sign(mac: Mac, lower: Lower, secret: Bytes, messageId: string, address: string, now: int): string {
    var payload := PayloadOf(lower, messageId, address, ExpiryOf(now));
    Base64.EncodeRaw(payload, true) + "." + Base64.EncodeRaw(mac(secret, payload), true)
  }

  function SplitBytes(b: Bytes): (parts: seq<Bytes>)
    ensures |parts| >= 1
  {
    if b == [] then [[]]
    else
      var rest := SplitBytes(b[1..]);
      if b[0] == 0 then [[]] + rest else [[b[0]] + rest[0]] + rest[1..]
  }

  function ReadPayload(payload: Bytes): Option<Token> {
    var parts := SplitBytes(payload);
    if |parts| != 3 then None
    else
      var expiry := ParseInt(Chars(parts[2]));
      if expiry.None? then None else Some(Token(parts[0], parts[1], expiry.value))
  }

  function Verify(mac: Mac, secret: Bytes, token: string, now: int): Result<Token, Error> {
    var dot := Index(token, ".");
    if dot < 0 then Err(Malformed)
    else
      var payload, sig := Base64.DecodeRaw(token[..dot], true), Base64.DecodeRaw(token[dot + 1..], true);
      if payload.None? || sig.None? then Err(Malformed)
      else if mac(secret, payload.value) != sig.value then Err(BadSignature)
      else
        var read := ReadPayload(payload.value);
        if read.None? then Err(Malformed)
        else if now > read.value.expiresAt * SECOND then Err(Expired)
        else Ok(read.value)
  }

  // ---- The payload reads back ----

  lemma {:induction false} SplitBytesPart(part: Bytes, rest: Bytes)
    requires 0 !in part
    ensures SplitBytes(part + [0] + rest) == [part] + SplitBytes(rest)
    ensures SplitBytes(part) == [part]
  {
    if part == [] {
      assert part + [0] + rest == [0] + rest;
    } else {
      SplitBytesPart(part[1..], rest);
      assert (part + [0] + rest)[1..] == part[1..] + [0] + rest;
      assert part == [part[0]] + part[1..];
    }
  }

  lemma EncodeAscii(c: char)
    requires c as int < 0x80
    ensures EncodeChar(c) == [c as int]
  {
  }

  lemma CharsStep(c: char, rest: Bytes)
    requires c as int < 0x80
    ensures Chars([c as int] + rest) == [c] + Chars(rest)
  {
  }

  lemma {:induction false} CharsOfAscii(s: string)
    requires forall i :: 0 <= i < |s| ==> s[i] as int < 0x80
    ensures Chars(Encode(s)) == s
  {
    if s != "" {
      CharsOfAscii(s[1..]);
      EncodeAscii(s[0]);
      var rest := Encode(s[1..]);
      assert Encode(s) == [s[0] as int] + rest;
      hide *;
      CharsStep(s[0], rest);
      assert s == [s[0]] + s[1..];
    }
  }

  lemma FormatAscii(n: int)
    ensures forall i :: 0 <= i < |Format(n)| ==> Format(n)[i] as int < 0x80
    ensures NoNul(Format(n))
  {
  }

  lemma ReadParts(id: Bytes, who: Bytes, when: Bytes, expiry: int)
    requires 0 !in id && 0 !in who && 0 !in when && ParseInt(Chars(when)) == Some(expiry)
    ensures ReadPayload(id + [0] + who + [0] + when) == Some(Token(id, who, expiry))
  {
    hide SplitBytes, ParseInt, Chars;
    SplitBytesPart(when, []);
    SplitBytesPart(who, when);
    SplitBytesPart(id, who + [0] + when);
    assert id + [0] + who + [0] + when == id + [0] + (who + [0] + when);
  }

  lemma PayloadReads(lower: Lower, messageId: string, address: string, expiry: int)
    requires NoNul(messageId) && NoNul(Normalize(lower, address)) && IsInt64(expiry)
    ensures ReadPayload(PayloadOf(lower, messageId, address, expiry)) ==
            Some(Token(Encode(messageId), Encode(Normalize(lower, address)), expiry))
  {
    EncodeNoNul(messageId);
    EncodeNoNul(Normalize(lower, address));
    FormatAscii(expiry);
    EncodeNoNul(Format(expiry));
    CharsOfAscii(Format(expiry));
    ParseFormat(expiry);
    hide Encode, Normalize, ParseInt, Format, Chars;
    ReadParts(Encode(messageId), Encode(Normalize(lower, address)), Encode(Format(expiry)), expiry);
  }

  lemma CutAtDot(payload: Bytes, sig: Bytes)
    ensures var code := Base64.EncodeRaw(payload, true);
            Index(code + "." + Base64.EncodeRaw(sig, true), ".") == |code|
  {
    Base64.EncodedChars(payload, true);
    hide Base64.EncodeRaw;
    var code := Base64.EncodeRaw(payload, true);
    var token := code + "." + Base64.EncodeRaw(sig, true);
    assert token[|code|..|code| + 1] == ".";
    forall j | 0 <= j < |code|
      ensures !OccursAt(token, ".", j)
    {
      assert Base64.IsCode(code[j], true);
      assert token[j..j + 1][0] == code[j];
    }
    IndexIs(token, ".", |code|);
  }

  // A signed token gives back the message and the normalised address, and no other
  // outcome is possible but expiry: it is accepted exactly up to its expiry second.
  lemma RoundTrip(mac: Mac, lower: Lower, secret: Bytes, messageId: string, address: string, signedAt: int, now: int)
    requires NoNul(messageId) && NoNul(Normalize(lower, address)) && IsInt64(ExpiryOf(signedAt))
    ensures var expiry := ExpiryOf(signedAt);
            Verify(mac, secret, Sign(mac, lower, secret, messageId, address, signedAt), now) ==
            if now <= expiry * SECOND then Ok(Token(Encode(messageId), Encode(Normalize(lower, address)), expiry))
            else Err(Expired)
  {
    hide Base64.EncodeRaw, Base64.DecodeRaw, ReadPayload, PayloadOf, Index, ExpiryOf, Encode, Normalize;
    var payload := PayloadOf(lower, messageId, address, ExpiryOf(signedAt));
    var sig := mac(secret, payload);
    CutAtDot(payload, sig);
    Base64.RawRoundTrip(payload, true);
    Base64.RawRoundTrip(sig, true);
    PayloadReads(lower, messageId, address, ExpiryOf(signedAt));
    var code, token := Base64.EncodeRaw(payload, true), Sign(mac, lower, secret, messageId, address, signedAt);
    assert token[..|code|] == code && token[|code| + 1..] == Base64.EncodeRaw(sig, true);
  }

  // An address is the same with spaces around it.
  lemma PaddingIsNoDifference(mac: Mac, lower: Lower, secret: Bytes, id: string, left: string, address: string, right: string,
                              at: int)
    requires AllSpaces(left) && AllSpaces(right)
    ensures Sign(mac, lower, secret, id, left + address + right, at) == Sign(mac, lower, secret, id, address, at)
  {
    hide AllSpaces, Encode, Format, Base64.EncodeRaw, MapChars;
    TrimPadded(left, address, right);
  }

  // The life of a token: ninety days, cut to a whole second.
  lemma LifetimeBounds(signedAt: int)
    ensures var days := 90 * 24 * 3600 * 1_000_000_000;
            signedAt + days - 1_000_000_000 < ExpiryOf(signedAt) * 1_000_000_000 <= signedAt + days
  {
  }

  // A token names one message, one address, one expiry: tokens that differ in any of them
  // differ, whenever and under whatever secrets they were signed.
  lemma TokensDiffer(mac: Mac, lower: Lower, secret: Bytes, id: string, address: string, at: int,
                     secret': Bytes, id': string, address': string, at': int)
    requires NoNul(id) && NoNul(Normalize(lower, address)) && IsInt64(ExpiryOf(at))
    requires NoNul(id') && NoNul(Normalize(lower, address')) && IsInt64(ExpiryOf(at'))
    requires Sign(mac, lower, secret, id, address, at) == Sign(mac, lower, secret', id', address', at')
    ensures id == id' && Normalize(lower, address) == Normalize(lower, address') && ExpiryOf(at) == ExpiryOf(at')
  {
    var p, q := PayloadOf(lower, id, address, ExpiryOf(at)), PayloadOf(lower, id', address', ExpiryOf(at'));
    CutAtDot(p, mac(secret, p));
    CutAtDot(q, mac(secret', q));
    PayloadReads(lower, id, address, ExpiryOf(at));
    PayloadReads(lower, id', address', ExpiryOf(at'));
    RunesOfEncoded(id);
    RunesOfEncoded(id');
    RunesOfEncoded(Normalize(lower, address));
    RunesOfEncoded(Normalize(lower, address'));
    hide Base64.EncodeRaw, PayloadOf, Index, ReadPayload, Encode, Runes, Normalize;
    var token, code := Sign(mac, lower, secret, id, address, at), Base64.EncodeRaw(p, true);
    assert token[..|code|] == code && token[..|code|] == Base64.EncodeRaw(q, true);
    Base64.EncodeRawInjective(p, q, true);
  }

  function JoinBytes(parts: seq<Bytes>): Bytes
    requires parts != []
  {
    if |parts| == 1 then parts[0] else parts[0] + [0] + JoinBytes(parts[1..])
  }

  lemma {:induction false} SplitBytesJoins(b: Bytes)
    ensures JoinBytes(SplitBytes(b)) == b
  {
    if b != [] {
      SplitBytesJoins(b[1..]);
      var rest := SplitBytes(b[1..]);
      assert b == [b[0]] + b[1..];
      assert SplitBytes(b) == if b[0] == 0 then [[]] + rest else [[b[0]] + rest[0]] + rest[1..];
      hide SplitBytes, JoinBytes;
      JoinFront(b[0], rest);
    }
  }

  lemma JoinCons(part: Bytes, parts: seq<Bytes>)
    requires parts != []
    ensures JoinBytes([part] + parts) == part + [0] + JoinBytes(parts)
    ensures JoinBytes([part]) == part
  {
    assert ([part] + parts)[1..] == parts;
  }

  lemma JoinFront(x: Byte, parts: seq<Bytes>)
    requires parts != []
    ensures JoinBytes([[]] + parts) == [0] + JoinBytes(parts)
    ensures JoinBytes([[x] + parts[0]] + parts[1..]) == [x] + JoinBytes(parts)
  {
    hide JoinBytes;
    var first, more := parts[0], parts[1..];
    JoinCons([], parts);
    assert [] + [0] + JoinBytes(parts) == [0] + JoinBytes(parts);
    assert parts == [first] + more;
    if more == [] {
      JoinCons(first, parts);
      JoinCons([x] + first, parts);
      assert [first] + more == [first] && [[x] + first] + more == [[x] + first];
    } else {
      JoinCons(first, more);
      JoinCons([x] + first, more);
      assert [x] + first + [0] + JoinBytes(more) == [x] + (first + [0] + JoinBytes(more));
    }
  }

  lemma {:induction false} SplitBytesClean(b: Bytes)
    ensures forall i :: 0 <= i < |SplitBytes(b)| ==> 0 !in SplitBytes(b)[i]
  {
    if b != [] {
      SplitBytesClean(b[1..]);
    }
  }

  lemma JoinThree(parts: seq<Bytes>)
    requires |parts| == 3
    ensures JoinBytes(parts) == parts[0] + [0] + parts[1] + [0] + parts[2]
  {
    assert JoinBytes(parts[1..][1..]) == parts[2];
    assert JoinBytes(parts[1..]) == parts[1] + [0] + parts[2];
  }

  // Whatever is accepted carries the MAC of the very payload its fields were read from, is
  // not past its expiry, and the fields hold no separator: with a MAC nobody else can
  // compute, only what was signed is accepted.
  lemma OnlySigned(mac: Mac, secret: Bytes, token: string, now: int)
    requires Verify(mac, secret, token, now).Ok?
    ensures var t, dot := Verify(mac, secret, token, now).value, Index(token, ".");
            && dot >= 0
            && now <= t.expiresAt * SECOND && IsInt64(t.expiresAt)
            && 0 !in t.messageId && 0 !in t.address
            && exists when: Bytes ::
                 && ParseInt(Chars(when)) == Some(t.expiresAt)
                 && var payload := t.messageId + [0] + t.address + [0] + when;
                 Base64.DecodeRaw(token[..dot], true) == Some(payload)
                 && Base64.DecodeRaw(token[dot + 1..], true) == Some(mac(secret, payload))
  {
    hide Index, Base64.DecodeRaw, Signed, SplitBytes, Chars;
    var dot := Index(token, ".");
    var payload := Base64.DecodeRaw(token[..dot], true).value;
    SplitBytesJoins(payload);
    SplitBytesClean(payload);
    JoinThree(SplitBytes(payload));
    var when := SplitBytes(payload)[2];
    assert ParseInt(Chars(when)).Some?;
  }
}
