// internal/mail/address.go: what may stand in a header, and the recipient list.
//
// The library's address parser and the case mapping of one character are parameters.
module Address {
  import opened Prelude
  import opened Text

  const MAX_RECIPIENTS := 50
  const MAX_SUBJECT_LENGTH := 998

  datatype Error =
    | ControlCharacter
    | InvalidAddress(raw: string)
    | NoRecipient
    | TooManyRecipients
    | SubjectRequired
    | SubjectTooLong
    | HeaderNameRequired
    | NotCustom(name: string)
    | IllegalName(name: string)

  // Every C0 control but the tab, and DEL.
  predicate IsControl(c: char) {
    c != '\t' && (c < ' ' || c as int == 0x7F)
  }

  predicate ContainsControl(s: string) {
    exists i :: 0 <= i < |s| && IsControl(s[i])
  }

  datatype Parsed = Parsed(name: string, address: string)

  // net/mail.ParseAddress, strings.ToLower and strings.ToUpper by character.
  datatype Platform = Platform(parse: string -> Option<Parsed>, lower: char -> char, upper: char -> char)

  datatype Mailbox = Mailbox(name: string, email: string, domain: string)

  predicate HasBlank(s: string) {
    ' ' in s || '\t' in s
  }

  // The text between the last '<' and the last '>' after it, or all of it.
  function AddrSpec(raw: string): string {
    var trimmed := TrimSpace(raw);
    var open, close := LastIndex(trimmed, '<'), LastIndex(trimmed, '>');
    if open >= 0 && close > open then trimmed[open + 1..close] else trimmed
  }

  function ParseAddress(p: Platform, raw: string): Result<Mailbox, Error> {
    if ContainsControl(raw) then Err(ControlCharacter)
    else if HasBlank(AddrSpec(raw)) then Err(InvalidAddress(raw))
    else
      var parsed := p.parse(TrimSpace(raw));
      if parsed.None? then Err(InvalidAddress(raw))
      else
        var address := parsed.value.address;
        var at := LastIndex(address, '@');
        if at <= 0 || at == |address| - 1 then Err(InvalidAddress(raw))
        else
          var domain := MapChars(p.lower, address[at + 1..]);
          if HasBlank(domain) then Err(InvalidAddress(raw)) else Ok(Mailbox(parsed.value.name, address, domain))
  }

  // What an address accepted is: a local part and a host around its last '@'.
  lemma AddressMeaning(p: Platform, raw: string, m: Mailbox)
    ensures ParseAddress(p, raw) == Ok(m) <==>
              && !ContainsControl(raw) && ' ' !in AddrSpec(raw) && '\t' !in AddrSpec(raw)
              && p.parse(TrimSpace(raw)) == Some(Parsed(m.name, m.email))
              && ' ' !in m.domain && '\t' !in m.domain
              && exists local, host :: IsAddress(p, m, local, host)
  {
    hide ContainsControl, AddrSpec, TrimSpace, MapChars, LastIndex, IsAddress;
    LastAt(p, m);
  }

  lemma LastAt(p: Platform, m: Mailbox)
    ensures var at := LastIndex(m.email, '@');
            (exists local, host :: IsAddress(p, m, local, host)) <==>
            0 < at < |m.email| - 1 && m.domain == MapChars(p.lower, m.email[at + 1..])
  {
    hide MapChars, LastIndex;
    var at := LastIndex(m.email, '@');
    if 0 < at < |m.email| - 1 && m.domain == MapChars(p.lower, m.email[at + 1..]) {
      assert m.email == m.email[..at] + "@" + m.email[at + 1..];
      assert IsAddress(p, m, m.email[..at], m.email[at + 1..]);
    }
    if local, host :| IsAddress(p, m, local, host) {
      LastOf(local, '@', host);
      assert m.email == local + ['@'] + host;
      assert m.email[|local| + 1..] == host;
    }
  }

  lemma LastIs(s: string, c: char, i: nat)
    requires i < |s| && s[i] == c && forall j :: i < j < |s| ==> s[j] != c
    ensures LastIndex(s, c) == i
  {
    hide LastIndex;
  }

  lemma LastOf(before: string, c: char, after: string)
    requires c !in after
    ensures LastIndex(before + [c] + after, c) == |before|
  {
    hide LastIndex;
    var s, n := before + [c] + after, |before|;
    assert s[n + 1..] == after;
    forall i | n < i < |s|
      ensures s[i] != c
    {
      assert s[i] == s[n + 1..][i - n - 1];
      assert after[i - n - 1] in after;
    }
    LastIs(s, c, n);
  }

  ghost predicate IsAddress(p: Platform, m: Mailbox, local: string, host: string) {
    && m.email == local + "@" + host && local != "" && host != "" && '@' !in host
    && m.domain == MapChars(p.lower, host)
  }

  // The part without blanks is what stands between the last brackets.
  lemma AddrSpecMeaning(name: string, spec: string, rest: string)
    requires '<' !in spec && '<' !in rest && '>' !in rest && NoSpaceAround(name + "<" + spec + ">" + rest)
    ensures AddrSpec(name + "<" + spec + ">" + rest) == spec
  {
    var s := name + "<" + spec + ">" + rest;
    TrimKeeps(s);
    hide TrimSpace, IsSpace, LastIndex, NoSpaceAround;
    LastBrackets(name, spec, rest);
    assert s[|name| + 1..|name| + 1 + |spec|] == spec;
  }

  lemma LastBrackets(name: string, spec: string, rest: string)
    requires '<' !in spec && '<' !in rest && '>' !in rest
    ensures var s := name + "<" + spec + ">" + rest;
            LastIndex(s, '<') == |name| && LastIndex(s, '>') == |name| + 1 + |spec|
  {
    hide LastIndex;
    var s, after, before := name + "<" + spec + ">" + rest, spec + ">" + rest, name + "<" + spec;
    forall i | 0 <= i < |after|
      ensures after[i] != '<'
    {
      assert after[i] == if i < |spec| then spec[i] else if i == |spec| then '>' else rest[i - |spec| - 1];
    }
    LastOf(name, '<', after);
    LastOf(before, '>', rest);
    assert s == name + ['<'] + after;
    assert s == before + ['>'] + rest;
  }

  function Folded(p: Platform, email: string): string {
    MapChars(p.lower, email)
  }

  // The addresses of the list, each kept at its first spelling.
  function FirstSpellings(p: Platform, emails: seq<string>): seq<string> {
    if emails == [] then []
    else
      var before, last := FirstSpellings(p, emails[..|emails| - 1]), emails[|emails| - 1];
      if exists e :: e in before && Folded(p, e) == Folded(p, last) then before else before + [last]
  }

  // The addresses before the first entry that is none, and that entry's error.
  function ParseAll(p: Platform, raw: seq<string>): Result<seq<string>, Error> {
    if raw == [] then Ok([])
    else
      var before := ParseAll(p, raw[..|raw| - 1]);
      if before.Err? then before
      else
        var last := ParseAddress(p, raw[|raw| - 1]);
        if last.Err? then Err(last.error) else Ok(before.value + [last.value.email])
  }

  lemma {:induction false} ParseAllPrefix(p: Platform, raw: seq<string>, k: nat)
    requires k <= |raw| && ParseAll(p, raw[..k]).Err?
    ensures ParseAll(p, raw) == ParseAll(p, raw[..k])
    decreases |raw|
  {
    if k == |raw| {
      assert raw[..k] == raw;
    } else {
      assert raw[..|raw| - 1][..k] == raw[..k];
      ParseAllPrefix(p, raw[..|raw| - 1], k);
    }
  }

  lemma SpellingStep(p: Platform, all: seq<string>, email: string)
    ensures var out := FirstSpellings(p, all);
            FirstSpellings(p, all + [email]) ==
            if exists e :: e in out && Folded(p, e) == Folded(p, email) then out else out + [email]
  {
    assert (all + [email])[..|all|] == all;
  }

  method ParseRecipients(p: Platform, raw: seq<string>) returns (r: Result<seq<string>, Error>)
    ensures |raw| == 0 ==> r == Err(NoRecipient)
    ensures |raw| > MAX_RECIPIENTS ==> r == Err(TooManyRecipients)
    ensures 0 < |raw| <= MAX_RECIPIENTS ==>
              var all := ParseAll(p, raw);
              r == if all.Err? then Err(all.error) else Ok(FirstSpellings(p, all.value))
  {
    hide ParseAddress, Folded;
    if |raw| == 0 {
      return Err(NoRecipient);
    }
    if |raw| > MAX_RECIPIENTS {
      return Err(TooManyRecipients);
    }
    var out: seq<string>, seen: set<string> := [], {};
    ghost var all: seq<string> := [];
    for i := 0 to |raw|
      invariant ParseAll(p, raw[..i]) == Ok(all)
      invariant out == FirstSpellings(p, all)
      invariant forall s :: s in seen <==> exists e :: e in out && Folded(p, e) == s
    {
      assert raw[..i + 1][..i] == raw[..i];
      var mailbox := ParseAddress(p, raw[i]);
      if mailbox.Err? {
        ParseAllPrefix(p, raw, i + 1);
        return Err(mailbox.error);
      }
      var lowered := Folded(p, mailbox.value.email);
      SpellingStep(p, all, mailbox.value.email);
      all := all + [mailbox.value.email];
      if lowered !in seen {
        seen := seen + {lowered};
        out := out + [mailbox.value.email];
      }
    }
    assert raw[..|raw|] == raw;
    r := Ok(out);
  }

  predicate Subsequence(s: seq<string>, t: seq<string>)
    decreases |t|
  {
    s == [] ||
    (t != [] &&
     (Subsequence(s, t[..|t| - 1]) || (s[|s| - 1] == t[|t| - 1] && Subsequence(s[..|s| - 1], t[..|t| - 1]))))
  }

  // The list keeps the order of the request, repeats no address in any spelling, and
  // leaves out none.
  lemma {:induction false} RecipientsMeaning(p: Platform, emails: seq<string>)
    ensures var out := FirstSpellings(p, emails);
            && Subsequence(out, emails)
            && (forall i, j :: 0 <= i < j < |out| ==> Folded(p, out[i]) != Folded(p, out[j]))
            && (forall e :: e in emails ==> exists k :: k in out && Folded(p, k) == Folded(p, e))
  {
    if emails != [] {
      hide Folded;
      RecipientsMeaning(p, emails[..|emails| - 1]);
      var before, last := FirstSpellings(p, emails[..|emails| - 1]), emails[|emails| - 1];
      var out := FirstSpellings(p, emails);
      if out != before {
        assert out[..|out| - 1] == before;
        assert last in out;
      }
      forall e | e in emails
        ensures exists k :: k in out && Folded(p, k) == Folded(p, e)
      {
        if e in emails[..|emails| - 1] {
          var k :| k in before && Folded(p, k) == Folded(p, e);
          assert k in out;
        } else {
          assert e == last;
        }
      }
    }
  }

  function ValidateSubject(s: string): Option<Error> {
    if TrimSpace(s) == "" then Some(SubjectRequired)
    else if ContainsControl(s) then Some(ControlCharacter)
    else if |s| > MAX_SUBJECT_LENGTH then Some(SubjectTooLong)
    else None
  }

  predicate LegalNameChar(c: char) {
    0x20 < c as int <= 0x7F && c != ':'
  }

  function ValidateCustomHeader(p: Platform, name: string, value: string): Option<Error> {
    if name == "" then Some(HeaderNameRequired)
    else if !("X-" <= MapChars(p.upper, name)) then Some(NotCustom(name))
    else if exists i :: 0 <= i < |name| && !LegalNameChar(name[i]) then Some(IllegalName(name))
    else if ContainsControl(value) then Some(ControlCharacter)
    else None
  }
}
