// internal/mail/build.go: the headers of an RFC 5322 message, and the plain text derived
// from HTML.
//
// Q-encoding, quoted-printable, the multipart writer and the date format are parameters.
module MailBuild {
  import opened Prelude
  import opened Text
  import opened Utf8
  import Address

  datatype Envelope = Envelope(messageId: string, from: string, to: seq<string>, subject: string, html: string, text: string,
                               replyTo: string, extra: map<string, string>, date: string, unsubscribeUrl: string)

  datatype Header = Header(name: string, value: string)

  // random is what the multipart writer draws its boundary from.
  datatype Platform = Platform(address: Address.Platform, qEncode: string -> string, quotedPrintable: string -> string,
                               multipart: (string, string, string) -> string, random: Bytes)

  function HexDigit(d: nat): char
    requires d < 16
  {
    if d < 10 then ('0' as int + d) as char else ('a' as int + d - 10) as char
  }

  // The boundary: random bytes in hexadecimal.
  function Boundary(random: Bytes): string {
    if random == [] then "" else [HexDigit(random[0] / 16), HexDigit(random[0] % 16)] + Boundary(random[1..])
  }

  function Join(parts: seq<string>, separator: string): string {
    if parts == [] then "" else if |parts| == 1 then parts[0]
    else parts[0] + separator + Join(parts[1..], separator)
  }

  // One header line.
  function Line(h: Header): string {
    h.name + ": " + h.value + "\r\n"
  }

  function Head(headers: seq<Header>): string {
    if headers == [] then "" else Head(headers[..|headers| - 1]) + Line(headers[|headers| - 1])
  }

  function When(condition: bool, headers: seq<Header>): seq<Header> {
    if condition then headers else []
  }

  // The headers before the custom ones.
  function FixedHeaders(p: Platform, e: Envelope): seq<Header> {
    [Header("From", e.from), Header("To", Join(e.to, ", "))]
    + When(e.replyTo != "", [Header("Reply-To", e.replyTo)])
    + [Header("Subject", p.qEncode(e.subject)), Header("Message-ID", "<" + e.messageId + ">"), Header("Date", e.date),
       Header("MIME-Version", "1.0")]
    + When(e.unsubscribeUrl != "", [Header("List-Unsubscribe", "<" + e.unsubscribeUrl + ">"),
                                    Header("List-Unsubscribe-Post", "List-Unsubscribe=One-Click")])
  }

  predicate HasHtml(e: Envelope) {
    TrimSpace(e.html) != ""
  }

  const CONTENT_TYPE := "Content-Type"
  const MULTIPART := "multipart/alternative; boundary="

  // %q of a text with nothing to escape.
  function Quote(s: string): string {
    "\"" + s + "\""
  }

  // The headers after them.
  function ContentHeaders(p: Platform, e: Envelope): seq<Header> {
    if HasHtml(e) then [Header(CONTENT_TYPE, MULTIPART + Quote(Boundary(p.random)))]
    else [Header("Content-Type", "text/plain; charset=utf-8"), Header("Content-Transfer-Encoding", "quoted-printable")]
  }

  function TextPart(e: Envelope): string {
    if TrimSpace(e.text) == "" then PlainText(e.html) else e.text
  }

  function Body(p: Platform, e: Envelope): string {
    if HasHtml(e) then p.multipart(Boundary(p.random), p.quotedPrintable(TextPart(e)), p.quotedPrintable(e.html))
    else p.quotedPrintable(TextPart(e))
  }

  // ---- PlainTextFrom ----

  // What the loop keeps: the text outside tags, with a space for every '>'.
  function Strip(s: string, inTag: bool): string {
    if s == "" then ""
    else if s[0] == '<' then Strip(s[1..], true)
    else if s[0] == '>' then [' '] + Strip(s[1..], false)
    else (if inTag then "" else [s[0]]) + Strip(s[1..], inTag)
  }

  function PlainText(html: string): string {
    TrimSpace(Join(Fields(Strip(html, false), IsSpace), " "))
  }

  lemma StripStep(html: string, i: nat, out: string, inTag: bool)
    requires i < |html|
    ensures var r, rest := html[i], html[i + 1..];
            out + Strip(html[i..], inTag) ==
            if r == '<' then out + Strip(rest, true)
            else if r == '>' then (out + [' ']) + Strip(rest, false)
            else if inTag then out + Strip(rest, true)
            else (out + [r]) + Strip(rest, false)
  {
    assert html[i..][0] == html[i] && html[i..][1..] == html[i + 1..];
  }

  lemma StripEnds(html: string, out: string, inTag: bool)
    ensures out + Strip(html[|html|..], inTag) == out && html[0..] == html && "" + Strip(html, false) == Strip(html, false)
  {
    assert html[|html|..] == "";
  }

  method PlainTextFrom(html: string) returns (text: string)
    ensures text == PlainText(html)
  {
    hide Strip, TrimSpace, Join, Fields, IsSpace;
    var out, inTag := "", false;
    StripEnds(html, out, inTag);
    for i := 0 to |html|
      invariant Strip(html, false) == out + Strip(html[i..], inTag)
    {
      StripStep(html, i, out, inTag);
      var r := html[i];
      if r == '<' {
        inTag := true;
      } else if r == '>' {
        inTag := false;
        out := out + [' '];
      } else if !inTag {
        out := out + [r];
      }
    }
    StripEnds(html, out, inTag);
    text := TrimSpace(Join(Fields(out, IsSpace), " "));
  }

  // ---- Build ----

  // Writes one header unless its value holds a control character.
  method Write(buf: string, h: Header) returns (r: Result<string, Address.Error>)
    ensures r == if Address.ContainsControl(h.value) then Err(Address.ControlCharacter) else Ok(buf + Line(h))
  {
    if Address.ContainsControl(h.value) {
      return Err(Address.ControlCharacter);
    }
    return Ok(buf + (h.name + ": " + h.value + "\r\n"));
  }

  ghost predicate Safe(headers: seq<Header>) {
    forall h :: h in headers ==> !Address.ContainsControl(h.value)
  }

  lemma HeadStep(headers: seq<Header>, h: Header)
    ensures Head(headers + [h]) == Head(headers) + Line(h)
  {
    assert (headers + [h])[..|headers|] == headers;
  }

  method WriteAll(buf: string, headers: seq<Header>) returns (r: Result<string, Address.Error>)
    ensures r.Ok? <==> Safe(headers)
    ensures r.Ok? ==> r.value == buf + Head(headers)
    ensures r.Err? ==> r.error == Address.ControlCharacter
  {
    var out := buf;
    for i := 0 to |headers|
      invariant out == buf + Head(headers[..i])
      invariant Safe(headers[..i])
    {
      assert headers[..i + 1] == headers[..i] + [headers[i]];
      HeadStep(headers[..i], headers[i]);
      var next := Write(out, headers[i]);
      if next.Err? {
        assert headers[i] in headers;
        return next;
      }
      out := next.value;
    }
    assert headers[..|headers|] == headers;
    r := Ok(out);
  }

  // The custom headers in some order, each legal.
  ghost predicate Customs(p: Platform, extra: map<string, string>, headers: seq<Header>) {
    && (forall i, j :: 0 <= i < j < |headers| ==> headers[i].name != headers[j].name)
    && (forall h :: h in headers ==> h.name in extra && extra[h.name] == h.value)
    && (forall h :: h in headers ==> Address.ValidateCustomHeader(p.address, h.name, h.value).None?)
  }

  lemma {:induction false} HeadAppend(a: seq<Header>, b: seq<Header>)
    ensures Head(a + b) == Head(a) + Head(b)
  {
    if b == [] {
      assert a + b == a;
    } else {
      assert (a + b)[..|a + b| - 1] == a + b[..|b| - 1];
      HeadAppend(a, b[..|b| - 1]);
    }
  }

  lemma CustomsStart(p: Platform, extra: map<string, string>)
    ensures Customs(p, extra, []) && Head([]) == ""
  {
  }

  lemma CustomsStep(p: Platform, extra: map<string, string>, customs: seq<Header>, name: string)
    requires Customs(p, extra, customs) && name in extra && Header(name, extra[name]) !in customs
    requires Address.ValidateCustomHeader(p.address, name, extra[name]).None?
    ensures Customs(p, extra, customs + [Header(name, extra[name])])
    ensures !Address.ContainsControl(extra[name])
  {
    hide MapChars;
    forall i | 0 <= i < |customs|
      ensures customs[i].name != name
    {
      assert customs[i] in customs;
    }
  }

  method WriteCustoms(p: Platform, extra: map<string, string>, buf: string)
    returns (r: Result<string, Address.Error>, ghost customs: seq<Header>)
    ensures r.Ok? ==> Customs(p, extra, customs) && (forall name :: name in extra ==> Header(name, extra[name]) in customs)
    ensures r.Ok? ==> r.value == buf + Head(customs)
    ensures r.Err? ==> exists name :: name in extra && Address.ValidateCustomHeader(p.address, name, extra[name]) == Some(r.error)
  {
    hide Address.ContainsControl, Address.ValidateCustomHeader, Customs, Head;
    customs := [];
    CustomsStart(p, extra);
    var out, names := buf, extra.Keys;
    while names != {}
      invariant names <= extra.Keys
      invariant Customs(p, extra, customs)
      invariant forall name :: name in extra ==> (name in names <==> Header(name, extra[name]) !in customs)
      invariant out == buf + Head(customs)
      decreases names
    {
      var name :| name in names;
      var value := extra[name];
      var problem := Address.ValidateCustomHeader(p.address, name, value);
      if problem.Some? {
        return Err(problem.value), customs;
      }
      var next := Write(out, Header(name, value));
      HeadStep(customs, Header(name, value));
      CustomsStep(p, extra, customs, name);
      out := next.value;
      customs := customs + [Header(name, value)];
      names := names - {name};
    }
    r := Ok(out);
  }

  lemma PlainTypeLine()
    ensures Line(Header("Content-Type", "text/plain; charset=utf-8")) == "Content-Type: text/plain; charset=utf-8\r\n"
  {
  }

  lemma EncodingLine()
    ensures Line(Header("Content-Transfer-Encoding", "quoted-printable")) + "\r\n" ==
            "Content-Transfer-Encoding: quoted-printable\r\n\r\n"
  {
  }

  lemma MultipartLine(boundary: string)
    ensures Line(Header(CONTENT_TYPE, MULTIPART + Quote(boundary))) + "\r\n" ==
            CONTENT_TYPE + ": " + MULTIPART + Quote(boundary) + "\r\n" + "\r\n"
  {
    hide Quote;
  }

  // The text the content headers and the blank line are written as.
  lemma ContentText(p: Platform, e: Envelope)
    ensures Head(ContentHeaders(p, e)) + "\r\n" ==
            if HasHtml(e) then CONTENT_TYPE + ": " + MULTIPART + Quote(Boundary(p.random)) + "\r\n" + "\r\n"
            else "Content-Type: text/plain; charset=utf-8\r\n" + "Content-Transfer-Encoding: quoted-printable\r\n\r\n"
  {
    hide HasHtml, Line, Boundary, Head;
    CustomsStart(p, map[]);
    PlainTypeLine();
    EncodingLine();
    MultipartLine(Boundary(p.random));
    var h := ContentHeaders(p, e)[0];
    HeadStep([], h);
    assert [] + [h] == [h];
    if !HasHtml(e) {
      var g := ContentHeaders(p, e)[1];
      HeadStep([h], g);
      assert [h] + [g] == ContentHeaders(p, e);
      assert "" + Line(h) + Line(g) + "\r\n" == Line(h) + (Line(g) + "\r\n");
    } else {
      assert "" + Line(h) == Line(h);
    }
  }

  // customs is the order in which the custom headers were written, which is any.
  method Build(p: Platform, e: Envelope) returns (r: Result<string, Address.Error>, ghost customs: seq<Header>)
    ensures r.Ok? ==> Address.ValidateSubject(e.subject).None? && e.to != []
    ensures r.Ok? ==>
              && Customs(p, e.extra, customs) && (forall name :: name in e.extra ==> Header(name, e.extra[name]) in customs)
              && Safe(FixedHeaders(p, e))
              && r.value == Head(FixedHeaders(p, e) + customs + ContentHeaders(p, e)) + "\r\n" + Body(p, e)
    ensures r.Err? ==>
              if Address.ValidateSubject(e.subject).Some? then Some(r.error) == Address.ValidateSubject(e.subject)
              else if e.to == [] then r.error == Address.NoRecipient
              else if !Safe(FixedHeaders(p, e)) then r.error == Address.ControlCharacter
              else exists name :: name in e.extra && Address.ValidateCustomHeader(p.address, name, e.extra[name]) == Some(r.error)
  {
    hide Customs, Safe, Head, FixedHeaders, ContentHeaders, Address.ValidateSubject, Address.ValidateCustomHeader, PlainText,
         TrimSpace, Boundary, Address.ContainsControl, Line, Quote;
    customs := [];
    var subject := Address.ValidateSubject(e.subject);
    if subject.Some? {
      return Err(subject.value), customs;
    }
    if |e.to| == 0 {
      return Err(Address.NoRecipient), customs;
    }
    var fixed := WriteAll("", FixedHeaders(p, e));
    if fixed.Err? {
      return fixed, customs;
    }
    var buf;
    buf, customs := WriteCustoms(p, e.extra, fixed.value);
    if buf.Err? {
      return buf, customs;
    }
    var text := e.text;
    if TrimSpace(text) == "" {
      text := PlainTextFrom(e.html);
    }
    HeadAppend(FixedHeaders(p, e), customs);
    HeadAppend(FixedHeaders(p, e) + customs, ContentHeaders(p, e));
    ContentText(p, e);
    ghost var head := Head(FixedHeaders(p, e)) + Head(customs);
    assert "" + Head(FixedHeaders(p, e)) == Head(FixedHeaders(p, e));
    assert head + Head(ContentHeaders(p, e)) + "\r\n" == head + (Head(ContentHeaders(p, e)) + "\r\n");
    var out := buf.value;
    if TrimSpace(e.html) == "" {
      out := out + ("Content-Type: text/plain; charset=utf-8\r\n" + "Content-Transfer-Encoding: quoted-printable\r\n\r\n");
      return Ok(out + p.quotedPrintable(text)), customs;
    }
    var boundary := Boundary(p.random);
    var body := p.multipart(boundary, p.quotedPrintable(text), p.quotedPrintable(e.html));
    out := out + (CONTENT_TYPE + ": " + MULTIPART + Quote(boundary) + "\r\n" + "\r\n");
    return Ok(out + body), customs;
  }
}
