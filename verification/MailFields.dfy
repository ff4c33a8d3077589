// What the next reader finds in a built message, field by field, from the envelope alone.
module MailFields {
  import opened Prelude
  import opened Text
  import opened MailBuild
  import opened MailProofs
  import Address

  // ---- Fields by name ----

  // The values of the fields of this name, in order.
  function Values(headers: seq<Header>, name: string): seq<string> {
    if headers == [] then []
    else (if headers[0].name == name then [headers[0].value] else []) + Values(headers[1..], name)
  }

  lemma {:induction false} ValuesAppend(a: seq<Header>, b: seq<Header>, name: string)
    ensures Values(a + b, name) == Values(a, name) + Values(b, name)
  {
    if a == [] {
      assert a + b == b;
    } else {
      assert (a + b)[0] == a[0] && (a + b)[1..] == a[1..] + b;
      ValuesAppend(a[1..], b, name);
    }
  }

  lemma {:induction false} ValuesNone(headers: seq<Header>, name: string)
    requires forall h :: h in headers ==> h.name != name
    ensures Values(headers, name) == []
  {
    if headers != [] {
      ValuesNone(headers[1..], name);
    }
  }

  lemma {:induction false} ValuesOne(headers: seq<Header>, i: nat)
    requires i < |headers| && forall j :: 0 <= j < |headers| && j != i ==> headers[j].name != headers[i].name
    ensures Values(headers, headers[i].name) == [headers[i].value]
  {
    var name := headers[i].name;
    if i == 0 {
      forall h | h in headers[1..]
        ensures h.name != name
      {
        var j :| 0 <= j < |headers[1..]| && headers[1..][j] == h;
        assert headers[j + 1] == h;
      }
      ValuesNone(headers[1..], name);
    } else {
      ValuesOne(headers[1..], i - 1);
    }
  }

  // ---- The list of recipients ----

  const SEPARATOR := ", "

  // The text cut at every separator.
  function Cut(s: string): seq<string>
    decreases |s|
  {
    var i := Index(s, SEPARATOR);
    if i < 0 then [s] else [s[..i]] + Cut(s[i + 2..])
  }

  lemma FirstSeparator(part: string, rest: string)
    requires !Contains(part, SEPARATOR)
    ensures Index(part + SEPARATOR + rest, SEPARATOR) == |part|
  {
    var s := part + SEPARATOR + rest;
    assert s[|part|..|part| + 2] == SEPARATOR;
    forall j | 0 <= j < |part|
      ensures !OccursAt(s, SEPARATOR, j)
    {
      if j + 1 < |part| {
        assert s[j..j + 2] == part[j..j + 2];
        assert !OccursAt(part, SEPARATOR, j);
      } else {
        assert s[j..j + 2][1] == ',';
      }
    }
    IndexIs(s, SEPARATOR, |part|);
  }

  lemma {:induction false} CutJoin(parts: seq<string>)
    requires parts != [] && forall p :: p in parts ==> !Contains(p, SEPARATOR)
    ensures Cut(Join(parts, SEPARATOR)) == parts
  {
    hide Contains, Index;
    var first, tail := parts[0], parts[1..];
    assert first in parts;
    if |parts| == 1 {
      IsPlain(first);
    } else {
      CutJoin(tail);
      var rest := Join(tail, SEPARATOR);
      FirstSeparator(first, rest);
      var s := first + SEPARATOR + rest;
      assert s[..|first|] == first && s[|first| + 2..] == rest;
      assert parts == [first] + tail;
    }
  }

  lemma IsPlain(part: string)
    requires !Contains(part, SEPARATOR)
    ensures Index(part, SEPARATOR) < 0
  {
  }

  // ---- The names ----

  // A custom name begins with an x, and no other name does.
  predicate Custom(name: string) {
    name != "" && (name[0] == 'x' || name[0] == 'X')
  }

  // Only the two letters x have the upper case X.
  ghost predicate UpperLaw(p: Address.Platform) {
    forall c :: p.upper(c) == 'X' ==> c == 'x' || c == 'X'
  }

  lemma CustomNames(p: Platform, extra: map<string, string>, customs: seq<Header>)
    requires UpperLaw(p.address) && Customs(p, extra, customs)
    ensures forall h :: h in customs ==> Custom(h.name)
  {
    forall h | h in customs
      ensures Custom(h.name)
    {
      var upper := MapChars(p.address.upper, h.name);
      assert "X-" <= upper;
      assert upper[0] == "X-"[0];
    }
  }

  lemma NamesDiffer()
    ensures "From" != "Date" && "Content-Type" != "MIME-Version"
    ensures !Custom("From") && !Custom("To") && !Custom("Reply-To") && !Custom("Subject") && !Custom("Message-ID")
    ensures !Custom("Date") && !Custom("MIME-Version") && !Custom("List-Unsubscribe") && !Custom("List-Unsubscribe-Post")
    ensures !Custom("Content-Type") && !Custom("Content-Transfer-Encoding")
  {
    assert "From"[0] != "Date"[0] && "Content-Type"[0] != "MIME-Version"[0];
  }

  // What no header holds: in a value a control other than the tab, in a custom name anything
  // but visible ASCII without the colon, or DEL.
  lemma Allowed(c: char)
    ensures Address.IsControl(c) <==> (0 <= c as int <= 8 || 10 <= c as int <= 31 || c as int == 127)
    ensures Address.LegalNameChar(c) <==> (33 <= c as int <= 57 || 59 <= c as int <= 127)
  {
  }

  // What a reader of the fixed fields finds: six fields once each, three exactly if they are set.
  ghost predicate Envelopes(p: Platform, e: Envelope, headers: seq<Header>) {
    && Values(headers, "From") == [e.from]
    && |Values(headers, "To")| == 1
    && (e.to != [] && (forall a :: a in e.to ==> !Contains(a, ", ")) ==> Cut(Values(headers, "To")[0]) == e.to)
    && Values(headers, "Reply-To") == (if e.replyTo != "" then [e.replyTo] else [])
    && Values(headers, "Subject") == [p.qEncode(e.subject)]
    && Values(headers, "Message-ID") == ["<" + e.messageId + ">"]
    && Values(headers, "Date") == [e.date]
    && Values(headers, "MIME-Version") == ["1.0"]
    && Values(headers, "List-Unsubscribe") == (if e.unsubscribeUrl != "" then ["<" + e.unsubscribeUrl + ">"] else [])
    && Values(headers, "List-Unsubscribe-Post") == (if e.unsubscribeUrl != "" then ["List-Unsubscribe=One-Click"] else [])
  }

  // Two parts exactly if there is HTML.
  ghost predicate Typed(p: Platform, e: Envelope, headers: seq<Header>) {
    if TrimSpace(e.html) != "" then
      && Values(headers, "Content-Type") == ["multipart/alternative; boundary=\"" + Boundary(p.random) + "\""]
      && Values(headers, "Content-Transfer-Encoding") == []
    else
      && Values(headers, "Content-Type") == ["text/plain; charset=utf-8"]
      && Values(headers, "Content-Transfer-Encoding") == ["quoted-printable"]
  }

  // The four stretches of the fixed headers.
  lemma Stretches(p: Platform, e: Envelope, name: string)
    ensures Values(FixedHeaders(p, e), name) ==
            Values([Header("From", e.from), Header("To", Join(e.to, ", "))], name)
            + Values(When(e.replyTo != "", [Header("Reply-To", e.replyTo)]), name)
            + Values([Header("Subject", p.qEncode(e.subject)), Header("Message-ID", "<" + e.messageId + ">"), Header("Date", e.date),
                      Header("MIME-Version", "1.0")], name)
            + Values(When(e.unsubscribeUrl != "", [Header("List-Unsubscribe", "<" + e.unsubscribeUrl + ">"),
                                                   Header("List-Unsubscribe-Post", "List-Unsubscribe=One-Click")]), name)
  {
    hide Values, Join, When;
    var a := [Header("From", e.from), Header("To", Join(e.to, ", "))];
    var b := When(e.replyTo != "", [Header("Reply-To", e.replyTo)]);
    var c := [Header("Subject", p.qEncode(e.subject)), Header("Message-ID", "<" + e.messageId + ">"), Header("Date", e.date),
              Header("MIME-Version", "1.0")];
    var d := When(e.unsubscribeUrl != "", [Header("List-Unsubscribe", "<" + e.unsubscribeUrl + ">"),
                                           Header("List-Unsubscribe-Post", "List-Unsubscribe=One-Click")]);
    assert FixedHeaders(p, e) == a + b + c + d;
    ValuesAppend(a + b + c, d, name);
    ValuesAppend(a + b, c, name);
    ValuesAppend(a, b, name);
  }

  function Only(h: Header, name: string): seq<string> {
    if h.name == name then [h.value] else []
  }

  lemma Few(name: string, h: Header, g: Header)
    ensures Values([], name) == []
    ensures Values([h], name) == Only(h, name)
    ensures Values([h, g], name) == Only(h, name) + Only(g, name)
  {
    assert [h][1..] == [] && [h, g][1..] == [g];
    assert Values([g], name) == Only(g, name) + Values([g][1..], name);
  }

  lemma Four(name: string, a: Header, b: Header, c: Header, d: Header)
    ensures Values([a, b, c, d], name) == Only(a, name) + Only(b, name) + Only(c, name) + Only(d, name)
  {
    hide Values, Only;
    Few(name, a, b);
    Few(name, c, d);
    ValuesAppend([a, b], [c, d], name);
    assert [a, b] + [c, d] == [a, b, c, d];
    assert Only(a, name) + Only(b, name) + (Only(c, name) + Only(d, name)) ==
           Only(a, name) + Only(b, name) + Only(c, name) + Only(d, name);
  }

  // The fixed headers, read for one name at a time.
  lemma FixedFor(p: Platform, e: Envelope, name: string)
    ensures Values(FixedHeaders(p, e), name) ==
            (if name == "From" then [e.from] else []) + (if name == "To" then [Join(e.to, ", ")] else [])
            + (if name == "Reply-To" && e.replyTo != "" then [e.replyTo] else [])
            + (if name == "Subject" then [p.qEncode(e.subject)] else [])
            + (if name == "Message-ID" then ["<" + e.messageId + ">"] else [])
            + (if name == "Date" then [e.date] else [])
            + (if name == "MIME-Version" then ["1.0"] else [])
            + (if name == "List-Unsubscribe" && e.unsubscribeUrl != "" then ["<" + e.unsubscribeUrl + ">"] else [])
            + (if name == "List-Unsubscribe-Post" && e.unsubscribeUrl != "" then ["List-Unsubscribe=One-Click"] else [])
  {
    Stretches(p, e, name);
    Few(name, Header("From", e.from), Header("To", Join(e.to, ", ")));
    Few(name, Header("Reply-To", e.replyTo), Header("Reply-To", e.replyTo));
    Four(name, Header("Subject", p.qEncode(e.subject)), Header("Message-ID", "<" + e.messageId + ">"), Header("Date", e.date),
         Header("MIME-Version", "1.0"));
    Few(name, Header("List-Unsubscribe", "<" + e.unsubscribeUrl + ">"),
        Header("List-Unsubscribe-Post", "List-Unsubscribe=One-Click"));
    hide Values, FixedHeaders, Join;
  }

  lemma ContentFor(p: Platform, e: Envelope, name: string)
    ensures Values(ContentHeaders(p, e), name) ==
            if TrimSpace(e.html) != "" then
              if name == "Content-Type" then ["multipart/alternative; boundary=\"" + Boundary(p.random) + "\""] else []
            else (if name == "Content-Type" then ["text/plain; charset=utf-8"] else [])
                 + (if name == "Content-Transfer-Encoding" then ["quoted-printable"] else [])
  {
    var multipart := MULTIPART + Quote(Boundary(p.random));
    assert multipart == "multipart/alternative; boundary=\"" + Boundary(p.random) + "\"";
    Few(name, Header("Content-Type", multipart), Header("Content-Type", multipart));
    Few(name, Header("Content-Type", "text/plain; charset=utf-8"), Header("Content-Transfer-Encoding", "quoted-printable"));
    hide Values, Boundary, TrimSpace;
  }

  ghost predicate Reads(p: Platform, e: Envelope, customs: seq<Header>, headers: seq<Header>) {
    && UpperLaw(p.address) && Customs(p, e.extra, customs)
    && headers == FixedHeaders(p, e) + customs + ContentHeaders(p, e)
  }

  // Which part of the message a name is found in.
  lemma ByName(p: Platform, e: Envelope, customs: seq<Header>, headers: seq<Header>, name: string)
    requires Reads(p, e, customs, headers)
    ensures Values(headers, name) == Values(FixedHeaders(p, e), name) + Values(customs, name) + Values(ContentHeaders(p, e), name)
    ensures !Custom(name) ==> Values(customs, name) == []
  {
    CustomNames(p, e.extra, customs);
    hide FixedHeaders, ContentHeaders, Customs, Values, Custom;
    ValuesAppend(FixedHeaders(p, e) + customs, ContentHeaders(p, e), name);
    ValuesAppend(FixedHeaders(p, e), customs, name);
    if !Custom(name) {
      ValuesNone(customs, name);
    }
  }

  lemma FixedRead(p: Platform, e: Envelope, customs: seq<Header>, headers: seq<Header>, name: string)
    requires Reads(p, e, customs, headers)
    requires name in {"From", "To", "Reply-To", "Subject", "Message-ID", "Date", "MIME-Version", "List-Unsubscribe",
                      "List-Unsubscribe-Post"}
    ensures Values(headers, name) == Values(FixedHeaders(p, e), name)
  {
    hide Reads, FixedHeaders, ContentHeaders, Values, Custom;
    NamesDiffer();
    ByName(p, e, customs, headers, name);
    ContentFor(p, e, name);
    hide Boundary, TrimSpace;
  }

  lemma AddressesRead(p: Platform, e: Envelope, customs: seq<Header>, headers: seq<Header>)
    requires Reads(p, e, customs, headers)
    ensures Values(headers, "From") == [e.from] && Values(headers, "To") == [Join(e.to, ", ")]
    ensures Values(headers, "Reply-To") == if e.replyTo != "" then [e.replyTo] else []
  {
    hide *;
    FixedRead(p, e, customs, headers, "From");
    FixedRead(p, e, customs, headers, "To");
    FixedRead(p, e, customs, headers, "Reply-To");
    FixedFor(p, e, "From");
    FixedFor(p, e, "To");
    FixedFor(p, e, "Reply-To");
    NamesDiffer();
  }

  lemma TraceRead(p: Platform, e: Envelope, customs: seq<Header>, headers: seq<Header>)
    requires Reads(p, e, customs, headers)
    ensures Values(headers, "Subject") == [p.qEncode(e.subject)] && Values(headers, "Message-ID") == ["<" + e.messageId + ">"]
    ensures Values(headers, "Date") == [e.date] && Values(headers, "MIME-Version") == ["1.0"]
  {
    hide *;
    FixedRead(p, e, customs, headers, "Subject");
    FixedRead(p, e, customs, headers, "Message-ID");
    FixedRead(p, e, customs, headers, "Date");
    FixedRead(p, e, customs, headers, "MIME-Version");
    FixedFor(p, e, "Subject");
    FixedFor(p, e, "Message-ID");
    FixedFor(p, e, "Date");
    FixedFor(p, e, "MIME-Version");
    NamesDiffer();
  }

  lemma ListRead(p: Platform, e: Envelope, customs: seq<Header>, headers: seq<Header>)
    requires Reads(p, e, customs, headers)
    ensures Values(headers, "List-Unsubscribe") == if e.unsubscribeUrl != "" then ["<" + e.unsubscribeUrl + ">"] else []
    ensures Values(headers, "List-Unsubscribe-Post") == if e.unsubscribeUrl != "" then ["List-Unsubscribe=One-Click"] else []
  {
    hide *;
    FixedRead(p, e, customs, headers, "List-Unsubscribe");
    FixedRead(p, e, customs, headers, "List-Unsubscribe-Post");
    FixedFor(p, e, "List-Unsubscribe");
    FixedFor(p, e, "List-Unsubscribe-Post");
    NamesDiffer();
  }

  lemma EnvelopeRead(p: Platform, e: Envelope, customs: seq<Header>, headers: seq<Header>)
    requires Reads(p, e, customs, headers)
    ensures Envelopes(p, e, headers)
  {
    hide Reads, FixedHeaders, Values, Join, Custom, Contains, Cut;
    AddressesRead(p, e, customs, headers);
    TraceRead(p, e, customs, headers);
    ListRead(p, e, customs, headers);
    if e.to != [] && (forall a :: a in e.to ==> !Contains(a, ", ")) {
      CutJoin(e.to);
    }
  }

  lemma TypeRead(p: Platform, e: Envelope, customs: seq<Header>, headers: seq<Header>)
    requires Reads(p, e, customs, headers)
    ensures Typed(p, e, headers)
  {
    hide Reads, FixedHeaders, ContentHeaders, Values, Custom, Join, Boundary, TrimSpace;
    NamesDiffer();
    ByName(p, e, customs, headers, "Content-Type");
    ByName(p, e, customs, headers, "Content-Transfer-Encoding");
    FixedFor(p, e, "Content-Type");
    FixedFor(p, e, "Content-Transfer-Encoding");
    ContentFor(p, e, "Content-Type");
    ContentFor(p, e, "Content-Transfer-Encoding");
  }

  lemma CustomOnce(p: Platform, e: Envelope, customs: seq<Header>, name: string)
    requires UpperLaw(p.address) && Customs(p, e.extra, customs) && name in e.extra && Header(name, e.extra[name]) in customs
    ensures Custom(name) && Values(customs, name) == [e.extra[name]]
  {
    CustomNames(p, e.extra, customs);
    var i :| 0 <= i < |customs| && customs[i] == Header(name, e.extra[name]);
    assert Custom(customs[i].name);
    hide Custom;
    ValuesOne(customs, i);
  }

  // No field of the message's own has a custom name.
  lemma CustomOnly(p: Platform, e: Envelope, name: string)
    requires Custom(name)
    ensures Values(FixedHeaders(p, e), name) == [] && Values(ContentHeaders(p, e), name) == []
  {
    hide Values, FixedHeaders, ContentHeaders, Custom, Boundary, TrimSpace, Join;
    NamesDiffer();
    FixedFor(p, e, name);
    ContentFor(p, e, name);
  }

  lemma CustomRead(p: Platform, e: Envelope, customs: seq<Header>, headers: seq<Header>, name: string)
    requires Reads(p, e, customs, headers) && name in e.extra && Header(name, e.extra[name]) in customs
    ensures Custom(name) && Values(headers, name) == [e.extra[name]]
  {
    hide Values, FixedHeaders, ContentHeaders, Custom, UpperLaw, Customs;
    ByName(p, e, customs, headers, name);
    CustomOnce(p, e, customs, name);
    CustomOnly(p, e, name);
  }

  // A message Build has made, read up to its first blank line: one sender, one list of the
  // recipients, and each other field as often as it should be there, with the envelope's
  // value. Each custom header is there once, and none can pass for another field. The body is
  // the text, or what is derived from the HTML in want of one, and the HTML after it if any.
  lemma MessageRead(p: Platform, e: Envelope, customs: seq<Header>) returns (headers: seq<Header>, body: string)
    requires UpperLaw(p.address) && Safe(FixedHeaders(p, e))
    requires Customs(p, e.extra, customs) && forall name :: name in e.extra ==> Header(name, e.extra[name]) in customs
    ensures ReadHead(Head(FixedHeaders(p, e) + customs + ContentHeaders(p, e)) + "\r\n" + Body(p, e)) == Some((headers, body))
    ensures Envelopes(p, e, headers) && Typed(p, e, headers)
    ensures forall name :: name in e.extra ==> Custom(name) && Values(headers, name) == [e.extra[name]]
    ensures forall h :: h in headers && Custom(h.name) ==> h.name in e.extra
    ensures var text := p.quotedPrintable(if TrimSpace(e.text) != "" then e.text else PlainText(e.html));
            body == if TrimSpace(e.html) == "" then text else p.multipart(Boundary(p.random), text, p.quotedPrintable(e.html))
  {
    hide ReadHead, Head, Envelopes, Typed, Values, Boundary, TrimSpace, PlainText, Safe;
    HeadersReadBack(p, e, customs);
    headers, body := FixedHeaders(p, e) + customs + ContentHeaders(p, e), Body(p, e);
    assert Reads(p, e, customs, headers);
    EnvelopeRead(p, e, customs, headers);
    TypeRead(p, e, customs, headers);
    forall name | name in e.extra
      ensures Custom(name) && Values(headers, name) == [e.extra[name]]
    {
      CustomRead(p, e, customs, headers, name);
    }
    NamesDiffer();
    NotCustom(p, e);
    hide FixedHeaders, ContentHeaders, Custom;
  }

  lemma NotCustom(p: Platform, e: Envelope)
    ensures forall h :: h in FixedHeaders(p, e) ==> !Custom(h.name)
    ensures forall h :: h in ContentHeaders(p, e) ==> !Custom(h.name)
  {
    forall h | h in FixedHeaders(p, e)
      ensures !Custom(h.name)
    {
      NotCustomOne(p, e, h);
    }
    NamesDiffer();
    hide Custom, Boundary, TrimSpace, FixedHeaders, Quote, HasHtml;
  }

  lemma NotCustomOne(p: Platform, e: Envelope, h: Header)
    requires h in FixedHeaders(p, e)
    ensures !Custom(h.name)
  {
    hide Custom, Join;
    NamesDiffer();
  }
}
