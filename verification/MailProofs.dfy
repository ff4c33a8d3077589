// What a built message says to the next reader.
module MailProofs {
  import opened Prelude
  import opened Text
  import opened Utf8
  import opened MailBuild
  import Address

  // ---- Headers ----

  const CRLF := "\r\n"

  // A reader of header fields, after sections 2.1 and 2.2 of RFC 5322: lines up to the
  // first empty one, each a name, a colon and a value, none of them folded.
  function ReadHead(s: string): Option<(seq<Header>, string)>
    decreases |s|
  {
    var eol := Index(s, CRLF);
    if eol < 0 then None
    else if eol == 0 then Some(([], s[2..]))
    else
      var line := s[..eol];
      var colon := Index(line, ":");
      if colon <= 0 || line[0] == ' ' || line[0] == '\t' then None
      else
        var after := line[colon + 1..];
        var value := if after != "" && after[0] == ' ' then after[1..] else after;
        var rest := ReadHead(s[eol + 2..]);
        if rest.None? then None else Some(([Header(line[..colon], value)] + rest.value.0, rest.value.1))
  }

  predicate GoodName(name: string) {
    name != "" && ':' !in name && '\r' !in name && name[0] != ' ' && name[0] != '\t'
  }

  predicate Good(h: Header) {
    GoodName(h.name) && '\r' !in h.value
  }

  lemma FirstCr(text: string, rest: string)
    requires '\r' !in text
    ensures Index(text + CRLF + rest, CRLF) == |text|
  {
    var s := text + CRLF + rest;
    assert s[|text|..|text| + 2] == CRLF;
    forall j | 0 <= j < |text|
      ensures !OccursAt(s, CRLF, j)
    {
      assert s[j..j + 2][0] == text[j];
    }
    IndexIs(s, CRLF, |text|);
  }

  lemma FirstColon(name: string, rest: string)
    requires ':' !in name
    ensures Index(name + ":" + rest, ":") == |name|
  {
    var s := name + ":" + rest;
    assert s[|name|..|name| + 1] == ":";
    forall j | 0 <= j < |name|
      ensures !OccursAt(s, ":", j)
    {
      assert s[j..j + 1][0] == name[j];
    }
    IndexIs(s, ":", |name|);
  }

  lemma HeadFront(h: Header, headers: seq<Header>)
    ensures Head([h] + headers) == Line(h) + Head(headers)
  {
    HeadStep([], h);
    assert [] + [h] == [h];
    assert Head([]) + Line(h) == Line(h);
    HeadAppend([h], headers);
  }

  lemma ReadLine(h: Header, rest: string)
    requires Good(h)
    ensures ReadHead(Line(h) + rest) ==
            if ReadHead(rest).None? then None else Some(([h] + ReadHead(rest).value.0, ReadHead(rest).value.1))
  {
    var text := h.name + ": " + h.value;
    FirstCr(text, rest);
    FirstColon(h.name, " " + h.value);
    hide Index;
    var s := Line(h) + rest;
    assert s == text + CRLF + rest;
    assert s[..|text|] == text && s[|text| + 2..] == rest;
    assert text == h.name + ":" + (" " + h.value);
    assert text[|h.name| + 1..] == " " + h.value;
    assert (" " + h.value)[1..] == h.value;
    assert text[..|h.name|] == h.name;
  }

  lemma ReadBlank(body: string)
    ensures ReadHead(CRLF + body) == Some(([], body))
  {
    FirstCr("", body);
    assert "" + CRLF + body == CRLF + body;
    assert (CRLF + body)[2..] == body;
  }

  lemma ReadStep(h: Header, tail: seq<Header>, body: string, end: string)
    requires Good(h) && ReadHead(Head(tail) + end + body) == Some((tail, body))
    ensures ReadHead(Head([h] + tail) + end + body) == Some(([h] + tail, body))
  {
    hide Good, ReadHead, Line, Head;
    var rest := Head(tail) + end + body;
    ReadLine(h, rest);
    HeadFront(h, tail);
    assert Head([h] + tail) + end + body == Line(h) + rest;
  }

  lemma {:induction false} ReadHeadBack(headers: seq<Header>, body: string)
    requires forall h :: h in headers ==> Good(h)
    ensures ReadHead(Head(headers) + CRLF + body) == Some((headers, body))
  {
    hide Good, ReadHead, Line, CRLF;
    if headers == [] {
      ReadBlank(body);
      assert Head(headers) + CRLF + body == CRLF + body;
    } else {
      assert headers == [headers[0]] + headers[1..];
      ReadHeadBack(headers[1..], body);
      ReadStep(headers[0], headers[1..], body, CRLF);
    }
  }

  lemma NoControlNoCr(s: string)
    requires !Address.ContainsControl(s)
    ensures '\r' !in s
  {
  }

  lemma AddressNames()
    ensures GoodName("From") && GoodName("To") && GoodName("Reply-To") && GoodName("Subject")
  {
  }

  lemma TraceNames()
    ensures GoodName("Message-ID") && GoodName("Date") && GoodName("MIME-Version")
  {
  }

  lemma ListNames()
    ensures GoodName("List-Unsubscribe") && GoodName("List-Unsubscribe-Post")
  {
  }

  lemma ContentNames()
    ensures GoodName(CONTENT_TYPE) && GoodName("Content-Type") && GoodName("Content-Transfer-Encoding")
  {
  }

  lemma FixedNames(p: Platform, e: Envelope, h: Header)
    requires h in FixedHeaders(p, e)
    ensures GoodName(h.name)
  {
    hide GoodName, Join;
    AddressNames();
    TraceNames();
    ListNames();
  }

  lemma {:induction false} HexHasNoCr(random: Bytes)
    ensures '\r' !in Boundary(random)
  {
    if random != [] {
      HexHasNoCr(random[1..]);
    }
  }

  lemma ContentValues(boundary: string)
    requires '\r' !in boundary
    ensures '\r' !in MULTIPART + Quote(boundary)
    ensures '\r' !in "text/plain; charset=utf-8" && '\r' !in "quoted-printable"
  {
  }

  lemma ContentGood(p: Platform, e: Envelope, h: Header)
    requires h in ContentHeaders(p, e)
    ensures Good(h)
  {
    hide HasHtml, Boundary, GoodName, Quote;
    HexHasNoCr(p.random);
    ContentNames();
    ContentValues(Boundary(p.random));
  }

  lemma CustomGood(p: Platform, h: Header)
    requires Address.ValidateCustomHeader(p.address, h.name, h.value).None?
    ensures Good(h)
  {
    hide MapChars;
    NoControlNoCr(h.value);
    forall i | 0 <= i < |h.name|
      ensures Address.LegalNameChar(h.name[i])
    {
    }
  }

  // Every message Build makes reads back as exactly the headers it wrote, in order, and
  // its body: no value adds a header, ends the headers or folds into another, and the
  // body's text is never taken for a header.
  lemma HeadersReadBack(p: Platform, e: Envelope, customs: seq<Header>)
    requires Safe(FixedHeaders(p, e)) && Customs(p, e.extra, customs)
    ensures var headers := FixedHeaders(p, e) + customs + ContentHeaders(p, e);
            ReadHead(Head(headers) + "\r\n" + Body(p, e)) == Some((headers, Body(p, e)))
  {
    hide Head, Body, Good, FixedHeaders, ContentHeaders, ReadHead, Address.ValidateCustomHeader, Address.ContainsControl;
    var headers := FixedHeaders(p, e) + customs + ContentHeaders(p, e);
    forall h | h in headers
      ensures Good(h)
    {
      if h in FixedHeaders(p, e) {
        FixedNames(p, e, h);
        NoControlNoCr(h.value);
        IsGood(h);
      } else if h in customs {
        CustomGood(p, h);
      } else {
        ContentGood(p, e, h);
      }
    }
    ReadHeadBack(headers, Body(p, e));
  }

  lemma IsGood(h: Header)
    requires GoodName(h.name) && '\r' !in h.value
    ensures Good(h)
  {
  }

  // ---- Plain text ----

  ghost predicate Word(w: string) {
    w != "" && forall i :: 0 <= i < |w| ==> !IsSpace(w[i]) && w[i] != '<' && w[i] != '>'
  }

  ghost predicate NoTags(s: string) {
    '<' !in s && '>' !in s
  }

  lemma {:induction false} StripLeavesNoTags(s: string, inTag: bool)
    ensures NoTags(Strip(s, inTag))
  {
    if s != "" {
      StripLeavesNoTags(s[1..], if s[0] == '<' then true else if s[0] == '>' then false else inTag);
    }
  }

  lemma {:induction false} StripKeeps(s: string)
    requires NoTags(s)
    ensures Strip(s, false) == s
  {
    if s != "" {
      StripKeeps(s[1..]);
      assert s == [s[0]] + s[1..];
    }
  }

  // Text, then a tag, then the rest: the text is kept, the tag becomes one space.
  lemma {:induction false} StripTag(text: string, tag: string, rest: string)
    requires NoTags(text) && '>' !in tag
    ensures Strip(text + "<" + tag + ">" + rest, false) == text + " " + Strip(rest, false)
  {
    if text == "" {
      StripInside(tag, rest);
      assert text + "<" + tag + ">" + rest == "<" + (tag + ">" + rest);
      assert ("<" + (tag + ">" + rest))[1..] == tag + ">" + rest;
    } else {
      StripTag(text[1..], tag, rest);
      assert (text + "<" + tag + ">" + rest)[1..] == text[1..] + "<" + tag + ">" + rest;
      assert text == [text[0]] + text[1..];
    }
  }

  lemma {:induction false} StripInside(tag: string, rest: string)
    requires '>' !in tag
    ensures Strip(tag + ">" + rest, true) == " " + Strip(rest, false)
  {
    if tag == "" {
      assert tag + ">" + rest == ">" + rest;
      assert (">" + rest)[1..] == rest;
    } else {
      StripInside(tag[1..], rest);
      assert (tag + ">" + rest)[1..] == tag[1..] + ">" + rest;
    }
  }

  lemma {:induction false} FieldsAreWords(s: string)
    requires NoTags(s)
    ensures forall i :: 0 <= i < |Fields(s, IsSpace)| ==> Word(Fields(s, IsSpace)[i])
    decreases |s|
  {
    hide IsSpace;
    if s != "" {
      if IsSpace(s[0]) {
        FieldsAreWords(s[1..]);
      } else {
        FieldsAreWords(s[WordLength(s, IsSpace)..]);
      }
    }
  }

  lemma {:induction false} WordLengthIs(w: string, rest: string)
    requires (forall i :: 0 <= i < |w| ==> !IsSpace(w[i])) && (rest == "" || IsSpace(rest[0]))
    ensures WordLength(w + rest, IsSpace) == |w|
  {
    hide IsSpace;
    if w == "" {
      assert w + rest == rest;
    } else {
      WordLengthIs(w[1..], rest);
      assert (w + rest)[1..] == w[1..] + rest;
    }
  }

  lemma {:induction false} FieldsJoin(words: seq<string>)
    requires forall i :: 0 <= i < |words| ==> Word(words[i])
    ensures Fields(Join(words, " "), IsSpace) == words
  {
    if words != [] {
      var w, tail := words[0], Join(words[1..], " ");
      FieldsJoin(words[1..]);
      var rest := if |words| == 1 then "" else " " + tail;
      assert Join(words, " ") == w + rest by {
        assert w + "" == w;
        assert w + " " + tail == w + (" " + tail);
      }
      WordLengthIs(w, rest);
      assert (w + rest)[..|w|] == w && (w + rest)[|w|..] == rest;
      assert IsSpace(' ');
      assert Fields(rest, IsSpace) == words[1..] by {
        if |words| > 1 {
          assert (" " + tail)[1..] == tail;
        }
      }
      assert words == [w] + words[1..];
    }
  }

  lemma {:induction false} JoinedWords(words: seq<string>)
    requires forall i :: 0 <= i < |words| ==> Word(words[i])
    ensures NoTags(Join(words, " ")) && NoSpaceAround(Join(words, " "))
    ensures words != [] ==> Join(words, " ") != ""
  {
    hide IsSpace;
    if |words| == 1 {
      assert Word(words[0]);
    } else if words != [] {
      assert Word(words[0]);
      JoinedWords(words[1..]);
      var s, tail := Join(words, " "), Join(words[1..], " ");
      assert s == words[0] + " " + tail;
      assert s[0] == words[0][0] && s[|s| - 1] == tail[|tail| - 1];
    }
  }

  // The derived text holds no angle bracket, and deriving it again changes nothing.
  lemma PlainTextStable(html: string)
    ensures NoTags(PlainText(html)) && PlainText(PlainText(html)) == PlainText(html)
  {
    hide Strip, Fields, Join, TrimSpace, Word;
    var words := Fields(Strip(html, false), IsSpace);
    StripLeavesNoTags(html, false);
    FieldsAreWords(Strip(html, false));
    JoinedWords(words);
    var text := Join(words, " ");
    TrimKeeps(text);
    StripKeeps(text);
    FieldsJoin(words);
  }
}
