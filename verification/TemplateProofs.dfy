// What rendering a template means.
module TemplateProofs {
  import opened Prelude
  import opened Text
  import opened Template
  import Utf8

  // ---- Scanning and printing are inverse ----

  function Print(tags: seq<Tag>, tail: string): string {
    if tags == [] then tail
    else tags[0].literal + "{{" + tags[0].raw + "}}" + Print(tags[1..], tail)
  }

  // No opening braces inside, and none made together with the tag that follows.
  predicate ProperLiteral(literal: string) {
    !Contains(literal, "{{") && (literal != "" ==> literal[|literal| - 1] != '{')
  }

  predicate Proper(tags: seq<Tag>, tail: string) {
    && (forall i :: 0 <= i < |tags| ==> ProperLiteral(tags[i].literal) && ValidName(Name(tags[i])))
    && !Contains(tail, "{{")
  }

  lemma {:induction false} PrintScan(t: string)
    requires Scan(t).end.Tail?
    ensures var s := Scan(t);
            Print(s.tags, s.end.text) == t && Proper(s.tags, s.end.text)
    decreases |t|
  {
    var f := FindTag(t);
    ScanStep(t, f);
    if f.At? {
      var rest := t[f.close + 2..];
      PrintScan(rest);
      FoundIs(t, f);
      PrintStep(t, f, Scan(rest).tags, Scan(rest).end.text);
    }
  }

  lemma PrintStep(t: string, f: Found, tags: seq<Tag>, tail: string)
    requires f.At? && f.open + 2 <= f.close <= |t| - 2
    requires t[f.open..f.open + 2] == "{{" && t[f.close..f.close + 2] == "}}"
    requires Print(tags, tail) == t[f.close + 2..] && Proper(tags, tail)
    requires ProperLiteral(t[..f.open]) && ValidName(Name(TagAt(t, f)))
    ensures Print([TagAt(t, f)] + tags, tail) == t && Proper([TagAt(t, f)] + tags, tail)
  {
    hide ValidName, Name, ProperLiteral, Contains;
    var tag := TagAt(t, f);
    assert ([tag] + tags)[1..] == tags;
    assert t == t[..f.open] + t[f.open..f.open + 2] + t[f.open + 2..f.close] + t[f.close..f.close + 2] + t[f.close + 2..];
  }

  lemma FoundFirst(t: string, f: Found)
    requires f == FindTag(t) && f.At?
    ensures OccursAt(t, "{{", f.open) && OccursAt(t[f.open..], "}}", f.close - f.open)
    ensures forall j :: 0 <= j < f.open ==> !OccursAt(t, "{{", j)
  {
    hide OccursAt, IndexFrom;
  }

  lemma ProperBefore(t: string, open: nat)
    requires OccursAt(t, "{{", open) && forall j :: 0 <= j < open ==> !OccursAt(t, "{{", j)
    ensures ProperLiteral(t[..open])
  {
    var literal := t[..open];
    forall i | 0 <= i && i + 2 <= |literal|
      ensures !OccursAt(literal, "{{", i)
    {
      assert !OccursAt(t, "{{", i);
      assert literal[i..i + 2] == t[i..i + 2];
    }
    if literal != "" {
      OccursChars(t, "{{", open);
      assert !OccursAt(t, "{{", open - 1);
      assert t[open - 1..open + 1] == [t[open - 1], t[open + 0]];
    }
  }

  // Where FindTag says a tag is, there is one, and the text before it is proper.
  lemma FoundIs(t: string, f: Found)
    requires f == FindTag(t) && f.At?
    ensures t[f.open..f.open + 2] == "{{" && t[f.close..f.close + 2] == "}}"
    ensures ProperLiteral(t[..f.open])
  {
    hide FindTag, Index, ProperLiteral;
    FoundFirst(t, f);
    ProperBefore(t, f.open);
    assert t[f.open..][f.close - f.open..f.close - f.open + 2] == t[f.close..f.close + 2];
  }

  lemma {:induction false} TrimLoses(s: string, c: char)
    requires c in s && !IsSpace(c)
    ensures c in TrimSpace(s)
  {
    hide IsSpace, TrimLeft, TrimRight;
    var i :| 0 <= i < |s| && s[i] == c;
    var t := TrimLeft(s);
    assert i >= |s| - |t|;
    assert t[i - (|s| - |t|)] == c;
    var u := TrimRight(t);
    assert i - (|s| - |t|) < |u|;
    assert u[i - (|s| - |t|)] == c;
  }

  lemma OpensAt(literal: string, rest: string)
    requires ProperLiteral(literal)
    ensures Index(literal + "{{" + rest, "{{") == |literal|
  {
    var t := literal + "{{" + rest;
    assert t[|literal|..|literal| + 2] == "{{";
    forall j | 0 <= j < |literal|
      ensures !OccursAt(t, "{{", j)
    {
      if j + 2 <= |literal| {
        assert literal[j..j + 2] == t[j..j + 2];
        assert !OccursAt(literal, "{{", j);
      } else {
        assert t[j..j + 2][0] == literal[|literal| - 1];
      }
    }
    IndexIs(t, "{{", |literal|);
  }

  lemma NoBraceInside(raw: string)
    requires ValidName(TrimSpace(raw))
    ensures '}' !in raw
  {
    hide TrimSpace;
    if '}' in raw {
      TrimLoses(raw, '}');
    }
  }

  lemma ClosesAt(raw: string, rest: string)
    requires '}' !in raw
    ensures Index("{{" + raw + "}}" + rest, "}}") == 2 + |raw|
  {
    var s := "{{" + raw + "}}" + rest;
    assert s[2 + |raw|..2 + |raw| + 2] == "}}";
    assert forall k :: 0 <= k < 2 + |raw| ==> s[k] != '}' by {
      assert forall k :: 0 <= k < |raw| ==> s[2 + k] == raw[k];
      assert s[0] == '{' && s[1] == '{';
    }
    forall j | 0 <= j < 2 + |raw|
      ensures !OccursAt(s, "}}", j)
    {
      assert s[j..j + 2][0] == s[j];
      assert "}}"[0] == '}';
    }
    IndexIs(s, "}}", 2 + |raw|);
  }

  // A printed tag is found where it was printed.
  lemma FindPrinted(literal: string, raw: string, rest: string)
    requires ProperLiteral(literal) && ValidName(TrimSpace(raw))
    ensures FindTag(literal + "{{" + raw + "}}" + rest) == At(|literal|, |literal| + 2 + |raw|)
  {
    NoBraceInside(raw);
    OpensAt(literal, raw + "}}" + rest);
    ClosesAt(raw, rest);
    hide ValidName, TrimSpace, ProperLiteral, Index;
    var t := literal + "{{" + raw + "}}" + rest;
    assert t == literal + "{{" + (raw + "}}" + rest);
    assert t[|literal|..] == "{{" + raw + "}}" + rest;
  }

  // Printing proper segments and scanning them gives the segments back.
  lemma {:induction false} ScanPrint(tags: seq<Tag>, tail: string)
    requires Proper(tags, tail)
    ensures Scan(Print(tags, tail)) == Scanned(tags, Tail(tail))
  {
    hide Scan, FindTag, ValidName, Name, ProperLiteral;
    var t := Print(tags, tail);
    if tags == [] {
      NoTagInTail(tail);
      ScanStep(t, FindTag(t));
    } else {
      ScanPrint(tags[1..], tail);
      ScanPrintedTag(tags[0], Print(tags[1..], tail));
      assert tags == [tags[0]] + tags[1..];
    }
  }

  lemma NoTagInTail(tail: string)
    requires !Contains(tail, "{{")
    ensures FindTag(tail).NoTag?
  {
  }

  lemma SlicesIn(literal: string, raw: string, rest: string, t: string)
    requires t == literal + "{{" + raw + "}}" + rest
    ensures |t| == |literal| + |raw| + |rest| + 4
    ensures t[..|literal|] == literal && t[|literal| + 2..|literal| + 2 + |raw|] == raw
    ensures t[|literal| + 2 + |raw| + 2..] == rest
  {
  }

  lemma ScanFound(t: string, f: Found, tag: Tag, rest: string)
    requires f == FindTag(t) && f.At? && ValidName(Name(tag))
    requires t[..f.open] == tag.literal && t[f.open + 2..f.close] == tag.raw && t[f.close + 2..] == rest
    ensures Scan(t) == Scanned([tag] + Scan(rest).tags, Scan(rest).end)
  {
    hide Scan, FindTag, ValidName, TrimSpace;
    ScanStep(t, f);
    assert TagAt(t, f) == tag;
  }

  // The printed text of a tag, given as a whole.
  lemma ScanTagIn(tag: Tag, rest: string, t: string)
    requires t == tag.literal + "{{" + tag.raw + "}}" + rest
    requires ProperLiteral(tag.literal) && ValidName(Name(tag))
    ensures Scan(t) == Scanned([tag] + Scan(rest).tags, Scan(rest).end)
  {
    hide Scan, FindTag, ValidName, ProperLiteral, TrimSpace;
    FindPrinted(tag.literal, tag.raw, rest);
    SlicesIn(tag.literal, tag.raw, rest, t);
    ScanFound(t, At(|tag.literal|, |tag.literal| + 2 + |tag.raw|), tag, rest);
  }

  lemma ScanPrintedTag(tag: Tag, rest: string)
    requires ProperLiteral(tag.literal) && ValidName(Name(tag))
    ensures Scan(tag.literal + "{{" + tag.raw + "}}" + rest) == Scanned([tag] + Scan(rest).tags, Scan(rest).end)
  {
    hide *;
    ScanTagIn(tag, rest, tag.literal + "{{" + tag.raw + "}}" + rest);
  }

  // ---- Escaping ----

  predicate IsMarkup(c: char) {
    c == '<' || c == '>' || c == '"' || c == '\''
  }

  // The markup characters of a text, in order.
  function Markup(s: string): string {
    if s == "" then "" else Markup(s[..|s| - 1]) + if IsMarkup(s[|s| - 1]) then [s[|s| - 1]] else ""
  }

  function Literals(tags: seq<Tag>): string {
    if tags == [] then "" else Literals(tags[..|tags| - 1]) + tags[|tags| - 1].literal
  }

  lemma {:induction false} MarkupAppend(s: string, t: string)
    ensures Markup(s + t) == Markup(s) + Markup(t)
  {
    if t == "" {
      assert s + t == s;
    } else {
      assert (s + t)[..|s + t| - 1] == s + t[..|t| - 1];
      MarkupAppend(s, t[..|t| - 1]);
    }
  }

  lemma NoMarkup(s: string)
    requires forall i :: 0 <= i < |s| ==> !IsMarkup(s[i])
    ensures Markup(s) == ""
  {
  }

  lemma EscapedIsPlain(c: char)
    ensures forall i :: 0 <= i < |EscapeChar(c)| ==> !IsMarkup(EscapeChar(c)[i])
  {
  }

  lemma {:induction false} EscapeHasNoMarkup(s: string)
    ensures Markup(Escape(s)) == ""
  {
    assert Markup("") == "";
    if s != "" {
      hide EscapeChar, IsMarkup, Markup;
      EscapeHasNoMarkup(s[..|s| - 1]);
      EscapedIsPlain(s[|s| - 1]);
      NoMarkup(EscapeChar(s[|s| - 1]));
      MarkupAppend(Escape(s[..|s| - 1]), EscapeChar(s[|s| - 1]));
    }
  }

  lemma {:induction false} OutputMarkup(tags: seq<Tag>, variables: map<string, string>)
    ensures Markup(Output(tags, variables, true)) == Markup(Literals(tags))
  {
    if tags != [] {
      var before, last := tags[..|tags| - 1], tags[|tags| - 1];
      OutputMarkup(before, variables);
      var value := ValueOf(variables, Name(last), true);
      EscapeHasNoMarkup(if Name(last) in variables then variables[Name(last)] else "");
      MarkupAppend(Output(before, variables, true) + last.literal, value);
      MarkupAppend(Output(before, variables, true), last.literal);
      MarkupAppend(Literals(before), last.literal);
    }
  }

  // The template's own text: all but the tags.
  function OwnText(s: Scanned): string {
    Literals(s.tags) + if s.end.Tail? then s.end.text else ""
  }

  lemma RenderedIs(tmpl: string, variables: map<string, string>, escape: bool)
    requires Rendered(tmpl, variables, escape).Ok?
    ensures Scan(tmpl).end.Tail?
    ensures Rendered(tmpl, variables, escape) == Ok(Output(Scan(tmpl).tags, variables, escape) + Scan(tmpl).end.text)
  {
    hide Scan, Output, ByteLen, FirstFailure;
  }

  // With escaping, every angle bracket and quote of the output comes from the template's
  // own text: values contribute none.
  lemma MarkupFromLiterals(tmpl: string, variables: map<string, string>)
    requires Rendered(tmpl, variables, true).Ok?
    ensures Markup(Rendered(tmpl, variables, true).value) == Markup(OwnText(Scan(tmpl)))
  {
    hide Rendered, Scan, Output, Markup, Literals;
    RenderedIs(tmpl, variables, true);
    var s := Scan(tmpl);
    OutputMarkup(s.tags, variables);
    MarkupAppend(Output(s.tags, variables, true), s.end.text);
    MarkupAppend(Literals(s.tags), s.end.text);
  }

  // ---- Render and Tags ----

  lemma {:induction false} NoFailure(tags: seq<Tag>, variables: map<string, string>, escape: bool)
    requires FirstFailure(tags, variables, escape).None?
    ensures |tags| <= MAX_TAGS
    ensures forall i :: 0 <= i < |tags| ==> Name(tags[i]) in variables
  {
    hide Name, Output, ByteLen;
    if tags != [] {
      NoFailure(tags[..|tags| - 1], variables, escape);
      assert forall i :: 0 <= i < |tags| - 1 ==> tags[i] == tags[..|tags| - 1][i];
    }
  }

  lemma {:induction false} OnlyLimitsFail(tags: seq<Tag>, variables: map<string, string>, escape: bool)
    requires forall i :: 0 <= i < |tags| ==> Name(tags[i]) in variables
    ensures FirstFailure(tags, variables, escape) in {None, Some(TooManyTags), Some(OutputTooLarge)}
  {
    if tags != [] {
      OnlyLimitsFail(tags[..|tags| - 1], variables, escape);
    }
  }

  // FirstUse lists exactly the names used, each once, the order being that of first use:
  // the names of any prefix come first.
  lemma {:induction false} FirstUseMeaning(tags: seq<Tag>)
    ensures Distinct(FirstUse(tags)) && |FirstUse(tags)| <= |tags|
    ensures forall i :: 0 <= i < |tags| ==> Name(tags[i]) in FirstUse(tags)
    ensures forall name :: name in FirstUse(tags) ==> exists i :: 0 <= i < |tags| && Name(tags[i]) == name
    ensures forall k :: 0 <= k <= |tags| ==> FirstUse(tags[..k]) <= FirstUse(tags)
  {
    hide Name;
    forall k | 0 <= k <= |tags|
      ensures FirstUse(tags[..k]) <= FirstUse(tags)
    {
      FirstUseGrows(tags, k);
    }
    if tags != [] {
      FirstUseMeaning(tags[..|tags| - 1]);
      assert forall i :: 0 <= i < |tags| - 1 ==> tags[i] == tags[..|tags| - 1][i];
    }
  }

  // A template that renders is one Tags accepts, and all it lists is supplied.
  lemma RenderThenTags(tmpl: string, variables: map<string, string>, escape: bool)
    requires Rendered(tmpl, variables, escape).Ok?
    ensures Listed(tmpl) == Ok(FirstUse(Scan(tmpl).tags))
    ensures forall name :: name in Listed(tmpl).value ==> name in variables
  {
    hide Scan, Name, ByteLen, FirstUse, FirstFailure, Output;
    NoFailure(Scan(tmpl).tags, variables, escape);
    FirstUseMeaning(Scan(tmpl).tags);
  }

  lemma {:induction false} WithinLimits(tags: seq<Tag>, variables: map<string, string>, escape: bool)
    requires forall i :: 0 <= i < |tags| ==> Name(tags[i]) in variables
    requires |tags| <= MAX_TAGS && ByteLen(Output(tags, variables, escape)) <= MAX_OUTPUT_BYTES
    ensures FirstFailure(tags, variables, escape).None?
  {
    if tags != [] {
      var before, last := tags[..|tags| - 1], tags[|tags| - 1];
      ByteLenAppend(Output(before, variables, escape) + last.literal, ValueOf(variables, Name(last), escape));
      ByteLenAppend(Output(before, variables, escape), last.literal);
      hide Name, ByteLen;
      WithinLimits(before, variables, escape);
    }
  }

  // A template Tags accepts, with all it lists supplied, fails to render only for a limit,
  // and renders exactly if its tags, which Render counts by occurrence and Tags by name,
  // are at most 500 and the text is at most 1 MiB.
  lemma TagsThenRender(tmpl: string, variables: map<string, string>, escape: bool)
    requires Listed(tmpl).Ok? && forall name :: name in Listed(tmpl).value ==> name in variables
    ensures Rendered(tmpl, variables, escape).Ok? || Rendered(tmpl, variables, escape).error in {TooManyTags, OutputTooLarge}
    ensures var s := Scan(tmpl);
            Rendered(tmpl, variables, escape).Ok? <==>
            |s.tags| <= 500 && ByteLen(Output(s.tags, variables, escape) + s.end.text) <= 1_048_576
  {
    hide Scan, Name, ByteLen, FirstUse, FirstFailure, Output;
    var s := Scan(tmpl);
    FirstUseMeaning(s.tags);
    OnlyLimitsFail(s.tags, variables, escape);
    ByteLenAppend(Output(s.tags, variables, escape), s.end.text);
    if FirstFailure(s.tags, variables, escape).None? {
      NoFailure(s.tags, variables, escape);
    } else if |s.tags| <= MAX_TAGS && ByteLen(Output(s.tags, variables, escape)) <= MAX_OUTPUT_BYTES {
      WithinLimits(s.tags, variables, escape);
    }
  }

  // ---- A template one function takes and the other refuses ----

  // n uses of one name.
  function Uses(n: nat): (tags: seq<Tag>)
    ensures |tags| == n
  {
    seq(n, _ => Tag("", "x"))
  }

  lemma TrimX()
    ensures TrimSpace("x") == "x"
  {
    hide TrimSpace;
    TrimKeeps("x");
  }

  lemma LengthOfX()
    ensures ByteLen("x") == 1
  {
    assert "x"[..0] == "";
  }

  lemma NameOfX()
    ensures Name(Tag("", "x")) == "x" && ValidName("x")
  {
    hide TrimSpace, ByteLen;
    TrimX();
    LengthOfX();
  }

  lemma UsesProper(n: nat)
    ensures Proper(Uses(n), "")
  {
    NameOfX();
    hide Name, ValidName;
    assert !Contains("", "{{");
  }

  lemma UsesSplit(n: nat)
    requires n > 0
    ensures Uses(n)[0] == Tag("", "x") && Uses(n)[1..] == Uses(n - 1)
    ensures Uses(n)[n - 1] == Tag("", "x") && Uses(n)[..n - 1] == Uses(n - 1)
  {
  }

  lemma OneUseLength()
    ensures ByteLen("{{x}}") == 5
  {
    var t := "{{x}}";
    assert ByteLen(t[..0]) == 0;
    assert ByteLen(t[..1]) == 1 by { assert t[..1][..0] == t[..0]; }
    assert ByteLen(t[..2]) == 2 by { assert t[..2][..1] == t[..1]; }
    assert ByteLen(t[..3]) == 3 by { assert t[..3][..2] == t[..2]; }
    assert ByteLen(t[..4]) == 4 by { assert t[..4][..3] == t[..3]; }
    assert t[..|t| - 1] == t[..4];
  }

  lemma PrintOneUse(tags: seq<Tag>, rest: string)
    requires tags != [] && tags[0] == Tag("", "x") && Print(tags[1..], "") == rest
    ensures Print(tags, "") == "{{x}}" + rest
  {
    assert "" + "{{" + "x" + "}}" == "{{x}}";
  }

  lemma {:induction false} UsesLength(n: nat)
    ensures ByteLen(Print(Uses(n), "")) == 5 * n
  {
    hide Print, Uses, ByteLen;
    if n == 0 {
      NoUses();
    } else {
      UsesLength(n - 1);
      UsesSplit(n);
      PrintOneUse(Uses(n), Print(Uses(n - 1), ""));
      OneUseLength();
      ByteLenAppend("{{x}}", Print(Uses(n - 1), ""));
    }
  }

  lemma NoUses()
    ensures Uses(0) == [] && Print([], "") == "" && ByteLen("") == 0
  {
  }

  const BLANK := map["x" := ""]

  lemma {:induction false} UsesOutput(n: nat, escape: bool)
    ensures Output(Uses(n), BLANK, escape) == ""
  {
    hide Name, Uses;
    if n == 0 {
      NoUses();
    } else {
      NameOfX();
      UsesSplit(n);
      UsesOutput(n - 1, escape);
      assert ValueOf(BLANK, "x", escape) == "";
    }
  }

  lemma LastUseFails(n: nat, escape: bool)
    requires n > 0
    ensures LastFailure(Uses(n), BLANK, escape) == if n <= MAX_TAGS then None else Some(TooManyTags)
  {
    hide Name, Uses, Output, ByteLen;
    NameOfX();
    NoUses();
    UsesSplit(n);
    UsesOutput(n, escape);
  }

  lemma {:induction false} UsesFail(n: nat, escape: bool)
    ensures FirstFailure(Uses(n), BLANK, escape) == if n <= MAX_TAGS then None else Some(TooManyTags)
  {
    hide Uses, LastFailure, BLANK;
    if n == 0 {
      NoUses();
    } else {
      UsesSplit(n);
      UsesFail(n - 1, escape);
      LastUseFails(n, escape);
    }
  }

  lemma {:induction false} UsesListed(n: nat)
    ensures FirstUse(Uses(n)) == if n == 0 then [] else ["x"]
  {
    hide Name, Uses;
    if n == 0 {
      NoUses();
    } else {
      NameOfX();
      UsesSplit(n);
      UsesListed(n - 1);
    }
  }

  // A template that uses one name more than 500 times is listed as that one name, and does
  // not render.
  lemma OneNameTooOften(n: nat, escape: bool)
    requires 500 < n && 5 * n <= 524_288
    ensures var tmpl := Print(Uses(n), "");
            && Listed(tmpl) == Ok(["x"]) && "x" in BLANK
            && Rendered(tmpl, BLANK, escape) == Err(TooManyTags)
  {
    hide Print, Uses, Scan, FirstUse, FirstFailure, Output, ByteLen;
    UsesProper(n);
    ScanPrint(Uses(n), "");
    UsesLength(n);
    UsesFail(n, escape);
    UsesListed(n);
  }

  // The limits count the bytes of UTF-8.
  lemma {:induction false} BytesCounted(s: string)
    ensures ByteLen(s) == |Utf8.Encode(s)|
  {
    if s != "" {
      var before, last := s[..|s| - 1], s[|s| - 1];
      BytesCounted(before);
      assert before + [last] == s;
      Utf8.EncodeAppend(before, [last]);
      assert Utf8.Encode([last]) == Utf8.EncodeChar(last) + Utf8.Encode([last][1..]);
    }
  }

  // ---- Values come back ----

  // A reader of the five references the escaper writes; any other text is itself.
  function Unescape(t: string): string {
    if t == "" then ""
    else if "&amp;" <= t then "&" + Unescape(t[5..])
    else if "&lt;" <= t then "<" + Unescape(t[4..])
    else if "&gt;" <= t then ">" + Unescape(t[4..])
    else if "&#39;" <= t then "'" + Unescape(t[5..])
    else if "&#34;" <= t then "\"" + Unescape(t[5..])
    else [t[0]] + Unescape(t[1..])
  }

  lemma UnescapeOne(c: char, t: string)
    ensures Unescape(EscapeChar(c) + t) == [c] + Unescape(t)
  {
    var e, s := EscapeChar(c), EscapeChar(c) + t;
    assert s[|e|..] == t && e <= s && s[0] == e[0];
    if |e| > 1 {
      assert s[1] == e[1] && s[2] == e[2] && s[3] == e[3];
    }
  }

  lemma {:induction false} EscapeFront(c: char, s: string)
    ensures Escape([c] + s) == EscapeChar(c) + Escape(s)
  {
    hide EscapeChar;
    if s == "" {
      assert [c] + s == [c] && [c][..0] == "";
      assert Escape("") == "";
    } else {
      EscapeFront(c, s[..|s| - 1]);
      assert ([c] + s)[..|s|] == [c] + s[..|s| - 1] && ([c] + s)[|s|] == s[|s| - 1];
    }
  }

  // Escaping loses nothing and invents nothing.
  lemma {:induction false} UnescapeEscape(s: string)
    ensures Unescape(Escape(s)) == s
  {
    if s != "" {
      assert s == [s[0]] + s[1..];
      hide Unescape, Escape;
      EscapeFront(s[0], s[1..]);
      UnescapeOne(s[0], Escape(s[1..]));
      UnescapeEscape(s[1..]);
    }
  }

  // Literals and pieces in turn, and the tail.
  function Weave(tags: seq<Tag>, pieces: seq<string>, tail: string): string
    requires |pieces| == |tags|
  {
    if tags == [] then tail else tags[0].literal + pieces[0] + Weave(tags[1..], pieces[1..], tail)
  }

  lemma {:induction false} WeaveLast(tags: seq<Tag>, pieces: seq<string>, last: Tag, piece: string, tail: string)
    requires |pieces| == |tags|
    ensures Weave(tags + [last], pieces + [piece], tail) == Weave(tags, pieces, last.literal + piece + tail)
  {
    if tags == [] {
      assert tags + [last] == [last] && pieces + [piece] == [piece];
      assert [last][1..] == [] && [piece][1..] == [];
      assert Weave([last], [piece], tail) == last.literal + piece + Weave([], [], tail);
      assert Weave([], [], tail) == tail;
    } else {
      WeaveLast(tags[1..], pieces[1..], last, piece, tail);
      assert (tags + [last])[1..] == tags[1..] + [last] && (pieces + [piece])[1..] == pieces[1..] + [piece];
    }
  }

  lemma {:induction false} OutputWeaves(tags: seq<Tag>, variables: map<string, string>, escape: bool, tail: string)
    returns (pieces: seq<string>)
    ensures |pieces| == |tags| && Output(tags, variables, escape) + tail == Weave(tags, pieces, tail)
    ensures forall i :: 0 <= i < |tags| ==> pieces[i] == ValueOf(variables, Name(tags[i]), escape)
  {
    hide ValueOf, Name;
    if tags == [] {
      pieces := [];
    } else {
      var before, last := tags[..|tags| - 1], tags[|tags| - 1];
      var piece := ValueOf(variables, Name(last), escape);
      pieces := OutputWeaves(before, variables, escape, last.literal + piece + tail);
      WeaveLast(before, pieces, last, piece, tail);
      assert before + [last] == tags;
      assert Output(before, variables, escape) + last.literal + piece + tail ==
             Output(before, variables, escape) + (last.literal + piece + tail);
      pieces := pieces + [piece];
    }
  }

  // What Render returns is the template with a piece in the place of every tag: without
  // escaping the value of the tag's name, and with it a text free of markup that reads as
  // that value.
  lemma RenderMeaning(tmpl: string, variables: map<string, string>, escape: bool) returns (pieces: seq<string>)
    requires Rendered(tmpl, variables, escape).Ok?
    ensures var s := Scan(tmpl);
            && s.end.Tail? && |pieces| == |s.tags|
            && Print(s.tags, s.end.text) == tmpl
            && Rendered(tmpl, variables, escape).value == Weave(s.tags, pieces, s.end.text)
            && forall i :: 0 <= i < |pieces| ==>
                 && Name(s.tags[i]) in variables
                 && (if escape then Unescape(pieces[i]) == variables[Name(s.tags[i])] && Markup(pieces[i]) == ""
                     else pieces[i] == variables[Name(s.tags[i])])
  {
    hide Rendered, Scan, Output, Weave, Print, Markup, Unescape, Escape, Name, FirstFailure;
    RenderedIs(tmpl, variables, escape);
    RenderedNames(tmpl, variables, escape);
    PrintScan(tmpl);
    var s := Scan(tmpl);
    pieces := OutputWeaves(s.tags, variables, escape, s.end.text);
    forall i | 0 <= i < |pieces| && escape
      ensures Unescape(pieces[i]) == variables[Name(s.tags[i])] && Markup(pieces[i]) == ""
    {
      UnescapeEscape(variables[Name(s.tags[i])]);
      EscapeHasNoMarkup(variables[Name(s.tags[i])]);
    }
  }

  lemma RenderedNames(tmpl: string, variables: map<string, string>, escape: bool)
    requires Rendered(tmpl, variables, escape).Ok?
    ensures forall i :: 0 <= i < |Scan(tmpl).tags| ==> Name(Scan(tmpl).tags[i]) in variables
  {
    hide Scan, Output, ByteLen, FirstFailure, Name;
    NoFailure(Scan(tmpl).tags, variables, escape);
  }
}
