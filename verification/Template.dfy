// internal/template/render.go: merge tags, and nothing else.
module Template {
  import opened Prelude
  import opened Text

  const MAX_TEMPLATE_BYTES := 0x8_0000
  const MAX_OUTPUT_BYTES := 0x10_0000
  const MAX_VARIABLES := 100
  const MAX_NAME_LEN := 64
  const MAX_TAGS := 500

  datatype Error =
    | TemplateTooLarge
    | OutputTooLarge
    | TooManyTags
    | TooManyVariables
    | UnclosedTag
    | UnknownVariable(name: string)
    | InvalidName(name: string)

  // ---- What a template is made of ----

  // The text up to a tag and what stands between its braces.
  datatype Tag = Tag(literal: string, raw: string)

  // Where scanning ends: in text without a tag, or at a tag that is none.
  datatype End = Tail(text: string) | Unclosed | BadName(name: string)

  datatype Scanned = Scanned(tags: seq<Tag>, end: End)

  predicate IsNameChar(c: char) {
    'a' <= c <= 'z' || 'A' <= c <= 'Z' || '0' <= c <= '9' || c == '_'
  }

  predicate ValidName(name: string) {
    name != "" && ByteLen(name) <= MAX_NAME_LEN && forall i :: 0 <= i < |name| ==> IsNameChar(name[i])
  }

  function Name(tag: Tag): string {
    TrimSpace(tag.raw)
  }

  // The next tag: where its braces open, and where the closing ones begin.
  datatype Found = NoTag | NotClosed | At(open: nat, close: nat)

  lemma CloseAfterOpen(t: string, open: nat)
    requires OccursAt(t, "{{", open)
    ensures var closing := Index(t[open..], "}}"); closing < 0 || 2 <= closing <= |t| - open - 2
  {
    OccursChars(t, "{{", open);
    var s := t[open..];
    var closing := Index(s, "}}");
    assert s[0] == t[open + 0] && s[1] == t[open + 1];
    if closing >= 0 {
      OccursChars(s, "}}", closing);
    }
  }

  function FindTag(t: string): (f: Found)
    ensures f.At? ==> f.open + 2 <= f.close <= |t| - 2
  {
    var open := Index(t, "{{");
    if open < 0 then NoTag
    else
      var closing := Index(t[open..], "}}");
      if closing < 0 then NotClosed else CloseAfterOpen(t, open); At(open, open + closing)
  }

  function TagAt(t: string, f: Found): Tag
    requires f.At? && f.open + 2 <= f.close <= |t| - 2
  {
    Tag(t[..f.open], t[f.open + 2..f.close])
  }

  function Scan(t: string): Scanned
    decreases |t|
  {
    match FindTag(t)
    case NoTag => Scanned([], Tail(t))
    case NotClosed => Scanned([], Unclosed)
    case At(open, close) =>
      var tag := TagAt(t, At(open, close));
      if !ValidName(Name(tag)) then Scanned([], BadName(Name(tag)))
      else
        var rest := Scan(t[close + 2..]);
        Scanned([tag] + rest.tags, rest.end)
  }

  // ---- Escaping ----

  // html.EscapeString.
  function EscapeChar(c: char): string {
    if c == '&' then "&amp;" else if c == '\'' then "&#39;" else if c == '<' then "&lt;"
    else if c == '>' then "&gt;" else if c == '"' then "&#34;" else [c]
  }

  function Escape(s: string): string {
    if s == "" then "" else Escape(s[..|s| - 1]) + EscapeChar(s[|s| - 1])
  }

  // ---- The result, independent of any loop ----

  function ValueOf(variables: map<string, string>, name: string, escape: bool): string {
    var value := if name in variables then variables[name] else "";
    if escape then Escape(value) else value
  }

  // Literals and values, alternating.
  function Output(tags: seq<Tag>, variables: map<string, string>, escape: bool): string {
    if tags == [] then ""
    else
      var last := tags[|tags| - 1];
      Output(tags[..|tags| - 1], variables, escape) + last.literal + ValueOf(variables, Name(last), escape)
  }

  // What is wrong with the last of these tags, none being wrong before it.
  function LastFailure(tags: seq<Tag>, variables: map<string, string>, escape: bool): Option<Error>
    requires tags != []
  {
    var name := Name(tags[|tags| - 1]);
    if name !in variables then Some(UnknownVariable(name))
    else if |tags| > MAX_TAGS then Some(TooManyTags)
    else if ByteLen(Output(tags, variables, escape)) > MAX_OUTPUT_BYTES then Some(OutputTooLarge)
    else None
  }

  function FirstFailure(tags: seq<Tag>, variables: map<string, string>, escape: bool): Option<Error> {
    if tags == [] then None
    else
      var before := FirstFailure(tags[..|tags| - 1], variables, escape);
      if before.Some? then before else LastFailure(tags, variables, escape)
  }

  // What Render returns when the variables themselves are in order.
  function Rendered(tmpl: string, variables: map<string, string>, escape: bool): Result<string, Error> {
    if ByteLen(tmpl) > MAX_TEMPLATE_BYTES then Err(TemplateTooLarge)
    else
      var s := Scan(tmpl);
      var failure := FirstFailure(s.tags, variables, escape);
      if failure.Some? then Err(failure.value)
      else
        match s.end
        case Unclosed => Err(UnclosedTag)
        case BadName(name) => Err(InvalidName(name))
        case Tail(text) =>
          var out := Output(s.tags, variables, escape) + text;
          if ByteLen(out) > MAX_OUTPUT_BYTES then Err(OutputTooLarge) else Ok(out)
  }

  predicate VariablesOk(variables: map<string, string>) {
    |variables| <= MAX_VARIABLES && forall name :: name in variables ==> ValidName(name)
  }

  // ---- The program ----

  method ValidateName(name: string) returns (ok: bool)
    ensures ok <==> ValidName(name)
  {
    if name == "" || ByteLen(name) > MAX_NAME_LEN {
      return false;
    }
    for i := 0 to |name|
      invariant forall j :: 0 <= j < i ==> IsNameChar(name[j])
    {
      if !IsNameChar(name[i]) {
        return false;
      }
    }
    return true;
  }

  lemma {:induction false} FailureStays(tags: seq<Tag>, k: nat, variables: map<string, string>, escape: bool)
    requires k <= |tags| && FirstFailure(tags[..k], variables, escape).Some?
    ensures FirstFailure(tags, variables, escape) == FirstFailure(tags[..k], variables, escape)
    decreases |tags|
  {
    if k == |tags| {
      assert tags[..k] == tags;
    } else {
      assert tags[..|tags| - 1][..k] == tags[..k];
      FailureStays(tags[..|tags| - 1], k, variables, escape);
    }
  }

  // The variables' names are tested in no particular order.
  method InvalidNameOf(variables: map<string, string>) returns (bad: Option<string>)
    ensures bad.Some? ==> bad.value in variables && !ValidName(bad.value)
    ensures bad.None? ==> forall name :: name in variables ==> ValidName(name)
  {
    hide ValidName;
    var names := variables.Keys;
    while names != {}
      invariant names <= variables.Keys
      invariant forall name :: name in variables && name !in names ==> ValidName(name)
      decreases names
    {
      var name :| name in names;
      var ok := ValidateName(name);
      if !ok {
        return Some(name);
      }
      names := names - {name};
    }
    return None;
  }

  method Render(tmpl: string, variables: map<string, string>, escape: bool) returns (r: Result<string, Error>)
    ensures ByteLen(tmpl) <= MAX_TEMPLATE_BYTES && |variables| > MAX_VARIABLES ==> r == Err(TooManyVariables)
    ensures ByteLen(tmpl) <= MAX_TEMPLATE_BYTES && |variables| <= MAX_VARIABLES && !VariablesOk(variables) ==>
              r.Err? && r.error.InvalidName? && r.error.name in variables && !ValidName(r.error.name)
    ensures ByteLen(tmpl) > MAX_TEMPLATE_BYTES || VariablesOk(variables) ==> r == Rendered(tmpl, variables, escape)
  {
    RenderedCases(tmpl, variables, escape);
    hide ByteLen, ValidName, FindTag, Scan, Output, FirstFailure, Escape, TrimSpace, IsNameChar, Name, TagAt, Done, Rendered;
    if ByteLen(tmpl) > MAX_TEMPLATE_BYTES {
      return Err(TemplateTooLarge);
    }
    if |variables| > MAX_VARIABLES {
      return Err(TooManyVariables);
    }
    var bad := InvalidNameOf(variables);
    if bad.Some? {
      return Err(InvalidName(bad.value));
    }

    ghost var all := Scan(tmpl);
    DoneAtFirst(tmpl, variables, escape);
    var out, tags, rest := "", 0, tmpl;
    while true
      invariant Done(all, tags, rest, out, variables, escape)
      decreases |rest|
    {
      var found := FindTag(rest);
      TagIs(rest);
      if found.NoTag? {
        LastTurn(all, tags, rest, out, variables, escape);
        out := out + rest;
        break;
      }
      if found.NotClosed? {
        LastTurn(all, tags, rest, out, variables, escape);
        return Err(UnclosedTag);
      }
      ghost var before := out;
      out := out + rest[..found.open];
      var name := TrimSpace(rest[found.open + 2..found.close]);
      var valid := ValidateName(name);
      if !valid {
        LastTurn(all, tags, rest, before, variables, escape);
        return Err(InvalidName(name));
      }
      Turn(all, tags, rest, before, variables, escape);
      if name !in variables {
        return Err(UnknownVariable(name));
      }
      var value := variables[name];
      if escape {
        value := Escape(value);
      }
      out := out + value;
      tags := tags + 1;
      if tags > MAX_TAGS {
        return Err(TooManyTags);
      }
      if ByteLen(out) > MAX_OUTPUT_BYTES {
        return Err(OutputTooLarge);
      }
      rest := rest[found.close + 2..];
    }
    if ByteLen(out) > MAX_OUTPUT_BYTES {
      return Err(OutputTooLarge);
    }
    return Ok(out);
  }

  lemma RenderedCases(tmpl: string, variables: map<string, string>, escape: bool)
    ensures var s, r := Scan(tmpl), Rendered(tmpl, variables, escape);
            var failure := FirstFailure(s.tags, variables, escape);
            if ByteLen(tmpl) > MAX_TEMPLATE_BYTES then r == Err(TemplateTooLarge)
            else if failure.Some? then r == Err(failure.value)
            else match s.end
                 case Unclosed => r == Err(UnclosedTag)
                 case BadName(name) => r == Err(InvalidName(name))
                 case Tail(text) =>
                   var out := Output(s.tags, variables, escape) + text;
                   r == if ByteLen(out) > MAX_OUTPUT_BYTES then Err(OutputTooLarge) else Ok(out)
  {
    hide ByteLen, Scan, FirstFailure, Output;
  }

  lemma NothingDone(variables: map<string, string>, escape: bool)
    ensures Output([], variables, escape) == "" && FirstFailure([], variables, escape).None?
  {
  }

  lemma ScanStep(rest: string, found: Found)
    requires found == FindTag(rest)
    ensures match found
            case NoTag => Scan(rest) == Scanned([], Tail(rest))
            case NotClosed => Scan(rest) == Scanned([], Unclosed)
            case At(open, close) =>
              open + 2 <= close <= |rest| - 2 &&
              var tag := TagAt(rest, found);
              var after := Scan(rest[close + 2..]);
              Scan(rest) == if ValidName(Name(tag)) then Scanned([tag] + after.tags, after.end) else Scanned([], BadName(Name(tag)))
  {
    hide ValidName, Name, TrimSpace, FindTag;
  }

  lemma NextTagIs(all: seq<Tag>, done: nat, rest: string, found: Found)
    requires done <= |all| && Scan(rest).tags == all[done..]
    requires found.At? && found == FindTag(rest) && ValidName(Name(TagAt(rest, found)))
    ensures done < |all| && all[done] == TagAt(rest, found)
    ensures Scan(rest) == Scanned(all[done..], Scan(rest[found.close + 2..]).end)
    ensures Scan(rest[found.close + 2..]).tags == all[done + 1..]
  {
    ScanStep(rest, found);
    hide Scan, FindTag, ValidName, TrimSpace;
    var tag, after := TagAt(rest, found), Scan(rest[found.close + 2..]).tags;
    assert all[done..] == [tag] + after;
    assert all[done..][0] == all[done] && all[done..][1..] == all[done + 1..];
    assert ([tag] + after)[1..] == after;
  }

  // One turn of the loop: what the tag at the front of rest adds to what was done.
  lemma NextTag(all: seq<Tag>, done: nat, rest: string, found: Found, variables: map<string, string>, escape: bool)
    requires done <= |all| && Scan(rest).tags == all[done..]
    requires found.At? && found == FindTag(rest) && ValidName(Name(TagAt(rest, found)))
    requires FirstFailure(all[..done], variables, escape).None?
    ensures done < |all| && all[done] == TagAt(rest, found)
    ensures Scan(rest) == Scanned(all[done..], Scan(rest[found.close + 2..]).end)
    ensures Scan(rest[found.close + 2..]).tags == all[done + 1..]
    ensures Output(all[..done + 1], variables, escape) ==
            Output(all[..done], variables, escape) + rest[..found.open] + ValueOf(variables, Name(TagAt(rest, found)), escape)
    ensures FirstFailure(all[..done + 1], variables, escape) == LastFailure(all[..done + 1], variables, escape)
    ensures LastFailure(all[..done + 1], variables, escape).Some? ==>
              FirstFailure(all, variables, escape) == LastFailure(all[..done + 1], variables, escape)
  {
    NextTagIs(all, done, rest, found);
    hide Scan, FindTag, ValidName, ByteLen, TrimSpace, LastFailure, ValueOf;
    assert all[..done + 1][..done] == all[..done];
    if LastFailure(all[..done + 1], variables, escape).Some? {
      FailureStays(all, done + 1, variables, escape);
    }
  }

  // Render's loop invariant: the first tags are done, and rest is what is left to scan.
  ghost predicate Done(all: Scanned, tags: nat, rest: string, out: string, variables: map<string, string>, escape: bool) {
    && tags <= |all.tags|
    && Scan(rest) == Scanned(all.tags[tags..], all.end)
    && out == Output(all.tags[..tags], variables, escape)
    && FirstFailure(all.tags[..tags], variables, escape).None?
  }

  lemma DoneAtFirst(tmpl: string, variables: map<string, string>, escape: bool)
    ensures Done(Scan(tmpl), 0, tmpl, "", variables, escape)
  {
    var all := Scan(tmpl);
    NothingDone(variables, escape);
    assert all.tags[..0] == [] && all.tags[0..] == all.tags;
  }

  // Where the loop ends for want of a good tag.
  lemma LastTurn(all: Scanned, tags: nat, rest: string, out: string, variables: map<string, string>, escape: bool)
    requires Done(all, tags, rest, out, variables, escape)
    requires !FindTag(rest).At? || !ValidName(Name(TagAt(rest, FindTag(rest))))
    ensures all.end == match FindTag(rest)
                       case NoTag => Tail(rest)
                       case NotClosed => Unclosed
                       case At(_, _) => BadName(Name(TagAt(rest, FindTag(rest))))
    ensures out == Output(all.tags, variables, escape) && FirstFailure(all.tags, variables, escape).None?
  {
    hide Scan, FindTag, ValidName, Output, FirstFailure, Name, TagAt;
    ScanStep(rest, FindTag(rest));
    assert all.tags[..tags] == all.tags;
  }

  // A turn with a good tag.
  lemma Turn(all: Scanned, tags: nat, rest: string, out: string, variables: map<string, string>, escape: bool)
    requires Done(all, tags, rest, out, variables, escape)
    requires FindTag(rest).At? && ValidName(Name(TagAt(rest, FindTag(rest))))
    ensures var found := FindTag(rest);
            var name := Name(TagAt(rest, found));
            var next := out + rest[..found.open] + ValueOf(variables, name, escape);
            var failure := FirstFailure(all.tags, variables, escape);
            if name !in variables then failure == Some(UnknownVariable(name))
            else if tags + 1 > MAX_TAGS then failure == Some(TooManyTags)
            else if ByteLen(next) > MAX_OUTPUT_BYTES then failure == Some(OutputTooLarge)
            else Done(all, tags + 1, rest[found.close + 2..], next, variables, escape)
  {
    hide Scan, FindTag, ValidName, ByteLen, Output, FirstFailure, ValueOf, Name, TagAt, LastFailure;
    var found := FindTag(rest);
    NextTag(all.tags, tags, rest, found, variables, escape);
    var done := all.tags[..tags + 1];
    LastFailureIs(done, TagAt(rest, found), out + rest[..found.open] + ValueOf(variables, Name(TagAt(rest, found)), escape),
                  variables, escape);
  }

  lemma LastFailureIs(tags: seq<Tag>, last: Tag, out: string, variables: map<string, string>, escape: bool)
    requires tags != [] && tags[|tags| - 1] == last && out == Output(tags, variables, escape)
    ensures LastFailure(tags, variables, escape) ==
            if Name(last) !in variables then Some(UnknownVariable(Name(last)))
            else if |tags| > MAX_TAGS then Some(TooManyTags)
            else if ByteLen(out) > MAX_OUTPUT_BYTES then Some(OutputTooLarge)
            else None
  {
    hide Output, Name, ByteLen;
  }

  lemma TagIs(rest: string)
    ensures var found := FindTag(rest);
            found.At? ==>
              && found.open + 2 <= found.close <= |rest| - 2
              && Name(TagAt(rest, found)) == TrimSpace(rest[found.open + 2..found.close])
  {
    hide FindTag, TrimSpace;
  }

  // ---- Tags ----

  // The names used, each once, in the order of their first use.
  function FirstUse(tags: seq<Tag>): seq<string> {
    if tags == [] then []
    else
      var before, last := FirstUse(tags[..|tags| - 1]), Name(tags[|tags| - 1]);
      if last in before then before else before + [last]
  }

  function Listed(tmpl: string): Result<seq<string>, Error> {
    if ByteLen(tmpl) > MAX_TEMPLATE_BYTES then Err(TemplateTooLarge)
    else
      var s := Scan(tmpl);
      var names := FirstUse(s.tags);
      if |names| > MAX_TAGS then Err(TooManyTags)
      else
        match s.end
        case Unclosed => Err(UnclosedTag)
        case BadName(name) => Err(InvalidName(name))
        case Tail(_) => Ok(names)
  }

  lemma {:induction false} FirstUseGrows(tags: seq<Tag>, k: nat)
    requires k <= |tags|
    ensures FirstUse(tags[..k]) <= FirstUse(tags)
    decreases |tags|
  {
    if k == |tags| {
      assert tags[..k] == tags;
    } else {
      assert tags[..|tags| - 1][..k] == tags[..k];
      FirstUseGrows(tags[..|tags| - 1], k);
    }
  }

  method Tags(tmpl: string) returns (r: Result<seq<string>, Error>)
    ensures r == Listed(tmpl)
  {
    hide ByteLen, ValidName, FindTag, Scan, TrimSpace;
    if ByteLen(tmpl) > MAX_TEMPLATE_BYTES {
      return Err(TemplateTooLarge);
    }
    ghost var all := Scan(tmpl);
    ghost var done := 0;
    var names: seq<string>, seen: map<string, bool>, rest := [], map[], tmpl;
    assert all.tags[..0] == [] && all.tags[0..] == all.tags;
    while true
      invariant done <= |all.tags|
      invariant Scan(rest) == Scanned(all.tags[done..], all.end)
      invariant names == FirstUse(all.tags[..done]) && |names| <= MAX_TAGS
      invariant forall name :: name in seen <==> name in names
      decreases |rest|
    {
      var found := FindTag(rest);
      ScanStep(rest, found);
      if found.NoTag? {
        assert all.tags[..done] == all.tags;
        return Ok(names);
      }
      if found.NotClosed? {
        assert all.tags[..done] == all.tags;
        return Err(UnclosedTag);
      }
      var name := TrimSpace(rest[found.open + 2..found.close]);
      var valid := ValidateName(name);
      if !valid {
        assert all.tags[..done] == all.tags;
        return Err(InvalidName(name));
      }
      NextTagIs(all.tags, done, rest, found);
      assert all.tags[..done + 1][..done] == all.tags[..done];
      if name !in seen {
        seen := seen[name := true];
        names := names + [name];
      }
      done := done + 1;
      if |names| > MAX_TAGS {
        FirstUseGrows(all.tags, done);
        return Err(TooManyTags);
      }
      rest := rest[found.close + 2..];
    }
  }
}
