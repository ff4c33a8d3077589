// internal/bounce/classify.go: reading a refusal for whether to retry or to suppress.
//
// A response is a Go string: each character here stands for one byte. Lower-casing is a
// parameter.
module Bounce {
  import opened Prelude
  import opened Text
  import opened Decimal

  datatype Kind = Unknown | Soft | Hard | Complaint

  datatype Outcome = Outcome(kind: Kind, status: string, reason: string, retryable: bool)

  const MAX_REPORT_BYTES := 0x10_0000

  predicate Suppresses(k: Kind) {
    k == Hard || k == Complaint
  }

  // ---- parseStatus ----

  predicate IsSection(d: string) {
    1 <= |d| <= 3 && AllDigits(d)
  }

  function Dotted(a: string, b: string, c: string): string {
    a + "." + b + "." + c
  }

  // s begins with the three sections a, b and c, and c is a whole run of digits.
  ghost predicate BeginsWith(s: string, a: string, b: string, c: string) {
    && IsSection(a) && IsSection(b) && IsSection(c)
    && Dotted(a, b, c) <= s
    && var n := |Dotted(a, b, c)|; n == |s| || !IsDigit(s[n])
  }

  ghost predicate Begins(s: string, status: string) {
    exists a, b, c :: BeginsWith(s, a, b, c) && status == Dotted(a, b, c)
  }

  lemma RunUnique(s: string, a: string, b: string)
    requires a <= s && b <= s && AllDigits(a) && AllDigits(b)
    requires |a| < |s| ==> !IsDigit(s[|a|])
    requires |b| < |s| ==> !IsDigit(s[|b|])
    ensures a == b
  {
    assert |a| == |b|;
  }

  // Where the sections lie.
  lemma BeginsParts(s: string, a: string, b: string, c: string)
    requires IsSection(a) && IsSection(b) && IsSection(c)
    ensures Dotted(a, b, c) <= s <==>
            && |a| < |s| && a == s[..|a|] && s[|a|] == '.'
            && b + "." + c <= s[|a| + 1..]
  {
    var tail := b + "." + c;
    assert Dotted(a, b, c) == a + "." + tail;
    if Dotted(a, b, c) <= s {
      assert s[|a|] == Dotted(a, b, c)[|a|];
      assert s[..|a|] == Dotted(a, b, c)[..|a|] == a;
      assert s[|a| + 1..][..|tail|] == Dotted(a, b, c)[|a| + 1..] == tail;
    }
    if |a| < |s| && a == s[..|a|] && s[|a|] == '.' && tail <= s[|a| + 1..] {
      assert s == a + "." + s[|a| + 1..];
      assert s == Dotted(a, b, c) + s[|a| + 1..][|tail|..];
    }
  }

  lemma BeginsTail(s: string, b: string, c: string)
    requires IsSection(b) && IsSection(c)
    ensures b + "." + c <= s <==> |b| < |s| && b == s[..|b|] && s[|b|] == '.' && c <= s[|b| + 1..]
  {
    if b + "." + c <= s {
      var t := b + "." + c;
      assert s[|b|] == t[|b|];
      assert s[..|b|] == t[..|b|] == b;
      assert s[|b| + 1..][..|c|] == t[|b| + 1..] == c;
    }
    if |b| < |s| && b == s[..|b|] && s[|b|] == '.' && c <= s[|b| + 1..] {
      assert s == b + "." + s[|b| + 1..];
      assert s == (b + "." + c) + s[|b| + 1..][|c|..];
    }
  }

  // The whole run of digits at the front of each of three places.
  ghost predicate Runs(s: string, a: string, b: string, c: string) {
    && IsSection(a) && |a| < |s| && a == s[..|a|] && s[|a|] == '.'
    && var t := s[|a| + 1..];
       && IsSection(b) && |b| < |t| && b == t[..|b|] && t[|b|] == '.'
       && var u := t[|b| + 1..];
          IsSection(c) && c <= u && (|c| < |u| ==> !IsDigit(u[|c|]))
  }

  lemma RunsAreSections(s: string, a: string, b: string, c: string)
    ensures BeginsWith(s, a, b, c) <==> Runs(s, a, b, c)
  {
    if IsSection(a) && IsSection(b) && IsSection(c) {
      BeginsParts(s, a, b, c);
      if |a| < |s| {
        var t := s[|a| + 1..];
        BeginsTail(t, b, c);
        if |b| < |t| {
          var u := t[|b| + 1..];
          assert |c| < |u| ==> u[|c|] == s[|Dotted(a, b, c)|];
        }
      }
    }
  }

  // A text begins with at most one status.
  lemma BeginsOnce(s: string, x: string, y: string)
    requires Begins(s, x) && Begins(s, y)
    ensures x == y
  {
    var a, b, c :| BeginsWith(s, a, b, c) && x == Dotted(a, b, c);
    var d, e, f :| BeginsWith(s, d, e, f) && y == Dotted(d, e, f);
    RunsAreSections(s, a, b, c);
    RunsAreSections(s, d, e, f);
    SectionsAreRuns(s, a, b, c);
    SectionsAreRuns(s, d, e, f);
    hide *;
    assert [a, b, c] == [d, e, f];
    assert a == [a, b, c][0] && b == [a, b, c][1] && c == [a, b, c][2];
    assert d == [d, e, f][0] && e == [d, e, f][1] && f == [d, e, f][2];
  }

  // What is read from s when n sections are still to come.
  function Sections(s: string, n: nat): Option<seq<string>>
    requires n >= 1
  {
    var k := DigitPrefix(s);
    if k == 0 || k > 3 then None
    else if n == 1 then Some([s[..k]])
    else if k >= |s| || s[k] != '.' then None
    else After([s[..k]], Sections(s[k + 1..], n - 1))
  }

  lemma LastSection(u: string, c: string)
    ensures Sections(u, 1) == Some([c]) <==> IsSection(c) && c <= u && (|c| < |u| ==> !IsDigit(u[|c|]))
  {
    if IsSection(c) && c <= u && (|c| < |u| ==> !IsDigit(u[|c|])) {
      RunUnique(u, c, u[..DigitPrefix(u)]);
    }
    if Sections(u, 1) == Some([c]) {
      assert [u[..DigitPrefix(u)]][0] == c;
    }
  }

  lemma EarlierSection(t: string, b: string, later: seq<string>, n: nat)
    requires n >= 1
    ensures Sections(t, n + 1) == Some([b] + later) <==>
              && IsSection(b) && |b| < |t| && b == t[..|b|] && t[|b|] == '.'
              && Sections(t[|b| + 1..], n) == Some(later)
  {
    var m := DigitPrefix(t);
    if IsSection(b) && |b| < |t| && b == t[..|b|] && t[|b|] == '.' {
      RunUnique(t, b, t[..m]);
    }
    if Sections(t, n + 1) == Some([b] + later) {
      var rest := Sections(t[m + 1..], n).value;
      assert ([t[..m]] + rest)[0] == ([b] + later)[0] && ([t[..m]] + rest)[1..] == rest;
      assert ([b] + later)[1..] == later;
    }
  }

  lemma SectionsAreRuns(s: string, a: string, b: string, c: string)
    ensures Runs(s, a, b, c) <==> Sections(s, 3) == Some([a, b, c])
  {
    hide Sections;
    assert [a] + [b, c] == [a, b, c] && [b] + [c] == [b, c];
    EarlierSection(s, a, [b, c], 2);
    if |a| < |s| {
      var t := s[|a| + 1..];
      EarlierSection(t, b, [c], 1);
      if |b| < |t| {
        LastSection(t[|b| + 1..], c);
      }
    }
  }

  lemma {:induction false} SectionsCount(s: string, n: nat)
    requires n >= 1
    ensures Sections(s, n).Some? ==> |Sections(s, n).value| == n
  {
    if n > 1 && DigitPrefix(s) < |s| {
      SectionsCount(s[DigitPrefix(s) + 1..], n - 1);
    }
  }

  // The sections are read exactly when the text begins with a status, which is them.
  lemma ParseMeaning(s: string)
    ensures match Sections(s, 3)
            case Some(parts) => |parts| == 3 && Begins(s, Dotted(parts[0], parts[1], parts[2]))
            case None => forall status :: !Begins(s, status)
  {
    SectionsCount(s, 3);
    match Sections(s, 3) {
      case Some(parts) =>
        assert parts == [parts[0], parts[1], parts[2]];
        SectionsAreRuns(s, parts[0], parts[1], parts[2]);
        RunsAreSections(s, parts[0], parts[1], parts[2]);
      case None =>
        forall a, b, c
          ensures !BeginsWith(s, a, b, c)
        {
          SectionsAreRuns(s, a, b, c);
          RunsAreSections(s, a, b, c);
        }
    }
  }

  // The end of the run of digits at start.
  method DigitRun(s: string, start: nat) returns (end: nat)
    requires start <= |s|
    ensures end == start + DigitPrefix(s[start..])
  {
    end := start;
    while end < |s| && IsDigit(s[end])
      invariant start <= end <= |s|
      invariant start + DigitPrefix(s[start..]) == end + DigitPrefix(s[end..])
    {
      assert s[end..][1..] == s[end + 1..];
      end := end + 1;
    }
  }

  function After(parts: seq<string>, rest: Option<seq<string>>): Option<seq<string>> {
    if rest.None? then None else Some(parts + rest.value)
  }

  lemma AfterMore(parts: seq<string>, part: string, rest: Option<seq<string>>)
    ensures After(parts, After([part], rest)) == After(parts + [part], rest)
    ensures After([], rest) == rest
  {
    if rest.Some? {
      assert parts + ([part] + rest.value) == parts + [part] + rest.value;
      assert [] + rest.value == rest.value;
    }
  }

  lemma SectionStep(s: string, parts: seq<string>, start: nat, end: nat, n: nat)
    requires start <= end <= |s| && n >= 1 && end == start + DigitPrefix(s[start..])
    ensures After(parts, Sections(s[start..], n)) ==
            if end == start || end - start > 3 then None
            else if n == 1 then Some(parts + [s[start..end]])
            else if end >= |s| || s[end] != '.' then None
            else After(parts + [s[start..end]], Sections(s[end + 1..], n - 1))
  {
    assert s[start..][..end - start] == s[start..end];
    if n > 1 && end < |s| && s[end] == '.' {
      assert s[start..][end - start + 1..] == s[end + 1..];
      AfterMore(parts, s[start..end], Sections(s[end + 1..], n - 1));
    }
  }

  method ParseStatus(s: string) returns (r: Option<string>)
    ensures r.Some? ==> Begins(s, r.value)
    ensures r.None? ==> forall status :: !Begins(s, status)
  {
    hide *;
    ParseMeaning(s);
    assert s[0..] == s;
    AfterMore([], "", Sections(s, 3));
    var parts, start := [], 0;
    for section := 0 to 3
      invariant |parts| == section && start <= |s|
      invariant section < 3 ==> Sections(s, 3) == After(parts, Sections(s[start..], 3 - section))
      invariant section == 3 ==> Sections(s, 3) == Some(parts)
    {
      var end := DigitRun(s, start);
      SectionStep(s, parts, start, end, 3 - section);
      if end == start || end - start > 3 {
        return None;
      }
      parts := parts + [s[start..end]];
      if section < 2 {
        if end >= |s| || s[end] != '.' {
          return None;
        }
        start := end + 1;
      }
    }
    r := Some(Dotted(parts[0], parts[1], parts[2]));
  }

  // ---- findEnhancedStatus ----

  // A status stands at i: it begins with 4 or 5 and no digit comes before it.
  ghost predicate StatusAt(s: string, i: nat, status: string) {
    && i < |s| && s[i] in "45" && (i > 0 ==> !IsDigit(s[i - 1]))
    && Begins(s[i..], status)
  }

  ghost predicate NoStatusBefore(s: string, i: nat) {
    forall j: nat, status :: j < i ==> !StatusAt(s, j, status)
  }

  ghost predicate FirstStatus(s: string, i: nat, status: string) {
    StatusAt(s, i, status) && NoStatusBefore(s, i)
  }

  // The leftmost status, if any.
  ghost function EnhancedStatus(s: string): Option<string> {
    if exists i: nat, status :: FirstStatus(s, i, status) then
      var i: nat, status :| FirstStatus(s, i, status);
      Some(status)
    else None
  }

  lemma EnhancedStatusIs(s: string, i: nat, status: string)
    requires FirstStatus(s, i, status)
    ensures EnhancedStatus(s) == Some(status)
  {
    forall j: nat, other | FirstStatus(s, j, other)
      ensures other == status
    {
      assert i == j;
      BeginsOnce(s[i..], status, other);
    }
  }

  method FindEnhancedStatus(s: string) returns (r: Option<string>)
    ensures r == EnhancedStatus(s)
  {
    for i := 0 to |s|
      invariant NoStatusBefore(s, i)
    {
      if s[i] != '4' && s[i] != '5' {
        continue;
      }
      if i > 0 && IsDigit(s[i - 1]) {
        continue;
      }
      var status := ParseStatus(s[i..]);
      if status.Some? {
        EnhancedStatusIs(s, i, status.value);
        return status;
      }
    }
    return None;
  }

  // A status found begins with its class digit.
  lemma StatusClass(s: string)
    ensures EnhancedStatus(s).Some? ==> EnhancedStatus(s).value != "" && EnhancedStatus(s).value[0] in "45"
  {
    if i: nat, status :| FirstStatus(s, i, status) {
      EnhancedStatusIs(s, i, status);
      var a, b, c :| BeginsWith(s[i..], a, b, c) && status == Dotted(a, b, c);
      assert status[0] == s[i..][0];
    }
  }

  // ---- findReplyCode ----

  predicate Separates(c: char) {
    c == ' ' || c == '\n' || c == '\r' || c == '\t' || c == '-'
  }

  function CodeValue(a: char, b: char, c: char): int {
    (a as int - '0' as int) * 100 + (b as int - '0' as int) * 10 + (c as int - '0' as int)
  }

  predicate IsCode(f: string) {
    |f| == 3 && AllDigits(f) && 200 <= CodeValue(f[0], f[1], f[2]) <= 599
  }

  function FirstCode(fields: seq<string>): Option<int> {
    if fields == [] then None
    else if IsCode(fields[0]) then Some(CodeValue(fields[0][0], fields[0][1], fields[0][2]))
    else FirstCode(fields[1..])
  }

  function ReplyCode(s: string): Option<int> {
    FirstCode(Fields(s, Separates))
  }

  method FindReplyCode(s: string) returns (r: Option<int>)
    ensures r == ReplyCode(s)
  {
    var fields := Fields(s, Separates);
    for i := 0 to |fields|
      invariant ReplyCode(s) == FirstCode(fields[i..])
    {
      var f := fields[i];
      assert fields[i..][0] == f && fields[i..][1..] == fields[i + 1..];
      if |f| != 3 || !IsDigit(f[0]) || !IsDigit(f[1]) || !IsDigit(f[2]) {
        continue;
      }
      var code := CodeValue(f[0], f[1], f[2]);
      if code >= 200 && code <= 599 {
        return Some(code);
      }
    }
    return None;
  }

  // A code stands at i: three digits between separators or the ends of the text.
  ghost predicate CodeAt(s: string, i: nat, code: int) {
    && i + 3 <= |s| && IsCode(s[i..i + 3]) && code == CodeValue(s[i], s[i + 1], s[i + 2])
    && (i > 0 ==> Separates(s[i - 1])) && (i + 3 < |s| ==> Separates(s[i + 3]))
  }

  ghost predicate NoCodeBefore(s: string, i: nat) {
    forall j: nat, code :: j < i ==> !CodeAt(s, j, code)
  }

  // Codes lie at the same places after a cut at a separator or just past one.
  lemma CodeShift(s: string, n: nat, j: nat, code: int)
    requires 0 < n <= |s| && (Separates(s[n - 1]) || n == |s| || Separates(s[n]))
    ensures CodeAt(s[n..], j, code) ==> CodeAt(s, n + j, code)
    ensures j > 0 || Separates(s[n - 1]) ==> CodeAt(s, n + j, code) ==> CodeAt(s[n..], j, code)
  {
    if n + j + 3 <= |s| {
      assert s[n..][j..j + 3] == s[n + j..n + j + 3];
    }
  }

  // The code read is the leftmost that stands anywhere.
  lemma {:induction false} ReplyCodeMeaning(s: string)
    ensures match ReplyCode(s)
            case Some(code) => exists i: nat :: CodeAt(s, i, code) && NoCodeBefore(s, i)
            case None => NoCodeBefore(s, |s|)
    decreases |s|
  {
    if s != "" {
      if Separates(s[0]) {
        ReplyCodeMeaning(s[1..]);
        Skipped(s, 1);
      } else {
        var n := WordLength(s, Separates);
        WordCode(s, n);
        assert Fields(s, Separates)[0] == s[..n] && Fields(s, Separates)[1..] == Fields(s[n..], Separates);
        if IsCode(s[..n]) {
          assert CodeAt(s, 0, CodeValue(s[0], s[1], s[2]));
        } else {
          ReplyCodeMeaning(s[n..]);
          Skipped(s, n);
        }
      }
    }
  }

  // A word holds a code only by being one.
  lemma WordCode(s: string, n: nat)
    requires s != "" && !Separates(s[0]) && n == WordLength(s, Separates)
    ensures !IsCode(s[..n]) ==> forall j: nat, code :: j <= n ==> !CodeAt(s, j, code)
  {
    forall j: nat, code | j <= n && CodeAt(s, j, code)
      ensures IsCode(s[..n])
    {
      assert IsDigit(s[j..j + 3][0]) && s[j..j + 3][0] == s[j];
      assert IsDigit(s[j..j + 3][1]) && IsDigit(s[j..j + 3][2]);
      assert !Separates(s[j]) && !Separates(s[j + 1]) && !Separates(s[j + 2]);
      assert j == 0 && n == 3;
    }
  }

  lemma Skipped(s: string, n: nat)
    requires 0 < n <= |s| && (Separates(s[n - 1]) || n == |s| || Separates(s[n]))
    requires forall j: nat, code :: j < n || (j == n && !Separates(s[n - 1])) ==> !CodeAt(s, j, code)
    ensures forall i: nat, code :: CodeAt(s[n..], i, code) && NoCodeBefore(s[n..], i) ==>
              CodeAt(s, n + i, code) && NoCodeBefore(s, n + i)
    ensures NoCodeBefore(s[n..], |s| - n) ==> NoCodeBefore(s, |s|)
  {
    hide CodeAt, Separates;
    forall j: nat, code
      ensures CodeAt(s[n..], j, code) ==> CodeAt(s, n + j, code)
      ensures j > 0 || Separates(s[n - 1]) ==> CodeAt(s, n + j, code) ==> CodeAt(s[n..], j, code)
    {
      CodeShift(s, n, j, code);
    }
    forall i: nat | NoCodeBefore(s[n..], i)
      ensures NoCodeBefore(s, n + i)
    {
      forall k: nat, code | k < n + i
        ensures !CodeAt(s, k, code)
      {
        if k > n || (k == n && Separates(s[n - 1])) {
          assert !CodeAt(s[n..], k - n, code);
          CodeShift(s, n, k - n, code);
        }
      }
    }
  }

  // ---- Classify ----

  const COMPLAINTS := ["abuse report", "feedback-type: abuse", "this is an email abuse report", "complaint about message",
                       "spam report"]

  // What the tables say of a status; nothing, of most.
  function HardReason(status: string): Option<string> {
    match status
    case "5.1.1" => Some("no such user")
    case "5.1.2" => Some("no such domain")
    case "5.1.3" => Some("invalid address syntax")
    case "5.1.6" => Some("mailbox has moved")
    case "5.1.10" => Some("no such user, address rejected")
    case "5.2.1" => Some("mailbox disabled")
    case "5.4.4" => Some("unable to route to destination")
    case "5.5.4" => Some("invalid recipient")
    case "5.7.27" => Some("sender address rejected by policy")
    case _ => None
  }

  function SoftReason(status: string): Option<string> {
    match status
    case "4.2.2" => Some("mailbox full")
    case "4.2.1" => Some("mailbox disabled temporarily")
    case "4.3.2" => Some("system not accepting messages")
    case "4.4.1" => Some("no answer from host")
    case "4.4.2" => Some("bad connection")
    case "4.5.3" => Some("too many recipients")
    case "4.7.0" => Some("policy deferral, often greylisting")
    case "4.7.1" => Some("delivery not authorised, try later")
    case "4.7.28" => Some("rate limited by the destination")
    case "5.2.2" => Some("mailbox full")
    case _ => None
  }

  const PERMANENT := "permanent failure reported by the destination"
  const TEMPORARY := "temporary failure reported by the destination"
  const UNCLASSIFIED := "could not classify the response"

  function Clip(response: string): string {
    if |response| > MAX_REPORT_BYTES then response[..MAX_REPORT_BYTES] else response
  }

  ghost predicate Complains(lowered: string) {
    exists p :: p in COMPLAINTS && Contains(lowered, p)
  }

  method FindsComplaint(lowered: string) returns (found: bool)
    ensures found <==> Complains(lowered)
  {
    for i := 0 to |COMPLAINTS|
      invariant forall p :: p in COMPLAINTS[..i] ==> !Contains(lowered, p)
    {
      assert COMPLAINTS[..i + 1] == COMPLAINTS[..i] + [COMPLAINTS[i]];
      if Contains(lowered, COMPLAINTS[i]) {
        assert COMPLAINTS[i] in COMPLAINTS;
        return true;
      }
    }
    assert COMPLAINTS[..|COMPLAINTS|] == COMPLAINTS;
    return false;
  }

  // What decides: a complaint, else the leftmost status, else the leftmost reply code.
  datatype Ground = Complained | ByStatus(status: string) | ByCode(code: int) | Nothing

  ghost function GroundOf(lower: string -> string, response: string): Ground {
    var s := Clip(response);
    if Complains(lower(s)) then Complained
    else if EnhancedStatus(s).Some? then ByStatus(EnhancedStatus(s).value)
    else if ReplyCode(s).Some? then ByCode(ReplyCode(s).value)
    else Nothing
  }

  // The kind a ground gives. Of all statuses only 5.2.2 does not follow its class.
  function KindOf(g: Ground): Kind {
    match g
    case Complained => Complaint
    case ByStatus(status) => if status != "" && status[0] == '5' && status != "5.2.2" then Hard else Soft
    case ByCode(code) => if code >= 500 then Hard else if code >= 400 then Soft else Unknown
    case Nothing => Unknown
  }

  function StatusText(g: Ground): string {
    match g
    case ByStatus(status) => status
    case ByCode(code) => if code >= 400 then Format(code) else ""
    case _ => ""
  }

  // The reason given for a ground.
  function Explanation(g: Ground): string {
    match g
    case Complained => "recipient reported the message as spam"
    case ByStatus(status) =>
      if HardReason(status).Some? then HardReason(status).value
      else if SoftReason(status).Some? then SoftReason(status).value
      else if status != "" && status[0] == '5' then PERMANENT
      else TEMPORARY
    case ByCode(code) => if code >= 500 then PERMANENT else if code >= 400 then TEMPORARY else UNCLASSIFIED
    case Nothing => UNCLASSIFIED
  }

  // The reasons given for the statuses that have their own.
  lemma HardReasons()
    ensures Explanation(ByStatus("5.1.1")) == "no such user" && Explanation(ByStatus("5.1.2")) == "no such domain"
    ensures Explanation(ByStatus("5.1.3")) == "invalid address syntax" && Explanation(ByStatus("5.1.6")) == "mailbox has moved"
    ensures Explanation(ByStatus("5.1.10")) == "no such user, address rejected"
    ensures Explanation(ByStatus("5.2.1")) == "mailbox disabled"
    ensures Explanation(ByStatus("5.4.4")) == "unable to route to destination"
    ensures Explanation(ByStatus("5.5.4")) == "invalid recipient"
    ensures Explanation(ByStatus("5.7.27")) == "sender address rejected by policy"
  {
  }

  lemma SoftReasons()
    ensures Explanation(ByStatus("4.2.2")) == "mailbox full" && Explanation(ByStatus("5.2.2")) == "mailbox full"
    ensures Explanation(ByStatus("4.2.1")) == "mailbox disabled temporarily"
    ensures Explanation(ByStatus("4.3.2")) == "system not accepting messages"
  {
  }

  lemma LaterSoftReasons()
    ensures Explanation(ByStatus("4.4.1")) == "no answer from host" && Explanation(ByStatus("4.4.2")) == "bad connection"
  {
  }

  lemma LastSoftReasons()
    ensures Explanation(ByStatus("4.5.3")) == "too many recipients"
    ensures Explanation(ByStatus("4.7.0")) == "policy deferral, often greylisting"
    ensures Explanation(ByStatus("4.7.1")) == "delivery not authorised, try later"
    ensures Explanation(ByStatus("4.7.28")) == "rate limited by the destination"
  {
  }

  lemma TablesFollowClass(status: string)
    requires status != "" && status[0] in "45"
    ensures HardReason(status).Some? ==> KindOf(ByStatus(status)) == Hard && HardReason(status).value != ""
    ensures HardReason(status).None? && SoftReason(status).Some? ==>
              KindOf(ByStatus(status)) == Soft && SoftReason(status).value != ""
    ensures HardReason(status).None? && SoftReason(status).None? ==>
              KindOf(ByStatus(status)) == if status[0] == '5' then Hard else Soft
  {
  }

  method Classify(lower: string -> string, response: string) returns (r: Outcome)
    ensures var g := GroundOf(lower, response);
            r.kind == KindOf(g) && r.status == StatusText(g) && (r.retryable <==> !Suppresses(r.kind)) && r.reason == Explanation(g)
  {
    hide HardReason, SoftReason, EnhancedStatus, ReplyCode, Complains, Format;
    var s := Clip(response);
    var complaint := FindsComplaint(lower(s));
    if complaint {
      return Outcome(Complaint, "", "recipient reported the message as spam", false);
    }
    var status := FindEnhancedStatus(s);
    StatusClass(s);
    if status.Some? {
      TablesFollowClass(status.value);
      var hard := HardReason(status.value);
      if hard.Some? {
        return Outcome(Hard, status.value, hard.value, false);
      }
      var soft := SoftReason(status.value);
      if soft.Some? {
        return Outcome(Soft, status.value, soft.value, true);
      }
      if status.value[0] == '5' {
        return Outcome(Hard, status.value, PERMANENT, false);
      } else if status.value[0] == '4' {
        return Outcome(Soft, status.value, TEMPORARY, true);
      }
    }
    var code := FindReplyCode(s);
    if code.Some? {
      if code.value >= 500 {
        return Outcome(Hard, Format(code.value), PERMANENT, false);
      } else if code.value >= 400 {
        return Outcome(Soft, Format(code.value), TEMPORARY, true);
      }
    }
    return Outcome(Unknown, "", UNCLASSIFIED, true);
  }

  // ---- What is decided ----

  // An address is suppressed exactly for a complaint, for a leftmost status of class 5 other
  // than 5.2.2, or, when no status stands anywhere, for a leftmost reply code of 500 or more.
  lemma SuppressesExactly(lower: string -> string, response: string)
    ensures var s := Clip(response);
            Suppresses(KindOf(GroundOf(lower, response))) <==>
              || Complains(lower(s))
              || (exists i: nat, status :: FirstStatus(s, i, status) && i < |s| && s[i] == '5' && status != "5.2.2")
              || (NoStatusBefore(s, |s|) && exists i: nat, code :: CodeAt(s, i, code) && NoCodeBefore(s, i) && code >= 500)
  {
    hide EnhancedStatus, ReplyCode, Complains, CodeAt, FirstStatus, NoStatusBefore, NoCodeBefore, Clip;
    var s := Clip(response);
    forall i: nat, status | FirstStatus(s, i, status)
      ensures EnhancedStatus(s) == Some(status) && i < |s| && status != "" && status[0] == s[i]
    {
      EnhancedStatusIs(s, i, status);
      FirstStatusStart(s, i, status);
    }
    StatusAbsent(s);
    ReplyCodeMeaning(s);
    forall i: nat, code | CodeAt(s, i, code) && NoCodeBefore(s, i)
      ensures ReplyCode(s) == Some(code)
    {
      FirstCodeOnce(s, i, code);
    }
    if EnhancedStatus(s).Some? {
      var i: nat :| FirstStatus(s, i, EnhancedStatus(s).value);
    } else if ReplyCode(s).Some? {
      var i: nat :| CodeAt(s, i, ReplyCode(s).value) && NoCodeBefore(s, i);
    }
  }

  lemma FirstStatusStart(s: string, i: nat, status: string)
    requires FirstStatus(s, i, status)
    ensures i < |s| && status != "" && status[0] == s[i]
  {
    hide Begins, NoStatusBefore;
    StatusStart(s, i, status);
  }

  lemma StatusStart(s: string, i: nat, status: string)
    requires StatusAt(s, i, status)
    ensures status != "" && status[0] == s[i]
  {
    var a, b, c :| BeginsWith(s[i..], a, b, c) && status == Dotted(a, b, c);
    assert status[0] == s[i..][0];
  }

  lemma {:induction false} StatusAbsent(s: string)
    ensures EnhancedStatus(s).None? <==> NoStatusBefore(s, |s|)
    ensures EnhancedStatus(s).Some? ==> exists i: nat :: FirstStatus(s, i, EnhancedStatus(s).value)
  {
    assert forall i: nat, status :: FirstStatus(s, i, status) ==> i < |s| && StatusAt(s, i, status);
    if !NoStatusBefore(s, |s|) {
      FirstFrom(s, 0);
    }
  }

  lemma {:induction false} FirstFrom(s: string, from: nat)
    requires from <= |s| && NoStatusBefore(s, from) && !NoStatusBefore(s, |s|)
    ensures exists i: nat, status :: FirstStatus(s, i, status)
    decreases |s| - from
  {
    if status :| StatusAt(s, from, status) {
      assert FirstStatus(s, from, status);
    } else {
      FirstFrom(s, from + 1);
    }
  }

  lemma FirstCodeOnce(s: string, i: nat, code: int)
    requires CodeAt(s, i, code) && NoCodeBefore(s, i)
    ensures ReplyCode(s) == Some(code)
  {
    ReplyCodeMeaning(s);
    hide ReplyCode, IsCode, Separates;
    assert ReplyCode(s).Some?;
    var j: nat :| CodeAt(s, j, ReplyCode(s).value) && NoCodeBefore(s, j);
    assert j == i;
  }

  // A code followed by a separator is no section followed by a dot.
  lemma CodeIsNoSection(code: string, separator: char, s: string, d: string)
    requires |code| == 3 && AllDigits(code) && Separates(separator) && code + [separator] <= s
    ensures !(IsSection(d) && |d| < |s| && d == s[..|d|] && s[|d|] == '.')
  {
    assert forall k :: 0 <= k < 3 ==> s[k] == code[k];
    assert s[3] == separator;
  }

  // In a reply line the status after the code is the one read, whatever text follows.
  lemma ReplyLine(code: string, separator: char, a: string, b: string, c: string, rest: string)
    requires |code| == 3 && AllDigits(code) && Separates(separator)
    requires IsSection(a) && IsSection(b) && IsSection(c) && a[0] in "45" && (rest != "" ==> !IsDigit(rest[0]))
    ensures EnhancedStatus(code + [separator] + Dotted(a, b, c) + rest) == Some(Dotted(a, b, c))
  {
    var status := Dotted(a, b, c);
    var s := code + [separator] + status + rest;
    assert s[4..] == status + rest;
    assert Begins(s[4..], status) by {
      assert BeginsWith(s[4..], a, b, c);
    }
    assert s[4] == a[0];
    forall d, e, f
      ensures !BeginsWith(s[0..], d, e, f)
    {
      RunsAreSections(s[0..], d, e, f);
      CodeIsNoSection(code, separator, s[0..], d);
    }
    assert forall t :: !StatusAt(s, 0, t);
    assert forall j, t :: 0 < j < 4 ==> !StatusAt(s, j, t);
    EnhancedStatusIs(s, 4, status);
  }

  // A code is the decimal print of a number from 200 to 599.
  lemma CodeText(f: string)
    ensures IsCode(f) <==> exists n :: 200 <= n <= 599 && f == Format(n)
    ensures IsCode(f) ==> f == Format(CodeValue(f[0], f[1], f[2]))
  {
    if IsCode(f) {
      CodePrints(f);
      hide CodeValue, Format;
      assert 200 <= CodeValue(f[0], f[1], f[2]) <= 599;
    }
    if n :| 200 <= n <= 599 && f == Format(n) {
      ThreeDigits(n);
    }
  }

  lemma CodePrints(f: string)
    requires IsCode(f)
    ensures f == Format(CodeValue(f[0], f[1], f[2]))
  {
    hide Format;
    var a, b, c := f[0] as int - '0' as int, f[1] as int - '0' as int, f[2] as int - '0' as int;
    var n := CodeValue(f[0], f[1], f[2]);
    assert n == a * 100 + b * 10 + c && n / 100 == a && n / 10 == a * 10 + b && n % 10 == c;
    ThreeDigits(n);
    assert f == [Digit(a), Digit(b), Digit(c)];
  }

  lemma ThreeDigits(n: nat)
    requires 200 <= n <= 599
    ensures Format(n) == [Digit(n / 100), Digit(n / 10 % 10), Digit(n % 10)] && IsCode(Format(n))
  {
    assert n / 10 / 10 == n / 100;
    assert Digits(n / 100) == [Digit(n / 100)];
    assert Digits(n / 10) == Digits(n / 100) + [Digit(n / 10 % 10)];
    assert Digits(n) == Digits(n / 10) + [Digit(n % 10)];
  }

  // Of one character after a code, only these five leave it standing alone.
  lemma SeparatedCode(n: nat, c: char)
    requires 200 <= n <= 599
    ensures ReplyCode(Format(n) + [c]) == if c in " \n\r\t-" then Some(n) else None
  {
    ThreeDigits(n);
    var s := Format(n) + [c];
    assert s[0..3] == Format(n);
    assert CodeValue(s[0], s[1], s[2]) == n;
    hide ReplyCode, IsCode, Format, CodeValue;
    assert Separates(c) <==> c in " \n\r\t-";
    if Separates(c) {
      assert CodeAt(s, 0, n) && NoCodeBefore(s, 0);
      FirstCodeOnce(s, 0, n);
    } else {
      ReplyCodeMeaning(s);
      forall j: nat, code
        ensures !CodeAt(s, j, code)
      {
        if j == 1 {
          assert !Separates(s[0]);
        }
      }
    }
  }

  // The phrases, and the reason given for each status that has its own.
  lemma Phrases(s: string)
    ensures Complains(s) <==>
              || Contains(s, "abuse report") || Contains(s, "feedback-type: abuse")
              || Contains(s, "this is an email abuse report") || Contains(s, "complaint about message") || Contains(s, "spam report")
  {
    hide Contains;
    assert COMPLAINTS == ["abuse report", "feedback-type: abuse", "this is an email abuse report", "complaint about message",
                          "spam report"];
    assert forall i :: 0 <= i < 5 ==> COMPLAINTS[i] in COMPLAINTS;
  }

  // Nothing beyond the first mebibyte is read.
  lemma OnlyTheFirstMebibyte(lower: string -> string, x: string, y: string)
    requires |x| >= 1_048_576 && |y| >= 1_048_576 && x[..1_048_576] == y[..1_048_576]
    ensures GroundOf(lower, x) == GroundOf(lower, y)
  {
    assert |x| == MAX_REPORT_BYTES ==> x[..MAX_REPORT_BYTES] == x;
    assert |y| == MAX_REPORT_BYTES ==> y[..MAX_REPORT_BYTES] == y;
  }
}
