// internal/webhook/sign.go: signatures over webhook requests, after section 2.5 of RFC 9421
// with a fixed component list.
//
// The hash, the MAC, the URL normaliser and the case mapping are parameters. Times are
// nanoseconds since the epoch.
module WebhookSign {
  import opened Prelude
  import opened Text
  import opened Utf8
  import opened Decimal
  import Base64

  const SECOND := 1_000_000_000
  const REPLAY_WINDOW := 5 * 60 * SECOND

  // What the platform supplies.
  datatype Platform = Platform(sha256: Bytes -> Bytes, hmac: (Bytes, Bytes) -> Bytes,
                               normalizeTarget: string -> string, upper: char -> char)

  datatype Error = NoCreated | OutsideReplayWindow | NotBase64 | Mismatch

  const DIGEST_HEADER := "Content-Digest"
  const INPUT_HEADER := "Signature-Input"
  const SIGNATURE_HEADER := "Signature"

  function ContentDigest(p: Platform, body: Bytes): string {
    "sha-256=:" + Base64.EncodePadded(p.sha256(body)) + ":"
  }

  const BEFORE_CREATED := "(\"@method\" \"@target-uri\" \"content-digest\");"
  const MARKER := "created="
  const AFTER_CREATED := ";keyid=\"aiemail\";alg=\"hmac-sha256\""
  const LABEL := "sig1="

  function SignatureParams(created: int): string {
    BEFORE_CREATED + MARKER + Format(created) + AFTER_CREATED
  }

  const METHOD_LINE := "\"@method\": "
  const TARGET_LINE := "\"@target-uri\": "
  const DIGEST_LINE := "\"content-digest\": "
  const PARAMS_LINE := "\"@signature-params\": "

  function SignatureBase(p: Platform, verb: string, target: string, digest: string, created: int): string {
    METHOD_LINE + MapChars(p.upper, verb) + "\n"
    + (TARGET_LINE + p.normalizeTarget(target) + "\n"
       + (DIGEST_LINE + digest + "\n"
          + (PARAMS_LINE + SignatureParams(created))))
  }

  function SignatureOf(p: Platform, verb: string, target: string, body: Bytes, secret: Bytes, created: int): Bytes {
    p.hmac(secret, Encode(SignatureBase(p, verb, target, ContentDigest(p, body), created)))
  }

  class Request {
    const verb: string
    const url: string
    var header: map<string, string>

    constructor (verb: string, url: string)
      ensures this.verb == verb && this.url == url && header == map[]
    {
      this.verb, this.url, header := verb, url, map[];
    }
  }

  // The three headers a signed request carries.
  function Signed(p: Platform, verb: string, url: string, body: Bytes, secret: Bytes, created: int): map<string, string> {
    map[DIGEST_HEADER := ContentDigest(p, body),
        INPUT_HEADER := LABEL + SignatureParams(created / SECOND),
        SIGNATURE_HEADER := LABEL + ":" + Base64.EncodePadded(SignatureOf(p, verb, url, body, secret, created / SECOND)) + ":"]
  }

  method Sign(p: Platform, req: Request, body: Bytes, secret: Bytes, created: int)
    modifies req`header
    ensures req.header == old(req.header) + Signed(p, req.verb, req.url, body, secret, created)
  {
    hide ContentDigest, SignatureParams, SignatureBase, Base64.EncodePadded, Encode;
    var digest := ContentDigest(p, body);
    req.header := req.header[DIGEST_HEADER := digest];
    var unix := created / SECOND;
    var base := SignatureBase(p, req.verb, req.url, digest, unix);
    var sig := Base64.EncodePadded(p.hmac(secret, Encode(base)));
    req.header := req.header[INPUT_HEADER := LABEL + SignatureParams(unix)];
    req.header := req.header[SIGNATURE_HEADER := LABEL + ":" + sig + ":"];
  }

  // The text up to the first ';' or ','.
  function UpToDelimiter(s: string): string {
    if s == "" || s[0] == ';' || s[0] == ',' then "" else [s[0]] + UpToDelimiter(s[1..])
  }

  function CreatedFrom(input: string): Option<int> {
    var i := Index(input, MARKER);
    if i < 0 then None else Scan(UpToDelimiter(input[i + |MARKER|..]))
  }

  function TrimColons(s: string): string {
    if s != "" && s[0] == ':' then TrimColons(s[1..])
    else if s != "" && s[|s| - 1] == ':' then TrimColons(s[..|s| - 1])
    else s
  }

  function TrimPrefix(s: string, prefix: string): string {
    if prefix <= s then s[|prefix|..] else s
  }

  function Verify(p: Platform, verb: string, target: string, body: Bytes, secret: Bytes, input: string, signature: string,
                  now: int): Result<(), Error> {
    var created := CreatedFrom(input);
    if created.None? then Err(NoCreated)
    else
      var age := now - created.value * SECOND;
      if age > REPLAY_WINDOW || age < -REPLAY_WINDOW then Err(OutsideReplayWindow)
      else
        var got := Base64.DecodePadded(TrimColons(TrimPrefix(signature, LABEL)));
        if got.None? then Err(NotBase64)
        else if SignatureOf(p, verb, target, body, secret, created.value) != got.value then Err(Mismatch)
        else Ok(())
  }

  // ---- Reading the creation time back ----

  lemma NoMarkerBefore(i: nat)
    requires i < |LABEL + BEFORE_CREATED|
    ensures var s := LABEL + BEFORE_CREATED; s[i] == 'c' ==> i + 1 < |s| && s[i + 1] == 'o'
  {
  }

  lemma MarkerAt(rest: string)
    ensures var s := LABEL + BEFORE_CREATED; Index(s + MARKER + rest, MARKER) == |s|
  {
    var s := LABEL + BEFORE_CREATED;
    var t := s + MARKER + rest;
    assert t[|s|..|s| + |MARKER|] == MARKER;
    forall j | 0 <= j < |s|
      ensures !OccursAt(t, MARKER, j)
    {
      NoMarkerBefore(j);
      assert t[j] == s[j];
      assert MARKER[0] == 'c' && MARKER[1] == 'r';
      if j + |MARKER| <= |t| {
        assert t[j..j + |MARKER|][0] == t[j] && t[j..j + |MARKER|][1] == t[j + 1];
      }
    }
    IndexIs(t, MARKER, |s|);
  }

  lemma {:induction false} UpTo(s: string, rest: string)
    requires forall i :: 0 <= i < |s| ==> s[i] != ';' && s[i] != ','
    requires rest != "" && rest[0] == ';'
    ensures UpToDelimiter(s + rest) == s
  {
    if s == "" {
      assert s + rest == rest;
    } else {
      assert (s + rest)[1..] == s[1..] + rest;
      UpTo(s[1..], rest);
    }
  }

  lemma CreatedAfterMarker(rest: string)
    ensures CreatedFrom(LABEL + BEFORE_CREATED + MARKER + rest) == Decimal.Scan(UpToDelimiter(rest))
  {
    MarkerAt(rest);
    hide Index, Decimal.Scan, UpToDelimiter;
    var s := LABEL + BEFORE_CREATED;
    assert (s + MARKER + rest)[|s| + |MARKER|..] == rest;
  }

  // createdFrom reads the time signatureParams wrote, whatever it is.
  lemma CreatedRoundTrip(created: int)
    requires IsInt64(created)
    ensures CreatedFrom(LABEL + SignatureParams(created)) == Some(created)
  {
    hide CreatedFrom, Format, Decimal.Scan, UpToDelimiter;
    FormatHasNoOther(created, ';');
    FormatHasNoOther(created, ',');
    UpTo(Format(created), AFTER_CREATED);
    ScanFormat(created);
    CreatedAfterMarker(Format(created) + AFTER_CREATED);
    assert LABEL + SignatureParams(created) == LABEL + BEFORE_CREATED + MARKER + (Format(created) + AFTER_CREATED);
  }

  // ---- A signature verifies exactly inside the replay window ----

  lemma NoColonsToTrim(s: string)
    requires s != "" ==> s[0] != ':' && s[|s| - 1] != ':'
    ensures TrimColons(s) == s
  {
  }

  lemma TrimRightColon(s: string)
    requires forall i :: 0 <= i < |s| ==> s[i] != ':'
    ensures TrimColons(s + ":") == s
  {
    NoColonsToTrim(s);
    hide *;
    TrimLastColon(s);
  }

  lemma TrimLastColon(s: string)
    requires s != "" ==> s[0] != ':'
    ensures TrimColons(s + ":") == TrimColons(s)
  {
    var t := s + ":";
    assert t[|t| - 1] == ':' && t[..|t| - 1] == s;
    if s == "" {
      assert t[1..] == s;
    } else {
      assert t[0] == s[0];
    }
  }

  lemma TrimOneColonEach(s: string)
    requires forall i :: 0 <= i < |s| ==> s[i] != ':'
    ensures TrimColons(":" + s + ":") == s
  {
    TrimRightColon(s);
    assert (":" + s + ":")[1..] == s + ":";
  }

  lemma PaddedHasNoColon(b: Bytes)
    ensures forall i :: 0 <= i < |Base64.EncodePadded(b)| ==> Base64.EncodePadded(b)[i] != ':' && Base64.EncodePadded(b)[i] != '\n'
  {
    Base64.EncodedChars(b, false);
    hide Base64.EncodeRaw;
    var raw := Base64.EncodeRaw(b, false);
    assert forall i :: 0 <= i < |raw| ==> Base64.IsCode(raw[i], false);
  }

  lemma SignatureReads(sig: Bytes)
    ensures Base64.DecodePadded(TrimColons(TrimPrefix(LABEL + ":" + Base64.EncodePadded(sig) + ":", LABEL))) == Some(sig)
  {
    var code := Base64.EncodePadded(sig);
    PaddedHasNoColon(sig);
    TrimOneColonEach(code);
    Base64.PaddedRoundTrip(sig);
    hide Base64.EncodePadded, Base64.DecodePadded, TrimColons;
    var header := LABEL + ":" + code + ":";
    assert header == LABEL + (":" + code + ":");
    assert header[|LABEL|..] == ":" + code + ":";
  }

  // What Sign puts on a request, Verify accepts from five minutes before the second of
  // creation to five minutes after it, and refuses at any other time as stale.
  lemma SignThenVerify(p: Platform, verb: string, url: string, body: Bytes, secret: Bytes, created: int, now: int)
    requires IsInt64(created / SECOND)
    ensures var header := Signed(p, verb, url, body, secret, created);
            Verify(p, verb, url, body, secret, header[INPUT_HEADER], header[SIGNATURE_HEADER], now) ==
            if -300 * SECOND <= now - created / SECOND * SECOND <= 300 * SECOND then Ok(()) else Err(OutsideReplayWindow)
  {
    CreatedRoundTrip(created / SECOND);
    SignatureReads(SignatureOf(p, verb, url, body, secret, created / SECOND));
    hide CreatedFrom, SignatureParams, Base64.EncodePadded, Base64.DecodePadded, TrimColons, TrimPrefix, SignatureOf;
    assert INPUT_HEADER != SIGNATURE_HEADER;
  }

  // ---- The text that is signed ----

  // One line for each component, in their order, and the parameters in the last: the
  // signature base of section 2.5 of RFC 9421.
  lemma BaseLines(p: Platform, verb: string, target: string, digest: string, created: int)
    requires '\n' !in MapChars(p.upper, verb) && '\n' !in p.normalizeTarget(target) && '\n' !in digest
    ensures Split(SignatureBase(p, verb, target, digest, created), '\n') ==
            ["\"@method\": " + MapChars(p.upper, verb), "\"@target-uri\": " + p.normalizeTarget(target),
             "\"content-digest\": " + digest,
             "\"@signature-params\": " + "(\"@method\" \"@target-uri\" \"content-digest\");" + "created=" + Format(created)
             + ";keyid=\"aiemail\";alg=\"hmac-sha256\""]
  {
    ParamsOneLine(created);
    LinesOneLine();
    ParamsText(created);
    hide Split, SignatureParams, MapChars, Format, METHOD_LINE, TARGET_LINE, DIGEST_LINE, PARAMS_LINE;
    var a, b, c := METHOD_LINE + MapChars(p.upper, verb), TARGET_LINE + p.normalizeTarget(target), DIGEST_LINE + digest;
    var d := PARAMS_LINE + SignatureParams(created);
    SplitPart(a, '\n', b + "\n" + (c + "\n" + d));
    SplitPart(b, '\n', c + "\n" + d);
    SplitPart(c, '\n', d);
    SplitPart(d, '\n', "");
    assert SignatureBase(p, verb, target, digest, created) == a + "\n" + (b + "\n" + (c + "\n" + d));
    LineNames();
  }

  lemma LineNames()
    ensures METHOD_LINE == "\"@method\": " && TARGET_LINE == "\"@target-uri\": " && DIGEST_LINE == "\"content-digest\": "
  {
  }

  lemma ParamsText(created: int)
    ensures PARAMS_LINE + SignatureParams(created) ==
            "\"@signature-params\": " + "(\"@method\" \"@target-uri\" \"content-digest\");" + "created=" + Format(created)
            + ";keyid=\"aiemail\";alg=\"hmac-sha256\""
  {
    hide Format;
    assert PARAMS_LINE + SignatureParams(created) == PARAMS_LINE + BEFORE_CREATED + MARKER + Format(created) + AFTER_CREATED;
  }

  // ---- The base says one thing ----

  ghost predicate OneLine(s: string) {
    '\n' !in s
  }

  // The case mapping leaves no small 't', as upper case does.
  ghost predicate NoSmallT(p: Platform) {
    forall c :: p.upper(c) != 't'
  }

  // The last line of a text.
  lemma LastLine(a: string, x: string, b: string, y: string)
    requires OneLine(x) && OneLine(y) && a + "\n" + x == b + "\n" + y
    ensures a == b && x == y
  {
    var s := a + "\n" + x;
    assert s[|a|] == '\n' && s[|b|] == '\n';
    assert forall i :: |a| < i < |s| ==> s[i] == x[i - |a| - 1];
    assert forall i :: |b| < i < |s| ==> s[i] == y[i - |b| - 1];
    assert |a| == |b|;
    assert a == s[..|a|] && b == s[..|b|] && x == s[|a| + 1..] && y == s[|b| + 1..];
  }

  // A text without 't', up to a line that has one in third place.
  lemma CutMethod(v: string, x: string, v': string, y: string, k: string)
    requires 't' !in v && 't' !in v' && |k| >= 3 && k[0] != '\n' && k[1] != '\n' && k[2] == 't'
    requires v + "\n" + k + x == v' + "\n" + k + y
    ensures v == v' && x == y
  {
    var s := v + "\n" + k + x;
    assert s[|v|] == '\n' && s[|v| + 1] == k[0] && s[|v| + 2] == k[1] && s[|v| + 3] == 't';
    assert s[|v'|] == '\n' && s[|v'| + 1] == k[0] && s[|v'| + 2] == k[1] && s[|v'| + 3] == 't';
    assert forall i :: 0 <= i < |v| ==> s[i] == v[i];
    assert forall i :: 0 <= i < |v'| ==> s[i] == v'[i];
    assert |v| == |v'|;
    assert v == s[..|v|] && v' == s[..|v'|];
    assert x == s[|v| + 1 + |k|..] && y == s[|v'| + 1 + |k|..];
  }

  // t holds a line that the other request has at the front of its digest.
  ghost predicate SwallowsLine(t: string, d: string, t': string, d': string, k: string) {
    exists e :: t == t' + "\n" + k + e && d' == e + "\n" + k + d
  }

  lemma Swallowed(t: string, d: string, t': string, d': string, k: string)
    requires OneLine(k) && t + "\n" + k + d == t' + "\n" + k + d' && |t| > |t'|
    ensures SwallowsLine(t, d, t', d', k)
  {
    var s, n := t + "\n" + k + d, |t'| + 1 + |k|;
    assert s[|t|] == '\n';
    assert forall i :: 0 <= i < |k| ==> s[|t'| + 1 + i] == k[i];
    assert |t| >= n;
    var e := t[n..];
    assert t == s[..|t|] && t' == s[..|t'|] && s[|t'|..n] == "\n" + k;
    assert t == t' + "\n" + k + e;
    assert d' == s[n..];
    assert s == t' + "\n" + k + (e + "\n" + k + d);
  }

  // Two targets and digests make the same lines exactly if they are the same, or one target
  // swallows a digest line that the other request's digest begins with.
  lemma CutDigest(t: string, d: string, t': string, d': string, k: string)
    requires OneLine(k)
    ensures t + "\n" + k + d == t' + "\n" + k + d' <==>
              (t == t' && d == d') || SwallowsLine(t, d, t', d', k) || SwallowsLine(t', d', t, d, k)
  {
    var s, u := t + "\n" + k + d, t' + "\n" + k + d';
    if s == u {
      if |t| > |t'| {
        Swallowed(t, d, t', d', k);
      } else if |t'| > |t| {
        Swallowed(t', d', t, d, k);
      } else {
        assert t == s[..|t|] && t' == u[..|t|] && d == s[|t| + 1 + |k|..] && d' == u[|t| + 1 + |k|..];
      }
    }
    if e :| t == t' + "\n" + k + e && d' == e + "\n" + k + d {
      assert s == u;
    }
    if e :| t' == t + "\n" + k + e && d == e + "\n" + k + d' {
      assert s == u;
    }
  }

  lemma ParamsInjective(c: int, d: int)
    requires SignatureParams(c) == SignatureParams(d) && IsInt64(c) && IsInt64(d)
    ensures c == d
  {
    CreatedRoundTrip(c);
    CreatedRoundTrip(d);
  }

  lemma PiecesOneLine()
    ensures OneLine(PARAMS_LINE) && OneLine(MARKER)
  {
  }

  lemma BeforeOneLine()
    ensures OneLine(BEFORE_CREATED)
  {
  }

  lemma AfterOneLine()
    ensures OneLine(AFTER_CREATED)
  {
  }

  lemma ParamsOneLine(c: int)
    ensures OneLine(PARAMS_LINE + SignatureParams(c))
  {
    hide PARAMS_LINE, BEFORE_CREATED, MARKER, AFTER_CREATED, Format;
    PiecesOneLine();
    BeforeOneLine();
    AfterOneLine();
    FormatHasNoOther(c, '\n');
  }

  lemma UpperHasNoT(p: Platform, v: string)
    requires NoSmallT(p)
    ensures 't' !in MapChars(p.upper, v)
  {
  }

  lemma LinesOneLine()
    ensures OneLine(METHOD_LINE) && OneLine(TARGET_LINE) && OneLine(DIGEST_LINE)
    ensures |TARGET_LINE| >= 3 && TARGET_LINE[0] != '\n' && TARGET_LINE[1] != '\n' && TARGET_LINE[2] == 't'
  {
  }

  lemma BaseParts(p: Platform, v: string, t: string, d: string, c: int)
    ensures SignatureBase(p, v, t, d, c) ==
            METHOD_LINE + (MapChars(p.upper, v) + "\n" + TARGET_LINE + (p.normalizeTarget(t) + "\n" + DIGEST_LINE + d))
            + "\n" + (PARAMS_LINE + SignatureParams(c))
  {
    hide SignatureParams, MapChars, METHOD_LINE, TARGET_LINE, DIGEST_LINE, PARAMS_LINE;
  }

  // Exactly when two requests have the same signature base.
  lemma BaseExactly(p: Platform, v: string, t: string, d: string, c: int, v': string, t': string, d': string, c': int)
    requires NoSmallT(p) && IsInt64(c) && IsInt64(c')
    ensures SignatureBase(p, v, t, d, c) == SignatureBase(p, v', t', d', c') <==>
              && MapChars(p.upper, v) == MapChars(p.upper, v') && c == c'
              && var (n, n') := (p.normalizeTarget(t), p.normalizeTarget(t'));
                 (n == n' && d == d') || SwallowsLine(n, d, n', d', DIGEST_LINE) || SwallowsLine(n', d', n, d, DIGEST_LINE)
  {
    BaseParts(p, v, t, d, c);
    BaseParts(p, v', t', d', c');
    LinesOneLine();
    ParamsOneLine(c);
    ParamsOneLine(c');
    UpperHasNoT(p, v);
    UpperHasNoT(p, v');
    hide SignatureBase, SignatureParams, MapChars, SwallowsLine, METHOD_LINE, TARGET_LINE, DIGEST_LINE, PARAMS_LINE;
    var n, n' := p.normalizeTarget(t), p.normalizeTarget(t');
    CutDigest(n, d, n', d', DIGEST_LINE);
    var x, x' := n + "\n" + DIGEST_LINE + d, n' + "\n" + DIGEST_LINE + d';
    var up, up' := MapChars(p.upper, v), MapChars(p.upper, v');
    var y, y' := up + "\n" + TARGET_LINE + x, up' + "\n" + TARGET_LINE + x';
    if SignatureBase(p, v, t, d, c) == SignatureBase(p, v', t', d', c') {
      var last, last' := PARAMS_LINE + SignatureParams(c), PARAMS_LINE + SignatureParams(c');
      LastLine(METHOD_LINE + y, last, METHOD_LINE + y', last');
      assert last[|PARAMS_LINE|..] == SignatureParams(c) && last'[|PARAMS_LINE|..] == SignatureParams(c');
      ParamsInjective(c, c');
      assert (METHOD_LINE + y)[|METHOD_LINE|..] == y && (METHOD_LINE + y')[|METHOD_LINE|..] == y';
      CutMethod(up, x, up', x', TARGET_LINE);
    }
  }

  // So the base is injective where the digests hold no line break, whatever the methods and
  // the targets hold, and where the targets hold none, whatever the digests do: two requests
  // share a base only if both a target and a digest have a break.
  lemma BaseInjective(p: Platform, v: string, t: string, d: string, c: int, v': string, t': string, d': string, c': int)
    requires NoSmallT(p) && IsInt64(c) && IsInt64(c')
    requires (OneLine(d) && OneLine(d')) || (OneLine(p.normalizeTarget(t)) && OneLine(p.normalizeTarget(t')))
    requires SignatureBase(p, v, t, d, c) == SignatureBase(p, v', t', d', c')
    ensures MapChars(p.upper, v) == MapChars(p.upper, v') && p.normalizeTarget(t) == p.normalizeTarget(t') && d == d' && c == c'
  {
    BaseExactly(p, v, t, d, c, v', t', d', c');
    hide SignatureBase, SignatureParams, MapChars, DIGEST_LINE;
    SwallowsBreaks(p.normalizeTarget(t), d, p.normalizeTarget(t'), d', DIGEST_LINE);
    SwallowsBreaks(p.normalizeTarget(t'), d', p.normalizeTarget(t), d, DIGEST_LINE);
  }

  lemma SwallowsBreaks(t: string, d: string, t': string, d': string, k: string)
    ensures SwallowsLine(t, d, t', d', k) ==> !OneLine(t) && !OneLine(d')
  {
    if e :| t == t' + "\n" + k + e && d' == e + "\n" + k + d {
      assert t[|t'|] == '\n' && d'[|e|] == '\n';
    }
  }

  // With a break in both, there are such requests: the target of the first swallows a digest
  // line, the digest of the second gives it back. ContentDigest makes no such digest, so only
  // a caller that passes its own to SignatureBase can meet them.
  lemma BaseShared(p: Platform, verb: string, target: string, d: string, e: string, created: int)
    requires var long := target + "\n" + DIGEST_LINE + d;
             p.normalizeTarget(target) == target && p.normalizeTarget(long) == long
    ensures var long, longer := target + "\n" + DIGEST_LINE + d, d + "\n" + DIGEST_LINE + e;
            && SignatureBase(p, verb, long, e, created) == SignatureBase(p, verb, target, longer, created)
            && p.normalizeTarget(long) != p.normalizeTarget(target) && e != longer
            && !OneLine(long) && !OneLine(longer)
            && forall body :: ContentDigest(p, body) != longer
  {
    hide SignatureParams, MapChars, DIGEST_LINE, ContentDigest;
    var long, longer := target + "\n" + DIGEST_LINE + d, d + "\n" + DIGEST_LINE + e;
    BaseParts(p, verb, long, e, created);
    BaseParts(p, verb, target, longer, created);
    assert |long| > |target| && |longer| > |e|;
    assert long[|target|] == '\n' && longer[|d|] == '\n';
    assert long + "\n" + DIGEST_LINE + e == target + "\n" + DIGEST_LINE + longer;
    forall body
      ensures ContentDigest(p, body) != longer
    {
      DigestInjective(p, body, body);
    }
  }

  ghost predicate CollisionFree(p: Platform, secret: Bytes) {
    forall a: Bytes, b: Bytes :: p.hmac(secret, a) == p.hmac(secret, b) ==> a == b
  }

  // A captured signature is good for nothing else: if it verifies for another method,
  // target or body, these do not differ in what is signed.
  lemma NotTransferable(p: Platform, verb: string, url: string, body: Bytes, secret: Bytes, created: int,
                        verb': string, url': string, body': Bytes, now: int)
    requires IsInt64(created / SECOND) && CollisionFree(p, secret) && NoSmallT(p)
    requires var header := Signed(p, verb, url, body, secret, created);
             Verify(p, verb', url', body', secret, header[INPUT_HEADER], header[SIGNATURE_HEADER], now).Ok?
    ensures MapChars(p.upper, verb) == MapChars(p.upper, verb') && p.normalizeTarget(url) == p.normalizeTarget(url')
    ensures p.sha256(body) == p.sha256(body')
  {
    var unix := created / SECOND;
    CreatedRoundTrip(unix);
    SignatureReads(SignatureOf(p, verb, url, body, secret, unix));
    DigestInjective(p, body, body');
    assert SignatureOf(p, verb, url, body, secret, unix) == SignatureOf(p, verb', url', body', secret, unix) by {
      hide CreatedFrom, SignatureParams, Base64.EncodePadded, Base64.DecodePadded, TrimColons, TrimPrefix, SignatureOf;
      assert INPUT_HEADER != SIGNATURE_HEADER;
    }
    var base := SignatureBase(p, verb, url, ContentDigest(p, body), unix);
    var base' := SignatureBase(p, verb', url', ContentDigest(p, body'), unix);
    hide SignatureBase, ContentDigest, Encode, Runes, MapChars;
    RunesOfEncoded(base);
    RunesOfEncoded(base');
    BaseInjective(p, verb, url, ContentDigest(p, body), unix, verb', url', ContentDigest(p, body'), unix);
  }

  lemma DigestInjective(p: Platform, a: Bytes, b: Bytes)
    ensures OneLine(ContentDigest(p, a)) && OneLine(ContentDigest(p, b))
    ensures ContentDigest(p, a) == ContentDigest(p, b) ==> p.sha256(a) == p.sha256(b)
  {
    PaddedHasNoColon(p.sha256(a));
    PaddedHasNoColon(p.sha256(b));
    Base64.PaddedRoundTrip(p.sha256(a));
    Base64.PaddedRoundTrip(p.sha256(b));
    hide Base64.EncodePadded, Base64.DecodePadded;
    var x, y := Base64.EncodePadded(p.sha256(a)), Base64.EncodePadded(p.sha256(b));
    var head := "sha-256=:";
    assert ContentDigest(p, a)[|head|..|head| + |x|] == x && ContentDigest(p, b)[|head|..|head| + |y|] == y;
  }
}
