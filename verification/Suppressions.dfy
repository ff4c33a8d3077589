// internal/store/suppressions.go: the list of addresses not to send to, and the recipients
// kept at acceptance (internal/httpapi/send.go).
//
// The hash and the lower case of one character are parameters.
module Suppressions {
  import opened Prelude
  import opened Text
  import Utf8
  import Address

  type Hash = Utf8.Bytes

  datatype Platform = Platform(lower: char -> char, hash: string -> Hash)

  datatype Row = Row(address: string, reason: string, detail: string, messageId: Option<string>)

  // The table's check on its reason column.
  predicate KnownReason(reason: string) {
    reason in {"hard_bounce", "complaint", "manual", "unsubscribe", "spam_trap"}
  }

  function Normalize(p: Platform, address: string): string {
    MapChars(p.lower, TrimSpace(address))
  }

  function HashOf(p: Platform, address: string): Hash {
    p.hash(Normalize(p, address))
  }

  // ---- The statements ----

  datatype Op = Suppress(address: string, reason: string, detail: string, messageId: string) | Unsuppress(address: string)

  function RowOf(p: Platform, op: Op): Row
    requires op.Suppress?
  {
    Row(Normalize(p, op.address), op.reason, op.detail, if op.messageId == "" then None else Some(op.messageId))
  }

  function Apply(p: Platform, rows: map<Hash, Row>, op: Op): map<Hash, Row> {
    var h := HashOf(p, op.address);
    match op
    case Suppress(_, _, _, _) => if h in rows then rows else rows[h := RowOf(p, op)]
    case Unsuppress(_) => rows - {h}
  }

  // A suppression adds at most its own row, keeps all others, and lists its address.
  lemma SuppressGrows(p: Platform, rows: map<Hash, Row>, op: Op)
    requires op.Suppress?
    ensures var grown, h := Apply(p, rows, op), HashOf(p, op.address);
            && h in grown
            && (forall g :: g in rows ==> g in grown && grown[g] == rows[g])
            && (forall g :: g in grown && g !in rows ==> g == h && grown[g].reason == op.reason)
            && Listed(p, grown, op.address) && forall x :: Listed(p, rows, x) ==> Listed(p, grown, x)
  {
    hide HashOf, Normalize;
  }

  function Run(p: Platform, ops: seq<Op>): map<Hash, Row> {
    if ops == [] then map[] else Apply(p, Run(p, ops[..|ops| - 1]), ops[|ops| - 1])
  }

  // ---- The list as a plain set of addresses ----

  predicate About(p: Platform, op: Op, a: string) {
    Normalize(p, op.address) == a
  }

  // ops[i] put a on the list and nothing took it off since; it was not on the list then.
  ghost predicate Stands(p: Platform, ops: seq<Op>, a: string, i: nat) {
    && i < |ops| && ops[i].Suppress? && About(p, ops[i], a)
    && (forall j :: i < j < |ops| && About(p, ops[j], a) ==> ops[j].Suppress?)
    && (forall j :: 0 <= j < i && About(p, ops[j], a) && ops[j].Suppress? ==>
          exists k :: j < k < i && About(p, ops[k], a) && ops[k].Unsuppress?)
  }

  // No address of the run has the hash of a without being a.
  ghost predicate NoCollision(p: Platform, ops: seq<Op>, a: string) {
    forall op :: op in ops && HashOf(p, op.address) == p.hash(a) ==> About(p, op, a)
  }

  // After any run of the two statements the table lists exactly the addresses suppressed and
  // not lifted since, each with the reason it was first given.
  lemma {:induction false} IndexAgrees(p: Platform, ops: seq<Op>, a: string)
    requires NoCollision(p, ops, a)
    ensures p.hash(a) in Run(p, ops) <==> exists i: nat :: Stands(p, ops, a, i)
    ensures forall i: nat :: Stands(p, ops, a, i) ==> p.hash(a) in Run(p, ops) && Run(p, ops)[p.hash(a)] == RowOf(p, ops[i])
  {
    hide Stands, HashOf, About, RowOf;
    if ops != [] {
      var before, last := ops[..|ops| - 1], ops[|ops| - 1];
      assert NoCollision(p, before, a) by {
        assert forall op :: op in before ==> op in ops;
      }
      IndexAgrees(p, before, a);
      SameHash(p, ops, last, a);
      assert before + [last] == ops;
      StandsStep(p, before, last, a);
      assert About(p, last, a) && last.Suppress? && (forall i: nat :: !Stands(p, before, a, i)) ==> Stands(p, ops, a, |before|);
    } else {
      StandsBound(p, ops, a);
    }
  }

  lemma SameHash(p: Platform, ops: seq<Op>, op: Op, a: string)
    requires NoCollision(p, ops, a) && op in ops
    ensures HashOf(p, op.address) == p.hash(a) <==> About(p, op, a)
    ensures About(p, op, a) && op.Suppress? ==> RowOf(p, op).address == a
  {
  }

  lemma StandsBound(p: Platform, ops: seq<Op>, a: string)
    ensures forall i: nat :: Stands(p, ops, a, i) ==> i < |ops|
  {
  }

  lemma StandsStep(p: Platform, before: seq<Op>, last: Op, a: string)
    ensures var ops := before + [last];
            && (!About(p, last, a) ==> forall i: nat :: Stands(p, ops, a, i) <==> Stands(p, before, a, i))
            && (About(p, last, a) && last.Unsuppress? ==> forall i: nat :: !Stands(p, ops, a, i))
            && (About(p, last, a) && last.Suppress? ==>
                  if exists i: nat :: Stands(p, before, a, i) then forall i: nat :: Stands(p, ops, a, i) <==> Stands(p, before, a, i)
                  else forall i: nat :: Stands(p, ops, a, i) <==> i == |before|)
            && (forall i: nat :: Stands(p, ops, a, i) ==> i < |ops|)
            && (forall i: nat :: Stands(p, before, a, i) ==> i < |before| && ops[i] == before[i])
            && ops[|before|] == last
  {
    var ops := before + [last];
    hide About;
    assert forall k :: 0 <= k < |before| ==> ops[k] == before[k];
    forall i: nat | i < |before|
      ensures Stands(p, before, a, i) ==> last.Suppress? || !About(p, last, a) ==> Stands(p, ops, a, i)
      ensures Stands(p, ops, a, i) ==> Stands(p, before, a, i)
    {
    }
    if Stands(p, ops, a, |before|) {
      forall j | 0 <= j < |before| && About(p, before[j], a) && before[j].Suppress?
        ensures exists k :: j < k < |before| && About(p, before[k], a) && before[k].Unsuppress?
      {
        assert About(p, ops[j], a) && ops[j].Suppress?;
        var k :| j < k < |before| && About(p, ops[k], a) && ops[k].Unsuppress?;
        assert before[k] == ops[k];
      }
      NoneStands(p, before, a);
    } else if About(p, last, a) && last.Suppress? {
      var j :| 0 <= j < |before| && About(p, ops[j], a) && ops[j].Suppress? &&
               !exists k :: j < k < |before| && About(p, ops[k], a) && ops[k].Unsuppress?;
      assert forall k :: j < k < |before| && About(p, before[k], a) ==> About(p, ops[k], a) && ops[k].Suppress?;
      Earliest(p, before, a, j);
    }
  }

  // If every suppression of a was lifted, none stands.
  lemma NoneStands(p: Platform, before: seq<Op>, a: string)
    requires forall j :: 0 <= j < |before| && About(p, before[j], a) && before[j].Suppress? ==>
               exists k :: j < k < |before| && About(p, before[k], a) && before[k].Unsuppress?
    ensures forall i: nat :: !Stands(p, before, a, i)
  {
  }

  // Going back from one that was not lifted, there is the first of them.
  lemma {:induction false} Earliest(p: Platform, before: seq<Op>, a: string, j: nat)
    requires j < |before| && About(p, before[j], a) && before[j].Suppress?
    requires forall k :: j < k < |before| && About(p, before[k], a) ==> before[k].Suppress?
    ensures exists i: nat :: Stands(p, before, a, i)
    decreases j
  {
    hide About;
    if !Stands(p, before, a, j) {
      var i :| 0 <= i < j && About(p, before[i], a) && before[i].Suppress? &&
               !exists k :: i < k < j && About(p, before[k], a) && before[k].Unsuppress?;
      Earliest(p, before, a, i);
    }
  }

  // ---- The store ----

  predicate Listed(p: Platform, rows: map<Hash, Row>, address: string) {
    HashOf(p, address) in rows
  }

  function Kept(p: Platform, rows: map<Hash, Row>, addresses: seq<string>): seq<string> {
    if addresses == [] then []
    else
      var last := addresses[|addresses| - 1];
      Kept(p, rows, addresses[..|addresses| - 1]) + if Listed(p, rows, last) then [] else [last]
  }

  function Dropped(p: Platform, rows: map<Hash, Row>, addresses: seq<string>): seq<string> {
    if addresses == [] then []
    else
      var last := addresses[|addresses| - 1];
      Dropped(p, rows, addresses[..|addresses| - 1]) + if Listed(p, rows, last) then [last] else []
  }

  lemma FilterStep(p: Platform, rows: map<Hash, Row>, addresses: seq<string>, a: string)
    ensures HashOf(p, a) in rows ==>
              Kept(p, rows, addresses + [a]) == Kept(p, rows, addresses) && Dropped(p, rows, addresses + [a]) == Dropped(p, rows, addresses) + [a]
    ensures HashOf(p, a) !in rows ==>
              Kept(p, rows, addresses + [a]) == Kept(p, rows, addresses) + [a] && Dropped(p, rows, addresses + [a]) == Dropped(p, rows, addresses)
    ensures Listed(p, rows, a) <==> HashOf(p, a) in rows
  {
    assert (addresses + [a])[..|addresses|] == addresses;
  }

  lemma FilterEmpty(p: Platform, rows: map<Hash, Row>)
    ensures Kept(p, rows, []) == [] && Dropped(p, rows, []) == []
  {
  }

  // fate says how the ith statement ends.
  class Store {
    const p: Platform
    const fate: nat -> Write
    var calls: nat
    var rows: map<Hash, Row>

    constructor (p: Platform, fate: nat -> Write)
      ensures this.p == p && this.fate == fate && calls == 0 && rows == Run(p, [])
    {
      this.p, this.fate := p, fate;
      calls, rows := 0, map[];
    }

    // The table's check refuses a reason it does not know.
    method Suppress(address: string, reason: string, detail: string, messageId: string)
      returns (ok: bool, ghost write: Write)
      modifies this`calls, this`rows
      ensures calls == old(calls) + 1
      ensures write == if KnownReason(reason) then fate(old(calls)) else Refused
      ensures ok <==> write.Written?
      ensures rows == if write.Refused? then old(rows) else Apply(p, old(rows), Op.Suppress(address, reason, detail, messageId))
    {
      hide KnownReason, HashOf, Normalize;
      var w := if KnownReason(reason) then fate(calls) else Refused;
      calls := calls + 1;
      if w.Refused? {
        return false, w;
      }
      var h := HashOf(p, address);
      if h !in rows {
        rows := rows[h := Row(Normalize(p, address), reason, detail, if messageId == "" then None else Some(messageId))];
      }
      return w.Written?, w;
    }

    method Unsuppress(address: string) returns (ok: bool, ghost write: Write)
      modifies this`calls, this`rows
      ensures calls == old(calls) + 1 && write == fate(old(calls))
      ensures ok <==> write.Written?
      ensures rows == if write.Refused? then old(rows) else Apply(p, old(rows), Op.Unsuppress(address))
    {
      hide HashOf, Normalize;
      var w := fate(calls);
      calls := calls + 1;
      if w.Refused? {
        return false, w;
      }
      rows := rows - {HashOf(p, address)};
      return w.Written?, w;
    }

    method IsSuppressed(address: string) returns (found: Result<bool, ()>)
      modifies this`calls
      ensures calls == old(calls) + 1
      ensures found == if fate(old(calls)).Written? then Ok(Listed(p, rows, address)) else Err(())
    {
      var end := fate(calls);
      calls := calls + 1;
      found := if end.Written? then Ok(HashOf(p, address) in rows) else Err(());
    }

    method FilterSuppressed(addresses: seq<string>) returns (r: Result<(seq<string>, seq<string>), ()>)
      modifies this`calls
      ensures calls == old(calls) + if addresses == [] then 0 else 1
      ensures r == if addresses == [] || fate(old(calls)).Written? then Ok((Kept(p, rows, addresses), Dropped(p, rows, addresses)))
                   else Err(())
    {
      hide *;
      FilterEmpty(p, rows);
      if |addresses| == 0 {
        return Ok(([], []));
      }
      var hashes: seq<Hash> := [];
      for i := 0 to |addresses|
        invariant calls == old(calls)
        invariant |hashes| == i && forall j :: 0 <= j < i ==> hashes[j] == HashOf(p, addresses[j])
      {
        hashes := hashes + [HashOf(p, addresses[i])];
      }
      var end := fate(calls);
      calls := calls + 1;
      if !end.Written? {
        return Err(());
      }
      var found := set h | h in hashes && h in rows;
      var allowed: seq<string>, blocked: seq<string> := [], [];
      for i := 0 to |addresses|
        invariant calls == old(calls) + 1
        invariant allowed == Kept(p, rows, addresses[..i]) && blocked == Dropped(p, rows, addresses[..i])
      {
        var a := addresses[i];
        assert addresses[..i + 1] == addresses[..i] + [a];
        FilterStep(p, rows, addresses[..i], a);
        assert hashes[i] in hashes;
        if HashOf(p, a) in found {
          blocked := blocked + [a];
          continue;
        }
        allowed := allowed + [a];
      }
      assert addresses[..|addresses|] == addresses;
      r := Ok((allowed, blocked));
    }
  }

  lemma {:induction false} FilterCovers(p: Platform, rows: map<Hash, Row>, addresses: seq<string>)
    ensures multiset(Kept(p, rows, addresses)) + multiset(Dropped(p, rows, addresses)) == multiset(addresses)
  {
    hide *;
    if addresses != [] {
      var before, last := addresses[..|addresses| - 1], addresses[|addresses| - 1];
      FilterCovers(p, rows, before);
      FilterStep(p, rows, before, last);
      assert addresses == before + [last];
      var kept, dropped := Kept(p, rows, before), Dropped(p, rows, before);
      assert multiset(kept + [last]) == multiset(kept) + multiset{last};
      assert multiset(dropped + [last]) == multiset(dropped) + multiset{last};
    } else {
      FilterEmpty(p, rows);
    }
  }

  // The two lists split the addresses: each keeps their order, together they are all of
  // them, and which list an address is on is whether the table lists it.
  lemma {:induction false} FilterPartitions(p: Platform, rows: map<Hash, Row>, addresses: seq<string>)
    ensures Address.Subsequence(Kept(p, rows, addresses), addresses)
    ensures Address.Subsequence(Dropped(p, rows, addresses), addresses)
    ensures multiset(Kept(p, rows, addresses)) + multiset(Dropped(p, rows, addresses)) == multiset(addresses)
    ensures forall a :: a in Kept(p, rows, addresses) ==> !Listed(p, rows, a)
    ensures forall a :: a in Dropped(p, rows, addresses) ==> Listed(p, rows, a)
  {
    hide *;
    FilterCovers(p, rows, addresses);
    if addresses != [] {
      var before, last := addresses[..|addresses| - 1], addresses[|addresses| - 1];
      FilterPartitions(p, rows, before);
      assert addresses == before + [last];
      FilterStep(p, rows, before, last);
      SubsequenceGrows(Kept(p, rows, before), before, last);
      SubsequenceGrows(Dropped(p, rows, before), before, last);
    } else {
      FilterEmpty(p, rows);
      SubsequenceEmpty();
    }
  }

  lemma SubsequenceEmpty()
    ensures Address.Subsequence([], [])
  {
  }

  lemma SubsequenceGrows(s: seq<string>, t: seq<string>, x: string)
    requires Address.Subsequence(s, t)
    ensures Address.Subsequence(s, t + [x]) && Address.Subsequence(s + [x], t + [x])
  {
    assert (t + [x])[..|t|] == t && (s + [x])[..|s|] == s;
  }

  // ---- Recipients at acceptance ----

  datatype Refusal = Malformed(error: Address.Error) | Unchecked | AllSuppressed(blocked: seq<string>)

  // A request is refused when its list is malformed, when the lookup fails, or when nobody is
  // left; otherwise those who are left are kept.
  method AcceptRecipients(ap: Address.Platform, store: Store, raw: seq<string>) returns (r: Result<seq<string>, Refusal>)
    modifies store`calls
    ensures r.Err? && r.error.Malformed? <==>
              |raw| == 0 || |raw| > Address.MAX_RECIPIENTS || Address.ParseAll(ap, raw).Err?
    ensures !(r.Err? && r.error.Malformed?) ==>
              var all := Address.FirstSpellings(ap, Address.ParseAll(ap, raw).value);
              r == if !store.fate(old(store.calls)).Written? then Err(Unchecked)
                   else if Kept(store.p, store.rows, all) == [] then Err(AllSuppressed(Dropped(store.p, store.rows, all)))
                   else Ok(Kept(store.p, store.rows, all))
  {
    var recipients := Address.ParseRecipients(ap, raw);
    if recipients.Err? {
      return Err(Malformed(recipients.error));
    }
    SomeRecipient(ap, raw);
    var split := store.FilterSuppressed(recipients.value);
    if split.Err? {
      return Err(Unchecked);
    }
    var (allowed, blocked) := split.value;
    if |allowed| == 0 {
      return Err(AllSuppressed(blocked));
    }
    return Ok(allowed);
  }

  lemma {:induction false} SomeRecipient(ap: Address.Platform, raw: seq<string>)
    requires raw != [] && Address.ParseAll(ap, raw).Ok?
    ensures Address.FirstSpellings(ap, Address.ParseAll(ap, raw).value) != []
  {
    hide Address.ParseAddress;
    var emails := Address.ParseAll(ap, raw).value;
    Address.RecipientsMeaning(ap, emails);
    assert emails[|emails| - 1] in emails;
  }

  lemma {:induction false} SubsequenceTrans(a: seq<string>, b: seq<string>, c: seq<string>)
    requires Address.Subsequence(a, b) && Address.Subsequence(b, c)
    ensures Address.Subsequence(a, c)
    decreases |c|
  {
    if a != [] {
      if Address.Subsequence(b, c[..|c| - 1]) {
        SubsequenceTrans(a, b, c[..|c| - 1]);
      } else if Address.Subsequence(a, b[..|b| - 1]) {
        SubsequenceTrans(a, b[..|b| - 1], c[..|c| - 1]);
      } else {
        SubsequenceTrans(a[..|a| - 1], b[..|b| - 1], c[..|c| - 1]);
      }
    }
  }

  lemma {:induction false} SubsequenceMembers(a: seq<string>, b: seq<string>)
    requires Address.Subsequence(a, b)
    ensures forall e :: e in a ==> e in b
    decreases |b|
  {
    if a != [] {
      if Address.Subsequence(a, b[..|b| - 1]) {
        SubsequenceMembers(a, b[..|b| - 1]);
      } else {
        SubsequenceMembers(a[..|a| - 1], b[..|b| - 1]);
        assert a == a[..|a| - 1] + [a[|a| - 1]];
      }
    }
  }

  lemma {:induction false} SubsequenceDistinct(ap: Address.Platform, a: seq<string>, b: seq<string>)
    requires Address.Subsequence(a, b)
    requires forall i, j :: 0 <= i < j < |b| ==> Address.Folded(ap, b[i]) != Address.Folded(ap, b[j])
    ensures forall i, j :: 0 <= i < j < |a| ==> Address.Folded(ap, a[i]) != Address.Folded(ap, a[j])
    decreases |b|
  {
    hide Address.Folded;
    if a != [] {
      if Address.Subsequence(a, b[..|b| - 1]) {
        SubsequenceDistinct(ap, a, b[..|b| - 1]);
      } else {
        SubsequenceDistinct(ap, a[..|a| - 1], b[..|b| - 1]);
        SubsequenceMembers(a[..|a| - 1], b[..|b| - 1]);
        hide Address.Subsequence;
        forall i | 0 <= i < |a| - 1
          ensures Address.Folded(ap, a[i]) != Address.Folded(ap, a[|a| - 1])
        {
          assert a[i] in a[..|a| - 1];
          var k :| 0 <= k < |b| - 1 && b[..|b| - 1][k] == a[i];
          assert b[k] == a[i];
        }
      }
    }
  }

  // Lower case makes no character a space or stops one being a space.
  ghost predicate KeepsSpaces(lower: char -> char) {
    forall c :: IsSpace(lower(c)) <==> IsSpace(c)
  }

  lemma {:induction false} TrimLeftMaps(f: char -> char, s: string)
    requires KeepsSpaces(f)
    ensures TrimLeft(MapChars(f, s)) == MapChars(f, TrimLeft(s))
  {
    hide IsSpace;
    if s != "" && IsSpace(s[0]) {
      assert MapChars(f, s)[1..] == MapChars(f, s[1..]);
      TrimLeftMaps(f, s[1..]);
    }
  }

  lemma {:induction false} TrimRightMaps(f: char -> char, s: string)
    requires KeepsSpaces(f)
    ensures TrimRight(MapChars(f, s)) == MapChars(f, TrimRight(s))
  {
    hide IsSpace;
    if s != "" && IsSpace(s[|s| - 1]) {
      assert MapChars(f, s)[..|s| - 1] == MapChars(f, s[..|s| - 1]);
      TrimRightMaps(f, s[..|s| - 1]);
    }
  }

  // Two spellings that differ in case only are one address of the list.
  lemma CaseIsNoDifference(p: Platform, ap: Address.Platform, x: string, y: string)
    requires KeepsSpaces(p.lower) && p.lower == ap.lower && Address.Folded(ap, x) == Address.Folded(ap, y)
    ensures Normalize(p, x) == Normalize(p, y)
  {
    hide TrimLeft, TrimRight, MapChars, KeepsSpaces;
    TrimLeftMaps(p.lower, x);
    TrimLeftMaps(p.lower, y);
    TrimRightMaps(p.lower, TrimLeft(x));
    TrimRightMaps(p.lower, TrimLeft(y));
  }

  // Nor do spaces around an address make another of it.
  lemma PaddingIsNoDifference(p: Platform, rows: map<Hash, Row>, left: string, address: string, right: string)
    requires AllSpaces(left) && AllSpaces(right)
    ensures Normalize(p, left + address + right) == Normalize(p, address)
    ensures Listed(p, rows, left + address + right) == Listed(p, rows, address)
  {
    hide AllSpaces;
    TrimPadded(left, address, right);
  }

  lemma SameListing(p: Platform, ap: Address.Platform, rows: map<Hash, Row>, x: string, y: string)
    requires KeepsSpaces(p.lower) && p.lower == ap.lower && Address.Folded(ap, x) == Address.Folded(ap, y)
    ensures Listed(p, rows, x) == Listed(p, rows, y)
  {
    CaseIsNoDifference(p, ap, x, y);
  }

  // What is kept of a request: recipients in the order asked for, no two the same but for
  // case, none on the list; and for every address asked for that is not on the list, a
  // spelling of it. What was asked for and is on the list is blocked, and nothing else is.
  lemma AcceptedRecipients(p: Platform, ap: Address.Platform, rows: map<Hash, Row>, emails: seq<string>)
    requires KeepsSpaces(p.lower) && p.lower == ap.lower
    ensures var all := Address.FirstSpellings(ap, emails);
            var kept, blocked := Kept(p, rows, all), Dropped(p, rows, all);
            && Address.Subsequence(kept, emails)
            && (forall i, j :: 0 <= i < j < |kept| ==> Address.Folded(ap, kept[i]) != Address.Folded(ap, kept[j]))
            && (forall k :: k in kept ==> !Listed(p, rows, k))
            && (forall b :: b in blocked ==> Listed(p, rows, b))
            && (forall e :: e in emails ==>
                  exists k :: Address.Folded(ap, k) == Address.Folded(ap, e) && k in if Listed(p, rows, e) then blocked else kept)
  {
    hide *;
    var all := Address.FirstSpellings(ap, emails);
    var kept, blocked := Kept(p, rows, all), Dropped(p, rows, all);
    Address.RecipientsMeaning(ap, emails);
    FilterPartitions(p, rows, all);
    SubsequenceTrans(kept, all, emails);
    SubsequenceDistinct(ap, kept, all);
    forall e | e in emails
      ensures exists k :: Address.Folded(ap, k) == Address.Folded(ap, e) && k in if Listed(p, rows, e) then blocked else kept
    {
      var k :| k in all && Address.Folded(ap, k) == Address.Folded(ap, e);
      SameListing(p, ap, rows, k, e);
      assert k in multiset(all);
      assert k in multiset(kept) + multiset(blocked);
    }
  }
}
