// The string functions of the Go library that the source leans on, on Unicode text.
module Text {
  import opened Prelude

  // unicode.IsSpace.
  predicate IsSpace(c: char) {
    var r := c as int;
    9 <= r <= 13 || r in {0x20, 0x85, 0xA0, 0x1680, 0x2028, 0x2029, 0x202F, 0x205F, 0x3000} || 0x2000 <= r <= 0x200A
  }

  function TrimLeft(s: string): (t: string)
    ensures |t| <= |s| && t == s[|s| - |t|..]
    ensures forall i :: 0 <= i < |s| - |t| ==> IsSpace(s[i])
    ensures t != "" ==> !IsSpace(t[0])
  {
    if s != "" && IsSpace(s[0]) then TrimLeft(s[1..]) else s
  }

  function TrimRight(s: string): (t: string)
    ensures t <= s
    ensures forall i :: |t| <= i < |s| ==> IsSpace(s[i])
    ensures t != "" ==> !IsSpace(t[|t| - 1])
  {
    if s != "" && IsSpace(s[|s| - 1]) then TrimRight(s[..|s| - 1]) else s
  }

  // strings.TrimSpace.
  function TrimSpace(s: string): (t: string)
    ensures t != "" ==> !IsSpace(t[0]) && !IsSpace(t[|t| - 1])
    ensures forall c :: c in t ==> c in s
  {
    TrimRight(TrimLeft(s))
  }

  ghost predicate NoSpaceAround(s: string) {
    s != "" ==> !IsSpace(s[0]) && !IsSpace(s[|s| - 1])
  }

  lemma TrimKeeps(s: string)
    requires NoSpaceAround(s)
    ensures TrimSpace(s) == s
  {
  }

  ghost predicate AllSpaces(s: string) {
    forall i :: 0 <= i < |s| ==> IsSpace(s[i])
  }

  lemma {:induction false} TrimLeftPadded(left: string, s: string, right: string)
    requires AllSpaces(left) && AllSpaces(right)
    ensures TrimLeft(left + s) == TrimLeft(s)
    ensures TrimLeft(s + right) == if TrimLeft(s) == "" then "" else TrimLeft(s) + right
  {
    hide IsSpace;
    if left != "" {
      assert (left + s)[1..] == left[1..] + s && (left + s)[0] == left[0];
      TrimLeftPadded(left[1..], s, right);
    } else {
      assert left + s == s;
      if s == "" {
        assert s + right == right;
        TrimLeftSpaces(right);
      } else {
        assert (s + right)[1..] == s[1..] + right && (s + right)[0] == s[0];
        if IsSpace(s[0]) {
          TrimLeftPadded("", s[1..], right);
        }
      }
    }
  }

  lemma {:induction false} TrimLeftSpaces(s: string)
    requires AllSpaces(s)
    ensures TrimLeft(s) == ""
  {
    hide IsSpace;
    if s != "" {
      TrimLeftSpaces(s[1..]);
    }
  }

  lemma {:induction false} TrimRightPadded(s: string, right: string)
    requires AllSpaces(right)
    ensures TrimRight(s + right) == TrimRight(s)
  {
    hide IsSpace;
    if right == "" {
      assert s + right == s;
    } else {
      var t := s + right;
      assert t[..|t| - 1] == s + right[..|right| - 1] && t[|t| - 1] == right[|right| - 1];
      TrimRightPadded(s, right[..|right| - 1]);
    }
  }

  // Spaces around a text make no difference to what is left of it.
  lemma TrimPadded(left: string, s: string, right: string)
    requires AllSpaces(left) && AllSpaces(right)
    ensures TrimSpace(left + s + right) == TrimSpace(s)
  {
    hide *;
    TrimSpaceIs(left + s + right);
    TrimSpaceIs(s);
    assert left + s + right == left + (s + right);
    TrimLeftPadded(left, s + right, right);
    TrimLeftPadded(left, s, right);
    TrimRightPadded(TrimLeft(s), right);
  }

  lemma TrimSpaceIs(s: string)
    ensures TrimSpace(s) == TrimRight(TrimLeft(s))
  {
  }

  predicate OccursAt(s: string, pattern: string, i: nat) {
    i + |pattern| <= |s| && s[i..i + |pattern|] == pattern
  }

  lemma OccursChars(s: string, pattern: string, i: nat)
    requires OccursAt(s, pattern, i)
    ensures forall k :: 0 <= k < |pattern| ==> s[i + k] == pattern[k]
  {
    forall k | 0 <= k < |pattern|
      ensures s[i + k] == pattern[k]
    {
      assert s[i..i + |pattern|][k] == s[i + k];
    }
  }

  // strings.Index, -1 for no occurrence: the first one.
  function Index(s: string, pattern: string): (i: int)
    ensures -1 <= i <= |s|
    ensures i >= 0 ==> OccursAt(s, pattern, i) && forall j :: 0 <= j < i ==> !OccursAt(s, pattern, j)
    ensures i < 0 ==> forall j: nat :: !OccursAt(s, pattern, j)
  {
    IndexFrom(s, pattern, 0)
  }

  function IndexFrom(s: string, pattern: string, from: nat): (i: int)
    requires from <= |s| + 1
    ensures i == -1 || from <= i <= |s|
    ensures i >= 0 ==> OccursAt(s, pattern, i) && forall j :: from <= j < i ==> !OccursAt(s, pattern, j)
    ensures i < 0 ==> forall j :: from <= j ==> !OccursAt(s, pattern, j)
    decreases |s| + 1 - from
  {
    if from + |pattern| > |s| then -1
    else if OccursAt(s, pattern, from) then from
    else IndexFrom(s, pattern, from + 1)
  }

  // The first occurrence is where one occurs with none before.
  lemma IndexIs(s: string, pattern: string, i: nat)
    requires OccursAt(s, pattern, i) && forall j :: 0 <= j < i ==> !OccursAt(s, pattern, j)
    ensures Index(s, pattern) == i
  {
  }

  predicate Contains(s: string, pattern: string) {
    Index(s, pattern) >= 0
  }

  // strings.LastIndex of one character.
  function LastIndex(s: string, c: char): (i: int)
    ensures -1 <= i < |s|
    ensures i >= 0 ==> s[i] == c
    ensures forall j :: i < j < |s| ==> s[j] != c
  {
    if s == "" then -1 else if s[|s| - 1] == c then |s| - 1 else LastIndex(s[..|s| - 1], c)
  }

  // strings.Map, as strings.ToLower and strings.ToUpper use it.
  function MapChars(f: char -> char, s: string): (t: string)
    ensures |t| == |s| && forall i :: 0 <= i < |s| ==> t[i] == f(s[i])
  {
    seq(|s|, i requires 0 <= i < |s| => f(s[i]))
  }

  // strings.Split at one character.
  function Split(s: string, c: char): (parts: seq<string>)
    ensures |parts| >= 1
    ensures forall p :: p in parts ==> c !in p
  {
    if s == "" then [""]
    else
      var rest := Split(s[1..], c);
      if s[0] == c then [""] + rest else [[s[0]] + rest[0]] + rest[1..]
  }

  // Text without the separator is one part; a separator ends a part.
  lemma {:induction false} SplitPart(s: string, c: char, rest: string)
    requires c !in s
    ensures Split(s + [c] + rest, c) == [s] + Split(rest, c)
    ensures Split(s, c) == [s]
  {
    if s == "" {
      assert s + [c] + rest == [c] + rest;
    } else {
      SplitPart(s[1..], c, rest);
      assert (s + [c] + rest)[1..] == s[1..] + [c] + rest;
      assert s == [s[0]] + s[1..];
    }
  }

  // strings.FieldsFunc: the words between separators. strings.Fields is this with IsSpace.
  function Fields(s: string, separates: char -> bool): (words: seq<string>)
    decreases |s|
  {
    if s == "" then []
    else if separates(s[0]) then Fields(s[1..], separates)
    else var n := WordLength(s, separates); [s[..n]] + Fields(s[n..], separates)
  }

  function WordLength(s: string, separates: char -> bool): (n: nat)
    ensures n <= |s| && (forall i :: 0 <= i < n ==> !separates(s[i])) && (n < |s| ==> separates(s[n]))
    ensures s != "" && !separates(s[0]) ==> n > 0
  {
    if s == "" || separates(s[0]) then 0
    else
      var n := 1 + WordLength(s[1..], separates);
      assert forall i :: 1 <= i < n ==> s[i] == s[1..][i - 1];
      n
  }

  // How many bytes UTF-8 takes for the text: what len counts.
  function ByteWidth(c: char): nat {
    if c as int < 0x80 then 1 else if c as int < 0x800 then 2 else if c as int < 0x10000 then 3 else 4
  }

  function ByteLen(s: string): nat {
    if s == "" then 0 else ByteLen(s[..|s| - 1]) + ByteWidth(s[|s| - 1])
  }

  lemma {:induction false} ByteLenAppend(s: string, t: string)
    ensures ByteLen(s + t) == ByteLen(s) + ByteLen(t)
  {
    if t == "" {
      assert s + t == s;
    } else {
      assert (s + t)[..|s + t| - 1] == s + t[..|t| - 1];
      ByteLenAppend(s, t[..|t| - 1]);
    }
  }
}
