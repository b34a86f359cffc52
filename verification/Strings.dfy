/** The string functions of the Go library that paths, cache keys and URLs are made with. */
module Strings {

  function Split(s: string, sep: char): (parts: seq<string>)
    ensures parts != []
  {
    if s == "" then [""]
    else
      var rest := Split(s[1..], sep);
      if s[0] == sep then [""] + rest else [[s[0]] + rest[0]] + rest[1..]
  }

  function Join(parts: seq<string>, sep: char): string {
    if parts == [] then ""
    else if |parts| == 1 then parts[0]
    else parts[0] + [sep] + Join(parts[1..], sep)
  }

  predicate Free(parts: seq<string>, sep: char) {
    forall i :: 0 <= i < |parts| ==> sep !in parts[i]
  }

  lemma {:induction false} SplitIsFree(s: string, sep: char)
    ensures Free(Split(s, sep), sep)
    ensures Join(Split(s, sep), sep) == s
  {
    if s != "" {
      SplitIsFree(s[1..], sep);
      var rest := Split(s[1..], sep);
      assert s == [s[0]] + s[1..];
      if s[0] == sep {
        assert ([""] + rest)[1..] == rest;
      } else {
        assert ([[s[0]] + rest[0]] + rest[1..])[1..] == rest[1..];
      }
    }
  }

  lemma {:induction false} SplitHead(head: string, tail: string, sep: char)
    requires sep !in head
    ensures Split(head, sep) == [head]
    ensures Split(head + [sep] + tail, sep) == [head] + Split(tail, sep)
  {
    var s := head + [sep] + tail;
    if head == "" {
      assert s[1..] == tail;
    } else {
      assert s[1..] == head[1..] + [sep] + tail;
      SplitHead(head[1..], tail, sep);
      assert [head[0]] + head[1..] == head;
    }
  }

  /** Joining loses nothing, as long as the parts are free of the separator and there is at least one. */
  lemma {:induction false} SplitUndoesJoin(parts: seq<string>, sep: char)
    requires parts != [] && Free(parts, sep)
    ensures Split(Join(parts, sep), sep) == parts
  {
    if |parts| == 1 {
      SplitHead(parts[0], "", sep);
    } else {
      assert Free(parts[1..], sep) by {
        assert forall i :: 0 <= i < |parts| - 1 ==> parts[1..][i] == parts[i + 1];
      }
      SplitUndoesJoin(parts[1..], sep);
      SplitHead(parts[0], Join(parts[1..], sep), sep);
    }
  }

  /** Leading and trailing occurrences of the character are cut off. */
  function Trim(s: string, cut: char): string {
    if s == "" then ""
    else if s[0] == cut then Trim(s[1..], cut)
    else if s[|s| - 1] == cut then Trim(s[..|s| - 1], cut)
    else s
  }

  predicate AllOf(s: string, c: char) {
    forall i :: 0 <= i < |s| ==> s[i] == c
  }

  lemma {:induction false} TrimUndoesPadding(lead: string, s: string, trail: string, cut: char)
    requires AllOf(lead, cut) && AllOf(trail, cut)
    requires s != "" ==> s[0] != cut && s[|s| - 1] != cut
    ensures Trim(lead + s + trail, cut) == s
    decreases |lead| + |trail|
  {
    var padded := lead + s + trail;
    if lead != "" {
      assert padded[1..] == lead[1..] + s + trail;
      TrimUndoesPadding(lead[1..], s, trail, cut);
    } else if trail != "" {
      if s == "" {
        assert padded == trail && padded[1..] == lead + s + trail[1..];
        TrimUndoesPadding(lead, s, trail[1..], cut);
      } else {
        assert padded[..|padded| - 1] == lead + s + trail[..|trail| - 1];
        TrimUndoesPadding(lead, s, trail[..|trail| - 1], cut);
      }
    } else {
      assert padded == s;
    }
  }

  lemma {:induction false} JoinEnds(parts: seq<string>, sep: char)
    requires parts != [] && Free(parts, sep) && forall i :: 0 <= i < |parts| ==> parts[i] != ""
    ensures Join(parts, sep) != ""
    ensures Join(parts, sep)[0] != sep && Join(parts, sep)[|Join(parts, sep)| - 1] != sep
  {
    if |parts| > 1 {
      assert forall i :: 0 <= i < |parts| - 1 ==> parts[1..][i] == parts[i + 1];
      JoinEnds(parts[1..], sep);
      var s, rest := Join(parts, sep), Join(parts[1..], sep);
      assert s[|s| - 1] == rest[|rest| - 1];
    }
  }

  function TrimSuffix(s: string, c: char): string {
    if s != "" && s[|s| - 1] == c then s[..|s| - 1] else s
  }

  function LowerChar(c: char): char {
    if 'A' <= c <= 'Z' then c - 'A' + 'a' else c
  }

  /** ASCII only. */
  function ToLower(s: string): (r: string)
    ensures |r| == |s| && forall i :: 0 <= i < |s| ==> r[i] == LowerChar(s[i])
  {
    if s == "" then "" else [LowerChar(s[0])] + ToLower(s[1..])
  }

  predicate Capital(c: char) {
    'A' <= c <= 'Z'
  }

  /** The same character, or the same letter of the alphabet in the other case. */
  predicate SameLetter(c: char, d: char) {
    c == d || (Capital(c) && d as int == c as int + 32) || (Capital(d) && c as int == d as int + 32)
  }

  predicate EqualFold(a: string, b: string) {
    |a| == |b| && forall i :: 0 <= i < |a| ==> SameLetter(a[i], b[i])
  }

  lemma LowerCharMeans(c: char)
    ensures LowerChar(c) as int == if Capital(c) then c as int + 32 else c as int
  {
  }

  lemma LowerLetters(c: char, d: char)
    ensures LowerChar(c) == LowerChar(d) <==> SameLetter(c, d)
  {
    LowerCharMeans(c);
    LowerCharMeans(d);
    hide LowerChar;
    assert LowerChar(c) == LowerChar(d) <==> LowerChar(c) as int == LowerChar(d) as int;
  }

  lemma LowerIsItself(s: string)
    requires forall i :: 0 <= i < |s| ==> !Capital(s[i])
    ensures ToLower(s) == s
  {
    hide ToLower;
  }

  /** Two texts have the same lower case exactly if they differ in nothing but the case of letters. */
  lemma LoweringForgetsCase(a: string, b: string)
    ensures ToLower(a) == ToLower(b) <==> EqualFold(a, b)
  {
    hide LowerChar, SameLetter;
    if |a| == |b| {
      forall i | 0 <= i < |a|
        ensures ToLower(a)[i] == ToLower(b)[i] <==> SameLetter(a[i], b[i])
      {
        LowerLetters(a[i], b[i]);
      }
    }
  }

  lemma LoweredTo(s: string, word: string)
    requires forall i :: 0 <= i < |word| ==> !Capital(word[i])
    ensures ToLower(s) == word <==> EqualFold(s, word)
  {
    LoweringForgetsCase(s, word);
    LowerIsItself(word);
    hide *;
  }
}
