// The string helpers of CLI11 that its configuration reader is built on. A
// string is a sequence of characters; classification is that of the C locale.
module CliStrings {

  predicate IsSpace(c: char) {
    c == ' ' || '\t' <= c <= '\r'
  }

  predicate IsQuote(c: char) {
    c == '\'' || c == '"' || c == '`'
  }

  /** The first index at or after `from` that holds `c`, or |s|. */
  function Find(s: string, c: char, from: nat): (i: nat)
    requires from <= |s|
    ensures from <= i <= |s|
    ensures forall k :: from <= k < i ==> s[k] != c
    ensures i < |s| ==> s[i] == c
    decreases |s| - from
  {
    if from == |s| || s[from] == c then from else Find(s, c, from + 1)
  }

  function TrimLeft(s: string): (r: string)
    ensures |r| <= |s|
  {
    if s != "" && IsSpace(s[0]) then TrimLeft(s[1..]) else s
  }

  function TrimRight(s: string): (r: string)
    ensures |r| <= |s|
  {
    if s != "" && IsSpace(s[|s| - 1]) then TrimRight(s[..|s| - 1]) else s
  }

  function Trim(s: string): (r: string)
    ensures |r| <= |s|
  {
    TrimLeft(TrimRight(s))
  }

  /** A text that neither starts nor ends in whitespace. */
  predicate Snug(s: string) {
    s != "" ==> !IsSpace(s[0]) && !IsSpace(s[|s| - 1])
  }

  lemma TrimSnug(s: string)
    requires Snug(s)
    ensures Trim(s) == s
    ensures Trim(" " + s) == s
  {
    if s != "" {
      assert (" " + s)[1..] == s;
    }
  }

  /** Pieces of `s` between delimiters, read as by getline: a delimiter at the
      very end opens no further piece, and the empty string is one empty piece. */
  function Split(s: string, delim: char): (r: seq<string>)
    ensures r != []
  {
    if s == "" then [""] else Pieces(s, delim)
  }

  function Pieces(s: string, delim: char): (r: seq<string>)
    ensures s != "" ==> r != []
  {
    if s == "" then []
    else
      var i := Find(s, delim, 0);
      if i == |s| then [s] else [s[..i]] + Pieces(s[i + 1..], delim)
  }

  function RemoveQuotes(s: string): string {
    if |s| > 1 && (s[0] == '"' || s[0] == '\'') && s[0] == s[|s| - 1] then s[1..|s| - 1] else s
  }

  function ToLower(s: string): (r: string)
    ensures |r| == |s|
  {
    seq(|s|, i requires 0 <= i < |s| =>
      if 'A' <= s[i] <= 'Z' then s[i] - 'A' + 'a' else s[i])
  }

  function Map<A, B>(f: A -> B, s: seq<A>): (r: seq<B>)
    ensures |r| == |s|
    ensures forall i :: 0 <= i < |s| ==> r[i] == f(s[i])
  {
    seq(|s|, i requires 0 <= i < |s| => f(s[i]))
  }

  // ---------------------------------------------------------------- what these do

  /** Whitespace by its codes: the blank, and tab to carriage return. */
  lemma SpacesAre(c: char)
    ensures IsSpace(c) <==> c as int == 32 || 9 <= c as int <= 13
  {
  }

  predicate AllSpace(s: string) {
    forall c :: c in s ==> IsSpace(c)
  }

  lemma {:induction false} TrimLeftSpaces(before: string, s: string)
    requires AllSpace(before) && (s != "" ==> !IsSpace(s[0]))
    ensures TrimLeft(before + s) == s
    decreases |before|
  {
    if before == "" {
      assert before + s == s;
    } else {
      assert before[0] in before && (before + s)[1..] == before[1..] + s;
      TrimLeftSpaces(before[1..], s);
    }
  }

  lemma {:induction false} TrimRightSpaces(s: string, after: string)
    requires AllSpace(after) && (s != "" ==> !IsSpace(s[|s| - 1]))
    ensures TrimRight(s + after) == s
    decreases |after|
  {
    if after == "" {
      assert s + after == s;
    } else {
      var n := |after| - 1;
      assert after[n] in after && (s + after)[..|s| + n] == s + after[..n];
      TrimRightSpaces(s, after[..n]);
    }
  }

  /** Trimming takes away just the whitespace around a text. */
  lemma TrimTakesSpaces(before: string, s: string, after: string)
    requires AllSpace(before) && AllSpace(after) && s != "" && Snug(s)
    ensures Trim(before + s + after) == s
  {
    assert (before + s)[|before + s| - 1] == s[|s| - 1];
    TrimRightSpaces(before + s, after);
    TrimLeftSpaces(before, s);
  }

  /** The pieces with the delimiter in between. */
  function Interlaced(parts: seq<string>, delim: char): string {
    if parts == [] then ""
    else if |parts| == 1 then parts[0]
    else parts[0] + ([delim] + Interlaced(parts[1..], delim))
  }

  /** Splitting gives the pieces back, when they hold no delimiter and the last of
      them is not empty. */
  lemma {:induction false} PiecesOfInterlaced(parts: seq<string>, delim: char)
    requires parts != [] && parts[|parts| - 1] != ""
    requires forall i :: 0 <= i < |parts| ==> delim !in parts[i]
    ensures Interlaced(parts, delim) != "" && Pieces(Interlaced(parts, delim), delim) == parts
    decreases |parts|
  {
    if |parts| == 1 {
      PieceLast(parts[0], delim);
      assert parts == [parts[0]];
    } else {
      var rest := Interlaced(parts[1..], delim);
      PiecesOfInterlaced(parts[1..], delim);
      PieceFirst(parts[0], delim, rest);
      assert parts == [parts[0]] + parts[1..];
    }
  }

  lemma PieceLast(part: string, delim: char)
    requires part != "" && delim !in part
    ensures Pieces(part, delim) == [part]
  {
    assert forall k :: 0 <= k < |part| ==> part[k] in part;
  }

  lemma PieceFirst(part: string, delim: char, rest: string)
    requires delim !in part
    ensures Pieces(part + ([delim] + rest), delim) == [part] + Pieces(rest, delim)
  {
    var s := part + ([delim] + rest);
    assert s[|part|] == delim;
    assert forall k :: 0 <= k < |part| ==> s[k] == part[k] && part[k] in part;
    assert Find(s, delim, 0) == |part|;
    assert s[..|part|] == part && s[|part| + 1..] == rest;
  }

  lemma SplitOfInterlaced(parts: seq<string>, delim: char)
    requires parts != [] && parts[|parts| - 1] != ""
    requires forall i :: 0 <= i < |parts| ==> delim !in parts[i]
    ensures Split(Interlaced(parts, delim), delim) == parts
  {
    PiecesOfInterlaced(parts, delim);
  }
}
