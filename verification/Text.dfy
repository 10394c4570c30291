/** String helpers whose exact behaviour matters to a round trip. */
module Text {

  /** The code points with the Unicode White_Space property, as ranges. */
  const SPACES: seq<(char, char)> := [
    ('\U{0009}', '\U{000D}'), (' ', ' '), ('\U{0085}', '\U{0085}'), ('\U{00A0}', '\U{00A0}'),
    ('\U{1680}', '\U{1680}'), ('\U{2000}', '\U{200A}'), ('\U{2028}', '\U{2029}'), ('\U{202F}', '\U{202F}'),
    ('\U{205F}', '\U{205F}'), ('\U{3000}', '\U{3000}')]

  predicate InRanges(c: char, ranges: seq<(char, char)>, n: nat)
    requires n <= |ranges|
  {
    n > 0 && (ranges[n - 1].0 <= c <= ranges[n - 1].1 || InRanges(c, ranges, n - 1))
  }

  predicate IsSpace(c: char) {
    InRanges(c, SPACES, |SPACES|)
  }

  lemma {:induction false} AboveRanges(c: char, ranges: seq<(char, char)>, n: nat)
    requires n <= |ranges| && forall i :: 0 <= i < n ==> !(ranges[i].0 <= c <= ranges[i].1)
    ensures !InRanges(c, ranges, n)
  {
    if n > 0 {
      AboveRanges(c, ranges, n - 1);
    }
  }

  lemma LettersAreNoSpace(c: char)
    requires 'a' <= c <= 'z'
    ensures !IsSpace(c)
  {
    AboveRanges(c, SPACES, |SPACES|);
  }

  predicate Trimmed(s: string) {
    s == [] || (!IsSpace(s[0]) && !IsSpace(s[|s| - 1]))
  }

  /** `str::trim`: leaves exactly the trimmed strings alone, and always returns one. */
  function Trim(s: string): (t: string)
    ensures Trimmed(t)
    ensures t == s <==> Trimmed(s)
    ensures |t| <= |s|
  {
    if s == [] then s
    else if IsSpace(s[0]) then Trim(s[1..])
    else if IsSpace(s[|s| - 1]) then Trim(s[..|s| - 1])
    else s
  }

  lemma {:induction false} TrimKeepsHead(s: string)
    requires s != [] && !IsSpace(s[0])
    ensures Trim(s) != [] && Trim(s)[0] == s[0]
    decreases |s|
  {
    if IsSpace(s[|s| - 1]) {
      TrimKeepsHead(s[..|s| - 1]);
    }
  }

  // ---------------------------------------------------------------- what is white space, and what trimming leaves

  lemma {:induction false} InRangesIff(c: char, ranges: seq<(char, char)>, n: nat)
    requires n <= |ranges|
    ensures InRanges(c, ranges, n) <==> exists i :: 0 <= i < n && ranges[i].0 <= c <= ranges[i].1
  {
    if n > 0 {
      InRangesIff(c, ranges, n - 1);
    }
  }

  /** The white space characters, one by one. */
  lemma IsSpaceIff(c: char)
    ensures IsSpace(c) <==>
      c in {'\t', '\n', '\U{000B}', '\U{000C}', '\r', ' ', '\U{0085}', '\U{00A0}', '\U{1680}', '\U{2000}', '\U{2001}',
            '\U{2002}', '\U{2003}', '\U{2004}', '\U{2005}', '\U{2006}', '\U{2007}', '\U{2008}', '\U{2009}', '\U{200A}',
            '\U{2028}', '\U{2029}', '\U{202F}', '\U{205F}', '\U{3000}'}
  {
    InRangesIff(c, SPACES, |SPACES|);
    assert SPACES[0] == ('\t', '\r') && SPACES[1] == (' ', ' ') && SPACES[2] == ('\U{0085}', '\U{0085}')
      && SPACES[3] == ('\U{00A0}', '\U{00A0}') && SPACES[4] == ('\U{1680}', '\U{1680}') && SPACES[5] == ('\U{2000}', '\U{200A}')
      && SPACES[6] == ('\U{2028}', '\U{2029}') && SPACES[7] == ('\U{202F}', '\U{202F}') && SPACES[8] == ('\U{205F}', '\U{205F}')
      && SPACES[9] == ('\U{3000}', '\U{3000}');
  }

  predicate AllSpace(s: string) {
    forall i :: 0 <= i < |s| ==> IsSpace(s[i])
  }

  /** The string is this trimmed one with nothing but white space around it. */
  ghost predicate Pads(s: string, inner: string) {
    Trimmed(inner) && exists before, after :: AllSpace(before) && AllSpace(after) && s == before + inner + after
  }

  /** Trimming removes exactly the outer white space: of `before + inner + after` it leaves `inner`. */
  lemma {:induction false} TrimLeavesInner(before: string, inner: string, after: string)
    requires AllSpace(before) && AllSpace(after) && Trimmed(inner)
    ensures Trim(before + inner + after) == inner
    decreases |before| + |after|
  {
    var s := before + inner + after;
    if before != [] {
      assert s[1..] == before[1..] + inner + after;
      TrimLeavesInner(before[1..], inner, after);
    } else if after != [] && inner == [] {
      assert s[1..] == before + inner + after[1..];
      TrimLeavesInner(before, inner, after[1..]);
    } else if after != [] {
      assert s[..|s| - 1] == before + inner + after[..|after| - 1];
      TrimLeavesInner(before, inner, after[..|after| - 1]);
    } else {
      assert s == inner;
    }
  }

  lemma OneMoreSpace(c: char, before: string, inner: string, after: string)
    requires IsSpace(c) && AllSpace(before) && AllSpace(after)
    ensures AllSpace([c] + before) && AllSpace(after + [c])
    ensures ([c] + before) + inner + after == [c] + (before + inner + after)
    ensures before + inner + (after + [c]) == (before + inner + after) + [c]
  {
  }

  /** And every string is what trimming leaves of it with white space around. */
  lemma {:induction false} TrimmedWithin(s: string) returns (before: string, after: string)
    ensures AllSpace(before) && AllSpace(after) && s == before + Trim(s) + after
    decreases |s|
  {
    before, after := [], [];
    if s != [] && IsSpace(s[0]) {
      before, after := TrimmedWithin(s[1..]);
      OneMoreSpace(s[0], before, Trim(s), after);
      before := [s[0]] + before;
    } else if s != [] && IsSpace(s[|s| - 1]) {
      before, after := TrimmedWithin(s[..|s| - 1]);
      OneMoreSpace(s[|s| - 1], before, Trim(s), after);
      after := after + [s[|s| - 1]];
    }
  }

  /** So trimming a string gives precisely the trimmed string it pads. */
  lemma TrimIff(s: string, inner: string)
    ensures Trim(s) == inner <==> Pads(s, inner)
  {
    var before, after := TrimmedWithin(s);
    if Pads(s, inner) {
      var b, a :| AllSpace(b) && AllSpace(a) && s == b + inner + a;
      TrimLeavesInner(b, inner, a);
    }
  }

  /** `trim_end_matches('/')`. */
  function TrimEndSlashes(s: string): (t: string)
    ensures t <= s && (t == [] || t[|t| - 1] != '/')
    ensures forall i :: |t| <= i < |s| ==> s[i] == '/'
    ensures s != [] && s[0] != '/' ==> t != []
  {
    if s != [] && s[|s| - 1] == '/' then TrimEndSlashes(s[..|s| - 1]) else s
  }

  function LowerChar(c: char): char {
    if 'A' <= c <= 'Z' then (c as int + 32) as char else c
  }

  function Lower(s: string): (t: string)
    ensures |t| == |s| && forall i :: 0 <= i < |s| ==> t[i] == LowerChar(s[i])
  {
    seq(|s|, i requires 0 <= i < |s| => LowerChar(s[i]))
  }
}
