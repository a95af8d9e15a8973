/** The few operations of Python 2's `str` that the codecs use: `in`, `split`,
    `split(' ', 1)` and `lower()`. All separators in the source are non-empty literals. */
module Strings {
  import opened Wrappers

  /** True when `w` occurs in `s` at index `j`. */
  predicate OccursAt(s: string, w: string, j: int) {
    0 <= j && j + |w| <= |s| && s[j..j + |w|] == w
  }

  /** Index of the first occurrence of `w` in `s`, as `str.find` gives it. */
  function Find(s: string, w: string): (r: Option<nat>)
    requires |w| > 0
    decreases |s|
    ensures r.Some? ==> OccursAt(s, w, r.value)
    ensures r.Some? ==> forall j :: 0 <= j < r.value ==> !OccursAt(s, w, j)
    ensures r.None? ==> forall j :: !OccursAt(s, w, j)
  {
    if |s| < |w| then None
    else if s[..|w|] == w then Some(0)
    else
      match Find(s[1..], w)
      case None =>
        assert forall j :: 1 <= j ==> (OccursAt(s, w, j) <==> OccursAt(s[1..], w, j - 1));
        None
      case Some(i) =>
        assert forall j :: 1 <= j ==> (OccursAt(s, w, j) <==> OccursAt(s[1..], w, j - 1));
        Some(i + 1)
  }

  /** Python's `w in s`. */
  predicate Contains(s: string, w: string)
    requires |w| > 0
  {
    Find(s, w).Some?
  }

  /** Python's `sep.join(parts)`. */
  function Join(parts: seq<string>, sep: string): string {
    if |parts| == 0 then ""
    else if |parts| == 1 then parts[0]
    else parts[0] + sep + Join(parts[1..], sep)
  }

  /** Python's `s.split(sep)` for a non-empty separator: the pieces between the
      occurrences of `sep`, scanning left to right. */
  function Split(s: string, sep: string): (parts: seq<string>)
    requires |sep| > 0
    decreases |s|
    ensures |parts| >= 1
    ensures Join(parts, sep) == s
    ensures forall i :: 0 <= i < |parts| ==> !Contains(parts[i], sep)
    ensures |parts| == 1 <==> !Contains(s, sep)
  {
    match Find(s, sep)
    case None => [s]
    case Some(i) =>
      var rest := Split(s[i + |sep|..], sep);
      HeadBeforeFirst(s, sep, i);
      [s[..i]] + rest
  }

  /** The text before the first occurrence of `sep` does not contain `sep`, and the
      string is that text, `sep` and what follows. */
  lemma HeadBeforeFirst(s: string, sep: string, i: nat)
    requires |sep| > 0 && Find(s, sep) == Some(i)
    ensures !Contains(s[..i], sep)
    ensures s == s[..i] + sep + s[i + |sep|..]
  {
    assert s[i..i + |sep|] == sep;
    assert s == s[..i] + s[i..i + |sep|] + s[i + |sep|..];
    var head := s[..i];
    match Find(head, sep)
    case None =>
    case Some(j) =>
      assert head[j..j + |sep|] == s[j..j + |sep|];
      assert OccursAt(s, sep, j);
  }

  /** `s.split(' ', 1)[1]`, with the source's `except IndexError: ''`: what follows
      the first space, or the empty string when there is none. */
  function AfterFirstSpace(s: string): (r: string)
    ensures |r| <= |s|
  {
    match Find(s, " ")
    case None => ""
    case Some(i) => s[i + 1..]
  }

  /** Python 2's `str.lower()` on one character: ASCII letters only. */
  function LowerChar(c: char): char {
    if 'A' <= c <= 'Z' then (c as int + 32) as char else c
  }

  function Lower(s: string): (r: string)
    ensures |r| == |s|
    ensures forall i :: 0 <= i < |s| ==> r[i] == LowerChar(s[i])
  {
    seq(|s|, i requires 0 <= i < |s| => LowerChar(s[i]))
  }

  /** An occurrence at `j` means `Find` succeeds, at `j` or earlier. */
  lemma FindAtMost(s: string, w: string, j: int)
    requires |w| > 0 && OccursAt(s, w, j)
    ensures Find(s, w).Some? && Find(s, w).value <= j
  {
  }

  /** When the first character of `w` does not occur in `a`, the first occurrence of
      `w` in `a + w + b` starts right after `a`. */
  lemma {:induction false} FindAfter(a: string, w: string, b: string)
    requires |w| > 0 && w[0] !in a
    ensures Find(a + w + b, w) == Some(|a|)
  {
    var s := a + w + b;
    assert s[|a|..|a| + |w|] == w;
    assert OccursAt(s, w, |a|);
    FindAtMost(s, w, |a|);
  }

  /** A string in which some character of `w` never appears cannot contain `w`. */
  lemma AbsentCharNotContained(s: string, w: string, c: char)
    requires |w| > 0 && c in w && c !in s
    ensures !Contains(s, w)
  {
  }

  /** Splitting `a + sep + b` where `sep` starts with a character absent from `a` and
      does not occur in `b` gives exactly the two pieces `a` and `b`. */
  lemma SplitTwo(a: string, sep: string, b: string)
    requires |sep| > 0 && sep[0] !in a && !Contains(b, sep)
    ensures Split(a + sep + b, sep) == [a, b]
  {
    var s := a + sep + b;
    FindAfter(a, sep, b);
    assert s[..|a|] == a;
    assert s[|a| + |sep|..] == b;
    var rest := Split(b, sep);
    assert |rest| == 1 && Join(rest, sep) == rest[0];
  }

  /** Splitting a string that does not contain `sep` gives the string itself. */
  lemma SplitNone(s: string, sep: string)
    requires |sep| > 0 && !Contains(s, sep)
    ensures Split(s, sep) == [s]
  {
    var parts := Split(s, sep);
    assert Join(parts, sep) == parts[0];
  }

  /** Splitting `a + sep + b` (first character of `sep` absent from `a`) puts `a` first. */
  lemma SplitFirst(a: string, sep: string, b: string)
    requires |sep| > 0 && sep[0] !in a
    ensures Split(a + sep + b, sep)[0] == a
    ensures |Split(a + sep + b, sep)| >= 2
  {
    var s := a + sep + b;
    FindAfter(a, sep, b);
    assert s[..|a|] == a;
  }

  /** `AfterFirstSpace` of a word followed by a space drops the word and the space. */
  lemma AfterWordSpace(word: string, rest: string)
    requires ' ' !in word
    ensures AfterFirstSpace(word + " " + rest) == rest
  {
    FindAfter(word, " ", rest);
    assert (word + " " + rest)[|word| + 1..] == rest;
  }

  /** Splitting `a + sep + b` (first character of `sep` absent from `a`) gives `a`, then
      the pieces of `b`. */
  lemma SplitCons(a: string, sep: string, b: string)
    requires |sep| > 0 && sep[0] !in a
    ensures Split(a + sep + b, sep) == [a] + Split(b, sep)
  {
    var s := a + sep + b;
    FindAfter(a, sep, b);
    assert s[..|a|] == a;
    assert s[|a| + |sep|..] == b;
  }
}
