/** The list post-processing both services apply to a section of a reply:
    `section.split(/\n|•|-/).map(item => item.trim()).filter(item => item.length > min).slice(0, cap)`,
    with a fixed default list when nothing survives. */
module Sections {
  import opened Wrappers
  import opened Text
  import opened Seqs

  /** The characters of `/\n|•|-/`. */
  predicate IsItemSeparator(c: char) {
    c == '\n' || c == '•' || c == '-'
  }

  function TrimAll(pieces: seq<string>): (r: seq<string>)
    ensures |r| == |pieces|
    ensures forall k :: 0 <= k < |r| ==> r[k] == Trim(pieces[k])
  {
    seq(|pieces|, k requires 0 <= k < |pieces| => Trim(pieces[k]))
  }

  /** Neither end of `s` is white space. */
  predicate Trimmed(s: string) {
    s == [] || (!IsSpace(s[0]) && !IsSpace(s[|s| - 1]))
  }

  /** A piece of a list: trimmed and free of item separators. */
  predicate CleanPiece(s: string) {
    Trimmed(s) && forall j :: 0 <= j < |s| ==> !IsItemSeparator(s[j])
  }

  /** Every piece of a split, once trimmed, is clean. */
  lemma TrimmedPiecesClean(text: string)
    ensures forall k :: 0 <= k < |TrimAll(Split(text, IsItemSeparator))| ==>
              CleanPiece(TrimAll(Split(text, IsItemSeparator))[k])
  {
    var pieces := Split(text, IsItemSeparator);
    SplitSpec(text, IsItemSeparator);
    forall k | 0 <= k < |pieces|
      ensures CleanPiece(Trim(pieces[k]))
    {
      TrimSlice(pieces[k]);
    }
  }

  /** `item => item.length > minLen`. */
  function Longer(minLen: nat): string -> bool {
    (s: string) => |s| > minLen
  }

  /** `text.split(/\n|•|-/).map(item => item.trim())`. */
  function Pieces(text: string): seq<string> {
    TrimAll(Split(text, IsItemSeparator))
  }

  /** Every trimmed piece of `text` longer than `minLen`, in order. */
  function LongPieces(text: string, minLen: nat): (r: seq<string>)
    ensures forall k :: 0 <= k < |r| ==> |r[k]| > minLen && CleanPiece(r[k])
    ensures forall k :: 0 <= k < |Pieces(text)| && |Pieces(text)[k]| > minLen ==> Pieces(text)[k] in r
    ensures IsSubsequence(r, Pieces(text))
  {
    var r := Filter(Pieces(text), Longer(minLen));
    TrimmedPiecesClean(text);
    SubsequenceAll(r, Pieces(text), CleanPiece);
    r
  }

  /** The trimmed, long-enough pieces of `text`, at most `cap` of them, in order:
      the first `cap` long pieces, or all of them when there are fewer. */
  function Items(text: string, minLen: nat, cap: nat): (r: seq<string>)
    ensures |r| <= cap
    ensures forall k :: 0 <= k < |r| ==> |r[k]| > minLen && CleanPiece(r[k])
    ensures IsSubsequence(r, Pieces(text))
    ensures |r| <= |LongPieces(text, minLen)| && r == LongPieces(text, minLen)[..|r|]
    ensures |LongPieces(text, minLen)| <= cap ==> r == LongPieces(text, minLen)
    ensures |LongPieces(text, minLen)| > cap ==> |r| == cap
  {
    var kept := LongPieces(text, minLen);
    var r := Take(kept, cap);
    TakeSubsequence(kept, cap, Pieces(text));
    assert forall k :: 0 <= k < |r| ==> r[k] == kept[k];
    r
  }

  /** A trimmed string is trimmed, and its characters come from the original. */
  lemma TrimSlice(s: string)
    ensures Trimmed(Trim(s))
    ensures forall j :: 0 <= j < |Trim(s)| ==> Trim(s)[j] in s
  {
    var t := Trim(s);
    var a, b :| 0 <= a <= b <= |s| && t == s[a..b]
      && (forall k :: 0 <= k < a ==> IsSpace(s[k]))
      && (forall k :: b <= k < |s| ==> IsSpace(s[k]))
      && (t != [] ==> !IsSpace(t[0]) && !IsSpace(t[|t| - 1]));
    assert forall j :: 0 <= j < |t| ==> t[j] == s[a + j];
  }

  /** A prefix of a subsequence is a subsequence. */
  lemma TakeSubsequence<T>(xs: seq<T>, n: nat, ys: seq<T>)
    requires IsSubsequence(xs, ys)
    ensures IsSubsequence(Take(xs, n), ys)
  {
    PrefixSubsequence(xs, |Take(xs, n)|, ys);
  }

  lemma {:induction false} PrefixSubsequence<T>(xs: seq<T>, n: nat, ys: seq<T>)
    requires n <= |xs|
    requires IsSubsequence(xs, ys)
    ensures IsSubsequence(xs[..n], ys)
    decreases |ys|
  {
    if n > 0 && ys != [] {
      if xs[0] == ys[0] && IsSubsequence(xs[1..], ys[1..]) {
        PrefixSubsequence(xs[1..], n - 1, ys[1..]);
        assert xs[..n][1..] == xs[1..][..n - 1];
      } else {
        PrefixSubsequence(xs, n, ys[1..]);
      }
    }
  }

  /** `items.length > 0 ? items : defaults` over an optional section. */
  function ItemsOrDefault(section: Option<string>, minLen: nat, cap: nat, defaults: seq<string>): (r: seq<string>)
    ensures section.None? ==> r == defaults
    ensures r == defaults || (0 < |r| <= cap && forall k :: 0 <= k < |r| ==> |r[k]| > minLen && CleanPiece(r[k]))
    ensures |defaults| > 0 ==> |r| > 0
    ensures section.Some? && (cap == 0 || LongPieces(section.value, minLen) == []) ==> r == defaults
    ensures section.Some? && cap > 0 && LongPieces(section.value, minLen) != [] ==>
      r == Take(LongPieces(section.value, minLen), cap)
  {
    match section
    case None => defaults
    case Some(text) =>
      var items := Items(text, minLen, cap);
      if |items| > 0 then items else defaults
  }

  /** `lines.join("\n")`. */
  function JoinLines(lines: seq<string>): string
    decreases |lines|
  {
    if lines == [] then []
    else if |lines| == 1 then lines[0]
    else lines[0] + "\n" + JoinLines(lines[1..])
  }

  /** A trimmed string trims to itself. */
  lemma TrimOfTrimmed(s: string)
    requires Trimmed(s)
    ensures Trim(s) == s
  {
    if s != [] {
      assert SkipWhile(s, 0, IsSpace) == 0;
      assert BackWhile(s, |s|, IsSpace) == |s|;
      assert s[0..|s|] == s;
    }
  }

  /** Splitting a joined list of separator-free lines gives the lines back. */
  lemma {:induction false} SplitJoinLines(lines: seq<string>)
    requires |lines| >= 1
    requires forall k, j :: 0 <= k < |lines| && 0 <= j < |lines[k]| ==> !IsItemSeparator(lines[k][j])
    ensures Split(JoinLines(lines), IsItemSeparator) == lines
    decreases |lines|
  {
    var s := JoinLines(lines);
    var x := lines[0];
    if |lines| == 1 {
      SplitWhole(s, IsItemSeparator);
    } else {
      var rest := JoinLines(lines[1..]);
      assert s == x + "\n" + rest;
      assert s[..|x|] == x && s[|x|] == '\n' && s[|x| + 1..] == rest;
      SplitAtFirst(s, |x|, IsItemSeparator);
      SplitJoinLines(lines[1..]);
      assert lines == [x] + lines[1..];
    }
  }

  /** A bulleted list of at most `cap` trimmed, long-enough, separator-free
      lines is read back unchanged: `Items` inverts `JoinLines`. */
  lemma ItemsOfJoinedLines(lines: seq<string>, minLen: nat, cap: nat)
    requires 1 <= |lines| <= cap
    requires forall k :: 0 <= k < |lines| ==> |lines[k]| > minLen && CleanPiece(lines[k])
    ensures Items(JoinLines(lines), minLen, cap) == lines
  {
    SplitJoinLines(lines);
    var trimmed := TrimAll(lines);
    forall k | 0 <= k < |lines|
      ensures trimmed[k] == lines[k]
    {
      TrimOfTrimmed(lines[k]);
    }
    assert trimmed == lines;
    FilterAll(lines, Longer(minLen));
  }
}
