/** String helpers with the meaning JavaScript gives them: `toLowerCase`,
    `includes`, `trim`, `split` on single-character separators, decimal
    `toString` and `parseInt` of a digit string. Strings are sequences of
    Unicode scalar values; case mapping is ASCII only. */
module Text {

  /** The characters JavaScript's `\s` and `String.prototype.trim` treat as white
      space: the WhiteSpace and LineTerminator productions of ECMAScript. */
  predicate IsSpace(c: char) {
    || c == ' ' || c == '\t' || c == '\n' || c == '\r'
    || c == '\U{000B}' || c == '\U{000C}' || c == '\U{00A0}' || c == '\U{1680}'
    || ('\U{2000}' <= c <= '\U{200A}')
    || c == '\U{2028}' || c == '\U{2029}' || c == '\U{202F}' || c == '\U{205F}'
    || c == '\U{3000}' || c == '\U{FEFF}'
  }

  predicate IsDigit(c: char) {
    '0' <= c <= '9'
  }

  predicate AllDigits(s: string) {
    forall k :: 0 <= k < |s| ==> IsDigit(s[k])
  }

  function LowerChar(c: char): char {
    if 'A' <= c <= 'Z' then (c as int + 32) as char else c
  }

  /** `toLowerCase`, restricted to ASCII letters. */
  function Lower(s: string): (r: string)
    ensures |r| == |s|
    ensures forall k :: 0 <= k < |s| ==> r[k] == LowerChar(s[k])
  {
    if s == [] then [] else [LowerChar(s[0])] + Lower(s[1..])
  }

  /** Lower-casing twice changes nothing more. */
  lemma LowerIdempotent(s: string)
    ensures Lower(Lower(s)) == Lower(s)
  {
  }

  /** A string without capital letters is its own lower case. */
  lemma LowerUnchanged(s: string)
    requires forall k :: 0 <= k < |s| ==> !('A' <= s[k] <= 'Z')
    ensures Lower(s) == s
  {
    assert forall k :: 0 <= k < |s| ==> Lower(s)[k] == s[k];
  }

  /** `s` begins with `p`. */
  predicate StartsWith(s: string, p: string) {
    |p| <= |s| && s[..|p|] == p
  }

  /** `String.prototype.includes`: `needle` occurs somewhere in `hay`. */
  predicate Contains(hay: string, needle: string)
    decreases |hay|
  {
    StartsWith(hay, needle) || (|hay| > 0 && Contains(hay[1..], needle))
  }

  /** `needle` occurs in `hay` starting at index `i`. */
  predicate OccursAt(hay: string, needle: string, i: nat) {
    i + |needle| <= |hay| && hay[i..i + |needle|] == needle
  }

  /** `Contains` agrees with the positional definition of an occurrence. */
  lemma {:induction false} ContainsIff(hay: string, needle: string)
    ensures Contains(hay, needle) <==> exists i: nat :: OccursAt(hay, needle, i)
    decreases |hay|
  {
    if StartsWith(hay, needle) {
      assert OccursAt(hay, needle, 0);
    } else if |hay| == 0 {
    } else {
      ContainsIff(hay[1..], needle);
      if exists i: nat :: OccursAt(hay, needle, i) {
        var i: nat :| OccursAt(hay, needle, i);
        assert i != 0;
        assert hay[1..][i - 1..i - 1 + |needle|] == hay[i..i + |needle|];
        assert OccursAt(hay[1..], needle, i - 1);
      }
      if Contains(hay[1..], needle) {
        var i: nat :| OccursAt(hay[1..], needle, i);
        assert hay[1..][i..i + |needle|] == hay[i + 1..i + 1 + |needle|];
        assert OccursAt(hay, needle, i + 1);
      }
    }
  }

  /** A needle placed at position `i` is found. */
  lemma ContainsAt(hay: string, needle: string, i: nat)
    requires OccursAt(hay, needle, i)
    ensures Contains(hay, needle)
  {
    ContainsIff(hay, needle);
  }

  /** The empty string occurs in every string. */
  lemma ContainsEmpty(hay: string)
    ensures Contains(hay, "")
  {
    assert StartsWith(hay, "");
  }

  /** A needle holding a character the haystack lacks is not found. */
  lemma {:induction false} MissingCharNotContained(hay: string, needle: string, c: char)
    requires c in needle && c !in hay
    ensures !Contains(hay, needle)
    decreases |hay|
  {
    if |hay| > 0 {
      assert c !in hay[1..] by {
        assert forall k :: 0 <= k < |hay[1..]| ==> hay[1..][k] == hay[k + 1];
      }
      MissingCharNotContained(hay[1..], needle, c);
    }
  }

  /** The first index at or after `i` whose character fails `p` (or `|s|`). */
  function SkipWhile(s: string, i: nat, p: char -> bool): (j: nat)
    requires i <= |s|
    ensures i <= j <= |s|
    ensures forall k :: i <= k < j ==> p(s[k])
    ensures j < |s| ==> !p(s[j])
    decreases |s| - i
  {
    if i < |s| && p(s[i]) then SkipWhile(s, i + 1, p) else i
  }

  /** The least index `i <= j` such that every character in `s[i..j]` satisfies `p`. */
  function BackWhile(s: string, j: nat, p: char -> bool): (i: nat)
    requires j <= |s|
    ensures i <= j
    ensures forall k :: i <= k < j ==> p(s[k])
    ensures i > 0 ==> !p(s[i - 1])
    decreases j
  {
    if j > 0 && p(s[j - 1]) then BackWhile(s, j - 1, p) else j
  }

  /** `r` is `s` with its leading and trailing white space removed. */
  ghost predicate IsTrimOf(r: string, s: string) {
    exists a, b :: 0 <= a <= b <= |s| && r == s[a..b]
      && (forall k :: 0 <= k < a ==> IsSpace(s[k]))
      && (forall k :: b <= k < |s| ==> IsSpace(s[k]))
      && (r != [] ==> !IsSpace(r[0]) && !IsSpace(r[|r| - 1]))
  }

  /** `String.prototype.trim`. */
  function Trim(s: string): (r: string)
    ensures IsTrimOf(r, s)
    ensures |r| <= |s|
  {
    var a := SkipWhile(s, 0, IsSpace);
    var b := BackWhile(s, |s|, IsSpace);
    if b <= a then
      assert forall k :: 0 <= k < |s| ==> IsSpace(s[k]);
      assert s[|s|..|s|] == [];
      s[|s|..|s|]
    else
      s[a..b]
  }

  /** Trimming a trimmed string changes nothing. */
  lemma TrimIdempotent(s: string)
    ensures Trim(Trim(s)) == Trim(s)
  {
    var t := Trim(s);
    if t != [] {
      assert !IsSpace(t[0]) && !IsSpace(t[|t| - 1]);
      assert SkipWhile(t, 0, IsSpace) == 0;
      assert BackWhile(t, |t|, IsSpace) == |t|;
      assert t[0..|t|] == t;
    }
  }

  /** `s.split(re)` where `re` matches exactly the single characters satisfying
      `isSep`: the maximal separator-free pieces, in order; a string with `n`
      separators yields `n + 1` pieces, some possibly empty. */
  function Split(s: string, isSep: char -> bool): (r: seq<string>)
    ensures |r| >= 1
    decreases |s|
  {
    var i := SkipWhile(s, 0, c => !isSep(c));
    if i == |s| then [s] else [s[..i]] + Split(s[i + 1..], isSep)
  }

  /** Text with no separator splits into itself alone. */
  lemma SplitWhole(s: string, isSep: char -> bool)
    requires forall k :: 0 <= k < |s| ==> !isSep(s[k])
    ensures Split(s, isSep) == [s]
  {
    var i := SkipWhile(s, 0, c => !isSep(c));
    assert i == |s|;
  }

  /** Splitting at the first separator: the text before it, then the split
      of the text after it. */
  lemma SplitAtFirst(s: string, i: nat, isSep: char -> bool)
    requires i < |s| && isSep(s[i])
    requires forall k :: 0 <= k < i ==> !isSep(s[k])
    ensures Split(s, isSep) == [s[..i]] + Split(s[i + 1..], isSep)
  {
    var j := SkipWhile(s, 0, c => !isSep(c));
    assert j == i;
  }

  /** The characters of `s` that are not separators, in order. */
  function DropSeparators(s: string, isSep: char -> bool): string
    decreases |s|
  {
    if s == [] then [] else (if isSep(s[0]) then [] else [s[0]]) + DropSeparators(s[1..], isSep)
  }

  function CountSeparators(s: string, isSep: char -> bool): nat
    decreases |s|
  {
    if s == [] then 0 else (if isSep(s[0]) then 1 else 0) + CountSeparators(s[1..], isSep)
  }

  function Concat(pieces: seq<string>): string {
    if pieces == [] then [] else pieces[0] + Concat(pieces[1..])
  }

  /** Dropping separators distributes over concatenation. */
  lemma {:induction false} DropSeparatorsAppend(a: string, b: string, isSep: char -> bool)
    ensures DropSeparators(a + b, isSep) == DropSeparators(a, isSep) + DropSeparators(b, isSep)
    ensures CountSeparators(a + b, isSep) == CountSeparators(a, isSep) + CountSeparators(b, isSep)
    decreases |a|
  {
    if a == [] {
      assert a + b == b;
    } else {
      assert (a + b)[1..] == a[1..] + b;
      DropSeparatorsAppend(a[1..], b, isSep);
    }
  }

  /** A separator-free string is unchanged by `DropSeparators`. */
  lemma {:induction false} DropSeparatorsNone(s: string, isSep: char -> bool)
    requires forall k :: 0 <= k < |s| ==> !isSep(s[k])
    ensures DropSeparators(s, isSep) == s
    ensures CountSeparators(s, isSep) == 0
    decreases |s|
  {
    if s != [] {
      DropSeparatorsNone(s[1..], isSep);
    }
  }

  /** No piece of a split holds a separator. */
  lemma {:induction false} SplitPiecesFree(s: string, isSep: char -> bool)
    ensures forall j, k :: 0 <= j < |Split(s, isSep)| && 0 <= k < |Split(s, isSep)[j]| ==>
              !isSep(Split(s, isSep)[j][k])
    decreases |s|
  {
    var i := SkipWhile(s, 0, c => !isSep(c));
    if i < |s| {
      SplitPiecesFree(s[i + 1..], isSep);
      assert Split(s, isSep) == [s[..i]] + Split(s[i + 1..], isSep);
    }
  }

  /** The text just before the first separator, the separator, and the rest. */
  lemma {:induction false} SplitAtSeparator(s: string, i: nat, isSep: char -> bool)
    requires i < |s| && isSep(s[i])
    requires forall k :: 0 <= k < i ==> !isSep(s[k])
    ensures DropSeparators(s, isSep) == s[..i] + DropSeparators(s[i + 1..], isSep)
    ensures CountSeparators(s, isSep) == 1 + CountSeparators(s[i + 1..], isSep)
  {
    var before, sep, after := s[..i], [s[i]], s[i + 1..];
    assert s == before + sep + after;
    DropSeparatorsNone(before, isSep);
    assert sep[0] == s[i] && sep[1..] == [];
    assert DropSeparators(sep[1..], isSep) == [] && CountSeparators(sep[1..], isSep) == 0;
    assert DropSeparators(sep, isSep) == [] && CountSeparators(sep, isSep) == 1;
    DropSeparatorsAppend(before, sep, isSep);
    DropSeparatorsAppend(before + sep, after, isSep);
  }

  /** The pieces of a split concatenate to the separator-free text, and there
      is one piece more than there are separators. */
  lemma {:induction false} SplitConcatCount(s: string, isSep: char -> bool)
    ensures Concat(Split(s, isSep)) == DropSeparators(s, isSep)
    ensures |Split(s, isSep)| == CountSeparators(s, isSep) + 1
    decreases |s|
  {
    var i := SkipWhile(s, 0, c => !isSep(c));
    if i == |s| {
      DropSeparatorsNone(s, isSep);
      assert Concat([s]) == s + Concat([]);
    } else {
      var rest := Split(s[i + 1..], isSep);
      SplitConcatCount(s[i + 1..], isSep);
      SplitAtSeparator(s, i, isSep);
      assert Split(s, isSep) == [s[..i]] + rest;
      assert Concat([s[..i]] + rest) == s[..i] + Concat(rest) by {
        assert ([s[..i]] + rest)[1..] == rest;
      }
    }
  }

  /** `Split` loses exactly the separators: no piece holds one, the pieces
      concatenate to the separator-free text, and there is one piece more than
      there are separators. Together these determine the split. */
  lemma SplitSpec(s: string, isSep: char -> bool)
    ensures forall j, k :: 0 <= j < |Split(s, isSep)| && 0 <= k < |Split(s, isSep)[j]| ==>
              !isSep(Split(s, isSep)[j][k])
    ensures Concat(Split(s, isSep)) == DropSeparators(s, isSep)
    ensures |Split(s, isSep)| == CountSeparators(s, isSep) + 1
  {
    SplitPiecesFree(s, isSep);
    SplitConcatCount(s, isSep);
  }

  /** `Array.prototype.slice(0, n)`. */
  function Take<T>(xs: seq<T>, n: nat): (r: seq<T>)
    ensures |r| <= n && |r| <= |xs|
    ensures |xs| <= n ==> r == xs
    ensures |xs| > n ==> |r| == n
    ensures r == xs[..|r|]
  {
    if |xs| <= n then xs else xs[..n]
  }

  function DigitChar(d: nat): char
    requires d < 10
  {
    ('0' as int + d) as char
  }

  function DigitValue(c: char): nat
    requires IsDigit(c)
  {
    c as int - '0' as int
  }

  /** `Number.prototype.toString()` of a natural number: its decimal digits. */
  function DecimalString(n: nat): (r: string)
    ensures |r| >= 1 && AllDigits(r)
  {
    if n < 10 then [DigitChar(n)] else DecimalString(n / 10) + [DigitChar(n % 10)]
  }

  /** `parseInt` of a non-empty digit string: its decimal value. */
  function DigitsValue(s: string): nat
    requires AllDigits(s)
    decreases |s|
  {
    if s == [] then 0 else DigitsValue(s[..|s| - 1]) * 10 + DigitValue(s[|s| - 1])
  }

  /** `parseInt` reads back what `toString` wrote. */
  lemma {:induction false} DecimalRoundTrip(n: nat)
    ensures DigitsValue(DecimalString(n)) == n
  {
    if n >= 10 {
      var h := DecimalString(n / 10);
      DecimalRoundTrip(n / 10);
      assert (h + [DigitChar(n % 10)])[..|h|] == h;
    }
  }

  /** Distinct numbers print as distinct strings. */
  lemma DecimalInjective(m: nat, n: nat)
    requires DecimalString(m) == DecimalString(n)
    ensures m == n
  {
    DecimalRoundTrip(m);
    DecimalRoundTrip(n);
  }
}
