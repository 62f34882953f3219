/** The regular expressions the two services run over model replies, as a small
    scanner. Every pattern the services use has one of four shapes:

    - a section:          `header s? [:\s]* (.*?) (?= stop | ... | $)`   (flags `is`)
    - a labelled figure:  `label s? [:\s]* \$? ([\d,]+)` or `label [:\s]* (\d+)`
    - a counted word:     `(\d+) %? \s* word`
    - a leading amount:   `\$? ([\d,]+ ...)`

    Headers, labels and words are lower-case ASCII letters, matched without
    regard to ASCII case (the `i` flag never folds a non-ASCII character onto
    an ASCII one), and `_` inside them stands for `\s*` (the risk service builds
    its category patterns by replacing the underscore with `\s*`). A match is
    the leftmost one, as for `String.prototype.match`.

    Greedy skipping is exact here: in every shape the piece after a greedy
    `\s*`, `[:\s]*`, `s?`, `%?`, `\$?` or digit run must begin with a character
    the greedy piece cannot consume, so backtracking into it never yields
    another match. */
module Scan {
  import opened Wrappers
  import opened Text

  /** The class `[:\s]`. */
  predicate IsSeparator(c: char) {
    c == ':' || IsSpace(c)
  }

  /** The class `[\d,]`. */
  predicate IsDigitOrComma(c: char) {
    IsDigit(c) || c == ','
  }

  /** Where a match of `pat` that starts at `i` ends, if `pat` matches there. */
  function MatchEnd(text: string, i: nat, pat: string): (r: Option<nat>)
    requires i <= |text|
    ensures r.Some? ==> i <= r.value <= |text|
    decreases |pat|
  {
    if pat == [] then Some(i)
    else if pat[0] == '_' then MatchEnd(text, SkipWhile(text, i, IsSpace), pat[1..])
    else if i < |text| && LowerChar(text[i]) == pat[0] then MatchEnd(text, i + 1, pat[1..])
    else None
  }

  predicate MatchesAt(text: string, i: nat, pat: string) {
    i <= |text| && MatchEnd(text, i, pat).Some?
  }

  /** A pattern of letters only matches where the text spells it, case
      aside, and ends right after it. */
  lemma {:induction false} MatchEndLetters(text: string, i: nat, pat: string)
    requires i + |pat| <= |text|
    requires forall k :: 0 <= k < |pat| ==> pat[k] != '_' && LowerChar(text[i + k]) == pat[k]
    ensures MatchEnd(text, i, pat) == Some(i + |pat|)
    decreases |pat|
  {
    if pat != [] {
      assert forall k :: 0 <= k < |pat| - 1 ==> pat[1..][k] == pat[k + 1];
      MatchEndLetters(text, i + 1, pat[1..]);
    }
  }

  /** A match of a pattern at `pos`, carrying what the match captured. */
  datatype Hit<T> = Hit(pos: nat, value: T)

  /** The leftmost position at or after `from` where matcher `m` succeeds. */
  function Leftmost<T>(len: nat, from: nat, m: nat -> Option<T>): (r: Option<Hit<T>>)
    requires from <= len
    ensures r.Some? ==> from <= r.value.pos <= len && m(r.value.pos) == Some(r.value.value)
    ensures r.Some? ==> forall q :: from <= q < r.value.pos ==> m(q).None?
    ensures r.None? ==> forall q :: from <= q <= len ==> m(q).None?
    decreases len - from
  {
    match m(from)
    case Some(v) => Some(Hit(from, v))
    case None => if from == len then None else Leftmost(len, from + 1, m)
  }

  /** Some pattern of `stops` matches at `i`. */
  predicate AnyStopAt(text: string, i: nat, stops: seq<string>)
    decreases |stops|
  {
    stops != [] && (MatchesAt(text, i, stops[0]) || AnyStopAt(text, i, stops[1..]))
  }

  /** Where the lazy `(.*?)(?=stop|...|$)` starting at `j` stops: the first
      position at which a stop pattern matches, or the end of the text. */
  function StopPosition(text: string, j: nat, stops: seq<string>): (k: nat)
    requires j <= |text|
    ensures j <= k <= |text|
    ensures forall p :: j <= p < k ==> !AnyStopAt(text, p, stops)
    ensures k == |text| || AnyStopAt(text, k, stops)
  {
    var m := (p: nat) => if AnyStopAt(text, p, stops) then Some(p) else None;
    assert forall p: nat :: m(p).None? <==> !AnyStopAt(text, p, stops);
    match Leftmost(|text|, j, m)
    case Some(h) => h.pos
    case None => |text|
  }

  /** Skips one `c` (compared without case) at `i` if there is one: a greedy `c?`. */
  function Optional(text: string, i: nat, c: char): (j: nat)
    requires i <= |text|
    ensures j == i || (j == i + 1 && i < |text| && LowerChar(text[i]) == c)
  {
    if i < |text| && LowerChar(text[i]) == c then i + 1 else i
  }

  /** Where the text captured by a section starts and ends. */
  datatype Span = Span(start: nat, end: nat)

  /** Header position for `Section`: the leftmost match of `header`. */
  function HeaderAt(text: string, header: string): (r: Option<Hit<nat>>)
    ensures r.Some? ==> MatchesAt(text, r.value.pos, header)
    ensures r.Some? ==> r.value.value == MatchEnd(text, r.value.pos, header).value
    ensures r.Some? ==> forall q :: 0 <= q < r.value.pos ==> !MatchesAt(text, q, header)
    ensures r.None? ==> forall q :: 0 <= q <= |text| ==> !MatchesAt(text, q, header)
  {
    var m := (q: nat) => if q <= |text| then MatchEnd(text, q, header) else None;
    assert forall q: nat :: m(q).None? <==> !MatchesAt(text, q, header);
    Leftmost(|text|, 0, m)
  }

  /** The span `[a, b)` that group 1 of `header s? [:\s]*(.*?)(?=stops|$)`
      captures: it starts after the leftmost match of the header, the `s` that
      may follow it when `plural`, and the separators after those; it ends at
      the first position from there at which a stop pattern matches, or at the
      end of the text. */
  predicate SectionSpan(text: string, header: string, plural: bool, stops: seq<string>, a: nat, b: nat) {
    && HeaderAt(text, header).Some?
    && var e := HeaderAt(text, header).value.value;
       var e1 := if plural && e < |text| && LowerChar(text[e]) == 's' then e + 1 else e;
       && e1 <= a <= b <= |text|
       && (forall p :: e1 <= p < a ==> IsSeparator(text[p]))
       && (a == |text| || !IsSeparator(text[a]))
       && (forall p :: a <= p < b ==> !AnyStopAt(text, p, stops))
       && (b == |text| || AnyStopAt(text, b, stops))
  }

  /** At most one span fits the description: the capture is determined. */
  lemma SectionSpanUnique(text: string, header: string, plural: bool, stops: seq<string>,
                          a: nat, b: nat, a': nat, b': nat)
    requires SectionSpan(text, header, plural, stops, a, b)
    requires SectionSpan(text, header, plural, stops, a', b')
    ensures a == a' && b == b'
  {
  }

  /** `text.match(/header s? [:\s]*(.*?)(?=stops|$)/is)`: the span of group 1.
      The section begins at the leftmost occurrence of the header (with its
      optional plural `s` when `plural`), after any colons and white space,
      and runs up to the first position where a stop pattern matches, or to the
      end of the text. Absent exactly when the header never occurs. */
  function Section(text: string, header: string, plural: bool, stops: seq<string>): (r: Option<Span>)
    ensures r.None? <==> forall q :: 0 <= q <= |text| ==> !MatchesAt(text, q, header)
    ensures r.Some? ==> r.value.start <= r.value.end <= |text|
    ensures r.Some? ==> forall p :: r.value.start <= p < r.value.end ==> !AnyStopAt(text, p, stops)
    ensures r.Some? ==> r.value.end == |text| || AnyStopAt(text, r.value.end, stops)
    ensures r.Some? ==> r.value.start == |text| || !IsSeparator(text[r.value.start])
    ensures r.Some? ==> SectionSpan(text, header, plural, stops, r.value.start, r.value.end)
  {
    match HeaderAt(text, header)
    case None => None
    case Some(h) =>
      var e := if plural then Optional(text, h.value, 's') else h.value;
      var j := SkipWhile(text, e, IsSeparator);
      Some(Span(j, StopPosition(text, j, stops)))
  }

  /** The text a section captured, if its header occurs. */
  function SectionText(text: string, header: string, plural: bool, stops: seq<string>): (r: Option<string>)
    ensures r.None? <==> forall q :: 0 <= q <= |text| ==> !MatchesAt(text, q, header)
    ensures r.Some? ==> |r.value| <= |text|
    ensures r.Some? ==> exists a: nat, b: nat :: SectionSpan(text, header, plural, stops, a, b) && r.value == text[a..b]
  {
    match Section(text, header, plural, stops)
    case None => None
    case Some(s) =>
      assert SectionSpan(text, header, plural, stops, s.start, s.end);
      Some(text[s.start..s.end])
  }

  /** The maximal run of `p`-characters starting at `i`, when non-empty. */
  function RunAt(text: string, i: nat, p: char -> bool): (r: Option<string>)
    requires i <= |text|
    ensures r.Some? ==> |r.value| > 0 && forall k :: 0 <= k < |r.value| ==> p(r.value[k])
    ensures r.Some? ==> i < |text| && p(text[i])
  {
    var k := SkipWhile(text, i, p);
    if k == i then None else Some(text[i..k])
  }

  /** `label s? [:\s]* \$? (run)` matched at `q`: what group 1 captured.
      `money` admits the `\$?`, `commas` widens the run from `\d+` to `[\d,]+`. */
  function LabelledAt(text: string, q: nat, key: string, plural: bool, money: bool, commas: bool): (r: Option<string>)
    requires q <= |text|
    ensures r.Some? ==> MatchesAt(text, q, key) && |r.value| > 0
    ensures r.Some? && !commas ==> AllDigits(r.value)
    ensures r.Some? ==> forall k :: 0 <= k < |r.value| ==> IsDigitOrComma(r.value[k])
    ensures r.Some? ==> exists p :: q <= p < |text| && IsDigitOrComma(text[p])
  {
    match MatchEnd(text, q, key)
    case None => None
    case Some(e) =>
      var e1 := if plural then Optional(text, e, 's') else e;
      var j := SkipWhile(text, e1, IsSeparator);
      var j1 := if money && j < |text| && text[j] == '$' then j + 1 else j;
      if commas then RunAt(text, j1, IsDigitOrComma) else RunAt(text, j1, IsDigit)
  }

  /** The leftmost labelled figure: `text.match(/label.../i)?.[1]`. */
  function LabelledFigure(text: string, key: string, plural: bool, money: bool, commas: bool): (r: Option<string>)
    ensures r.Some? ==> |r.value| > 0 && forall k :: 0 <= k < |r.value| ==> IsDigitOrComma(r.value[k])
    ensures r.Some? && !commas ==> AllDigits(r.value)
  {
    match Leftmost(|text|, 0, LabelledMatcher(text, key, plural, money, commas))
    case Some(h) => Some(h.value)
    case None => None
  }

  /** `LabelledAt` at every position of `text`. */
  function LabelledMatcher(text: string, key: string, plural: bool, money: bool, commas: bool): nat -> Option<string> {
    (q: nat) => if q <= |text| then LabelledAt(text, q, key, plural, money, commas) else None
  }

  /** The labelled figure is what the leftmost matching position captures;
      there is none iff no position matches. */
  lemma LabelledFigureLeftmost(text: string, key: string, plural: bool, money: bool, commas: bool)
    ensures var r := LabelledFigure(text, key, plural, money, commas);
      && (r.None? ==> forall q :: 0 <= q <= |text| ==> LabelledAt(text, q, key, plural, money, commas).None?)
      && (r.Some? ==> exists p :: 0 <= p < |text| && IsDigitOrComma(text[p]))
      && (r.Some? ==> exists q :: 0 <= q <= |text| && LabelledAt(text, q, key, plural, money, commas) == Some(r.value)
                        && forall q' :: 0 <= q' < q ==> LabelledAt(text, q', key, plural, money, commas).None?)
  {
    var m := LabelledMatcher(text, key, plural, money, commas);
    assert forall q: nat :: q <= |text| ==> m(q) == LabelledAt(text, q, key, plural, money, commas);
  }

  /** Text without a digit or a comma holds no labelled figure. */
  lemma NoFigureWithoutDigits(text: string, key: string, plural: bool, money: bool, commas: bool)
    requires forall k :: 0 <= k < |text| ==> !IsDigitOrComma(text[k])
    ensures LabelledFigure(text, key, plural, money, commas).None?
  {
    LabelledFigureLeftmost(text, key, plural, money, commas);
  }

  /** `(\d+) %? \s* word` matched at `q`: the digits of group 1. */
  function CountedAt(text: string, q: nat, word: string, percent: bool): (r: Option<string>)
    requires q <= |text|
    ensures r.Some? ==> |r.value| > 0 && AllDigits(r.value)
    ensures r.Some? ==> q < |text| && IsDigit(text[q])
  {
    match RunAt(text, q, IsDigit)
    case None => None
    case Some(digits) =>
      var k := q + |digits|;
      var k1 := if percent && k < |text| && text[k] == '%' then k + 1 else k;
      var k2 := SkipWhile(text, k1, IsSpace);
      if MatchesAt(text, k2, word) then Some(digits) else None
  }

  /** The leftmost count followed by `word`: `text.match(/(\d+)...word/i)?.[1]`. */
  function CountedWord(text: string, word: string, percent: bool): (r: Option<string>)
    ensures r.Some? ==> |r.value| > 0 && AllDigits(r.value)
  {
    match Leftmost(|text|, 0, CountedMatcher(text, word, percent))
    case Some(h) => Some(h.value)
    case None => None
  }

  /** `CountedAt` at every position of `text`. */
  function CountedMatcher(text: string, word: string, percent: bool): nat -> Option<string> {
    (q: nat) => if q <= |text| then CountedAt(text, q, word, percent) else None
  }

  /** The counted word's digits are what the leftmost matching position
      captures; there are none iff no position matches. */
  lemma CountedWordLeftmost(text: string, word: string, percent: bool)
    ensures var r := CountedWord(text, word, percent);
      && (r.None? ==> forall q :: 0 <= q <= |text| ==> CountedAt(text, q, word, percent).None?)
      && (r.Some? ==> exists p :: 0 <= p < |text| && IsDigit(text[p]))
      && (r.Some? ==> exists q :: 0 <= q <= |text| && CountedAt(text, q, word, percent) == Some(r.value)
                        && forall q' :: 0 <= q' < q ==> CountedAt(text, q', word, percent).None?)
  {
    var m := CountedMatcher(text, word, percent);
    assert forall q: nat :: q <= |text| ==> m(q) == CountedAt(text, q, word, percent);
  }

  /** Text without a digit holds no count. */
  lemma NoCountWithoutDigits(text: string, word: string, percent: bool)
    requires forall k :: 0 <= k < |text| ==> !IsDigit(text[k])
    ensures CountedWord(text, word, percent).None?
  {
    CountedWordLeftmost(text, word, percent);
  }

  /** `\$?([\d,]+(?:\.\d{2})?)` matched at `q`: the digits-and-commas part of
      group 1. The optional cents are left out of the capture because
      `parseInt` stops at the decimal point and never reads them. */
  function AmountAt(text: string, q: nat): (r: Option<string>)
    requires q <= |text|
    ensures r.Some? ==> |r.value| > 0 && forall k :: 0 <= k < |r.value| ==> IsDigitOrComma(r.value[k])
  {
    var j := if q < |text| && text[q] == '$' then q + 1 else q;
    RunAt(text, j, IsDigitOrComma)
  }

  /** The leftmost amount anywhere in the text. */
  function LeadingAmount(text: string): (r: Option<string>)
    ensures r.Some? ==> |r.value| > 0 && forall k :: 0 <= k < |r.value| ==> IsDigitOrComma(r.value[k])
  {
    match Leftmost(|text|, 0, AmountMatcher(text))
    case Some(h) => Some(h.value)
    case None => None
  }

  /** `AmountAt` at every position of `text`. */
  function AmountMatcher(text: string): nat -> Option<string> {
    (q: nat) => if q <= |text| then AmountAt(text, q) else None
  }

  /** The leading amount is what the leftmost position starting an amount
      captures; there is none iff no position starts one. */
  lemma LeadingAmountLeftmost(text: string)
    ensures var r := LeadingAmount(text);
      && (r.None? ==> forall q :: 0 <= q <= |text| ==> AmountAt(text, q).None?)
      && (r.Some? ==> exists q :: 0 <= q <= |text| && AmountAt(text, q) == Some(r.value)
                        && forall q' :: 0 <= q' < q ==> AmountAt(text, q').None?)
  {
    var m := AmountMatcher(text);
    assert forall q: nat :: q <= |text| ==> m(q) == AmountAt(text, q);
  }

  /** The leading amount is the first run of digits and commas in the text:
      there is none exactly when the text holds neither. */
  lemma LeadingAmountNone(text: string)
    ensures LeadingAmount(text).None? <==> forall k :: 0 <= k < |text| ==> !IsDigitOrComma(text[k])
  {
    LeadingAmountLeftmost(text);
    if LeadingAmount(text).None? {
      forall k | 0 <= k < |text|
        ensures !IsDigitOrComma(text[k])
      {
        assert AmountAt(text, k).None?;
        if text[k] != '$' {
          assert SkipWhile(text, k, IsDigitOrComma) == k;
        }
      }
    }
  }

  /** `str.replace(/,/g, "")`. */
  function RemoveCommas(s: string): (r: string)
    ensures |r| <= |s|
    ensures forall k :: 0 <= k < |r| ==> r[k] != ','
  {
    if s == [] then [] else (if s[0] == ',' then [] else [s[0]]) + RemoveCommas(s[1..])
  }

  /** Removing the commas of a digits-and-commas run leaves only digits, and
      leaves the empty string exactly when the run held no digit. */
  lemma {:induction false} RemoveCommasDigits(s: string)
    requires forall k :: 0 <= k < |s| ==> IsDigitOrComma(s[k])
    ensures AllDigits(RemoveCommas(s))
    ensures RemoveCommas(s) == [] <==> forall k :: 0 <= k < |s| ==> s[k] == ','
    decreases |s|
  {
    if s != [] {
      RemoveCommasDigits(s[1..]);
      assert forall k :: 1 <= k < |s| ==> s[k] == s[1..][k - 1];
    }
  }

  /** A number as `parseInt` produces it: an integer or `NaN`. */
  datatype JsNumber = Num(n: int) | NaN

  /** `parseInt(run.replace(/,/g, ""))` for a captured run of digits and commas,
      exactly as the service computes it: `NaN` when the run is all commas. */
  function ParseRunAsWritten(run: string): (r: JsNumber)
    requires forall k :: 0 <= k < |run| ==> IsDigitOrComma(run[k])
    ensures r.NaN? <==> forall k :: 0 <= k < |run| ==> run[k] == ','
  {
    RemoveCommasDigits(run);
    var digits := RemoveCommas(run);
    if digits == [] then NaN else Num(DigitsValue(digits))
  }

  /** The figure a regex match stands for, with a capture that holds no digit
      treated as no figure at all (so `NaN` never enters an estimate). */
  function FigureValue(capture: Option<string>): (r: Option<int>)
    requires capture.Some? ==> forall k :: 0 <= k < |capture.value| ==> IsDigitOrComma(capture.value[k])
    ensures r.Some? <==> capture.Some? && ParseRunAsWritten(capture.value).Num?
    ensures r.Some? ==> r.value == ParseRunAsWritten(capture.value).n && r.value >= 0
  {
    match capture
    case None => None
    case Some(run) =>
      match ParseRunAsWritten(run)
      case NaN => None
      case Num(n) => Some(n)
  }
}
