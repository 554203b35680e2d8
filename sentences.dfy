/**
 * The sentence segmenter of python/example_tts_low_latency_ws.py.
 *
 * `split_sentences` collects, from left to right, the non-overlapping matches
 * of `[^T]*[T]+\s*` (T the sentence terminators), strips each match, keeps the
 * non-blank ones, and appends the stripped rest of the text if it is not blank.
 * The model performs that scan explicitly: a match starts where the previous
 * one ended and runs to the first terminator, over the whole run of terminators
 * that begins there, and over the whitespace that follows it.
 */
module Sentences {
  import opened Seqs

  /** The terminators `. ! ?`, the ideographic full stop, the full-width `!` and `?`,
      the Devanagari danda, the Arabic question mark and the Urdu full stop. */
  predicate IsTerminator(c: char)
  {
    c == '.' || c == '!' || c == '?' || c == '\U{3002}' || c == '\U{FF01}' || c == '\U{FF1F}'
    || c == '\U{0964}' || c == '\U{061F}' || c == '\U{06D4}'
  }

  predicate NotTerminator(c: char)
  {
    !IsTerminator(c)
  }

  /** The characters that Python's `str.strip()` and the regular-expression class `\s` treat as
      whitespace: U+0009 to U+000D, U+001C to U+0020, U+0085, U+00A0, U+1680, U+2000 to U+200A,
      U+2028, U+2029, U+202F, U+205F and U+3000. */
  predicate IsSpace(c: char)
  {
    ('\t' <= c <= '\r') || ('\U{1C}' <= c <= ' ') || c == '\U{85}' || c == '\U{A0}' || c == '\U{1680}'
    || ('\U{2000}' <= c <= '\U{200A}') || c == '\U{2028}' || c == '\U{2029}' || c == '\U{202F}'
    || c == '\U{205F}' || c == '\U{3000}'
  }

  predicate NotSpace(c: char)
  {
    !IsSpace(c)
  }

  predicate AllSpace(s: string)
  {
    forall i | 0 <= i < |s| :: IsSpace(s[i])
  }

  predicate NoTerminator(s: string)
  {
    forall i | 0 <= i < |s| :: !IsTerminator(s[i])
  }

  /** `s` neither starts nor ends with whitespace. */
  predicate Trimmed(s: string)
  {
    s != [] ==> !IsSpace(s[0]) && !IsSpace(Last(s))
  }

  /** The end of `s[lo..hi]` once its trailing whitespace is dropped. */
  function ContentEnd(s: string, lo: nat, hi: nat): (j: nat)
    requires lo <= hi <= |s|
    ensures lo <= j <= hi
    ensures lo < j ==> !IsSpace(s[j - 1])
    decreases hi
  {
    if hi == lo || !IsSpace(s[hi - 1]) then hi else ContentEnd(s, lo, hi - 1)
  }

  /** Everything `ContentEnd` drops is whitespace. */
  lemma {:induction false} ContentEndSkips(s: string, lo: nat, hi: nat)
    requires lo <= hi <= |s|
    ensures forall i | ContentEnd(s, lo, hi) <= i < hi :: IsSpace(s[i])
    decreases hi
  {
    if hi > lo && IsSpace(s[hi - 1]) {
      ContentEndSkips(s, lo, hi - 1);
    }
  }

  /** Python's `str.strip()`: `s` without leading and trailing whitespace. */
  function Strip(s: string): (r: string)
    ensures |r| <= |s|
    ensures r == [] <==> AllSpace(s)
    ensures Trimmed(r)
  {
    var lo := FirstFrom(s, 0, NotSpace);
    FirstFromSkips(s, 0, NotSpace);
    ContentEndSkips(s, lo, |s|);
    s[lo..ContentEnd(s, lo, |s|)]
  }

  /** Whether the pattern `[^T]*[T]+\s*` matches at `pos`: some terminator lies at or after it. */
  predicate HasMatch(text: string, pos: nat)
    requires pos <= |text|
  {
    FirstFrom(text, pos, IsTerminator) < |text|
  }

  /** Where `[^T]*[T]+` ends when matched at `pos`: `[^T]*` stops at the first terminator
      and `[T]+` takes the whole run of terminators that begins there. */
  function RunEnd(text: string, pos: nat): (e: nat)
    requires pos <= |text| && HasMatch(text, pos)
    ensures FirstFrom(text, pos, IsTerminator) < e <= |text|
  {
    FirstFrom(text, FirstFrom(text, pos, IsTerminator), NotTerminator)
  }

  /** Where the match at `pos` ends: `\s*` takes the whitespace after the run. */
  function MatchEnd(text: string, pos: nat): (m: nat)
    requires pos <= |text| && HasMatch(text, pos)
    ensures pos < m <= |text|
  {
    FirstFrom(text, RunEnd(text, pos), NotSpace)
  }

  /** The successive matches from `pos` on, each starting where the previous one ended. */
  function Matches(text: string, pos: nat): (parts: seq<string>)
    requires pos <= |text|
    ensures pos + SumLen(parts) <= |text|
    ensures forall k | 0 <= k < |parts| :: parts[k] != []
    decreases |text| - pos
  {
    if !HasMatch(text, pos) then []
    else
      var m := MatchEnd(text, pos);
      var rest := Matches(text, m);
      assert ([text[pos..m]] + rest)[1..] == rest;
      [text[pos..m]] + rest
  }

  /** `re.findall` of the sentence pattern. */
  function FindAll(text: string): seq<string>
  {
    Matches(text, 0)
  }

  /** The text after the last match: `text[matched_len:]`. */
  function Remainder(text: string): string
  {
    assert SumLen(FindAll(text)) <= |text|;
    text[SumLen(FindAll(text))..]
  }

  /** `[s.strip() for s in parts if s.strip()]` */
  function StripNonBlank(parts: seq<string>): seq<string>
  {
    MapNonEmpty(Strip, parts)
  }

  /** `split_sentences(text)` */
  function SplitSentences(text: string): seq<string>
  {
    var parts := FindAll(text);
    var sentences := StripNonBlank(parts);
    var remaining := Strip(Remainder(text));
    if remaining != [] then sentences + [remaining] else sentences
  }

  /** The number of maximal runs of terminators in `text`, counted character by character:
      a run begins at every terminator that does not follow a terminator. */
  function RunCount(text: string): nat
  {
    RunsFrom(text, 0, false)
  }

  /** The runs that begin at or after `pos`, given whether `text[pos - 1]` is a terminator. */
  function RunsFrom(text: string, pos: nat, afterTerminator: bool): nat
    requires pos <= |text|
    decreases |text| - pos
  {
    if pos == |text| then 0
    else
      var starts := IsTerminator(text[pos]) && !afterTerminator;
      (if starts then 1 else 0) + RunsFrom(text, pos + 1, IsTerminator(text[pos]))
  }
}


/** What `split_sentences` promises, proved about the model above. */
module SentenceFacts {
  import opened Seqs
  import opened Sentences

  lemma ContentEndIs(s: string, lo: nat, hi: nat, j: nat)
    requires lo <= j <= hi <= |s|
    requires forall i | j <= i < hi :: IsSpace(s[i])
    requires lo < j ==> !IsSpace(s[j - 1])
    ensures ContentEnd(s, lo, hi) == j
  {
    ContentEndSkips(s, lo, hi);
  }

  /** `Strip(s)` is the stretch `s[lo..hi]` whenever everything outside it is whitespace
      and it neither starts nor ends with whitespace. */
  lemma StripIs(s: string, lo: nat, hi: nat)
    requires lo <= hi <= |s|
    requires forall i | 0 <= i < lo :: IsSpace(s[i])
    requires forall i | hi <= i < |s| :: IsSpace(s[i])
    requires lo < hi ==> !IsSpace(s[lo]) && !IsSpace(s[hi - 1])
    ensures Strip(s) == s[lo..hi]
  {
    if lo < hi {
      FirstFromIs(s, 0, NotSpace, lo);
      ContentEndIs(s, lo, |s|, hi);
    } else {
      assert AllSpace(s) by {
        forall i | 0 <= i < |s| ensures IsSpace(s[i]) {
          if i >= hi {
            assert IsSpace(s[i]);
          }
        }
      }
    }
  }

  /** Stripping never brings in a terminator. */
  lemma StripKeepsNoTerminator(s: string)
    requires NoTerminator(s)
    ensures NoTerminator(Strip(s))
  {
    var lo := FirstFrom(s, 0, NotSpace);
    var j := ContentEnd(s, lo, |s|);
    assert Strip(s) == s[lo..j];
    forall k | 0 <= k < |s[lo..j]| ensures !IsTerminator(s[lo..j][k]) {
      assert s[lo..j][k] == s[lo + k];
    }
  }

  lemma MatchesStep(text: string, pos: nat)
    requires pos <= |text| && HasMatch(text, pos)
    ensures Matches(text, pos) == [text[pos..MatchEnd(text, pos)]] + Matches(text, MatchEnd(text, pos))
  {
  }

  lemma {:induction false} MatchesSumLen(text: string, pos: nat)
    requires pos <= |text| && HasMatch(text, pos)
    ensures SumLen(Matches(text, pos)) == MatchEnd(text, pos) - pos + SumLen(Matches(text, MatchEnd(text, pos)))
  {
    var m := MatchEnd(text, pos);
    MatchesStep(text, pos);
    assert Matches(text, pos)[1..] == Matches(text, m);
  }

  lemma {:induction false} MatchesConcat(text: string, pos: nat)
    requires pos <= |text| && HasMatch(text, pos)
    ensures Concat(Matches(text, pos)) == text[pos..MatchEnd(text, pos)] + Concat(Matches(text, MatchEnd(text, pos)))
  {
    var m := MatchEnd(text, pos);
    MatchesStep(text, pos);
    assert Matches(text, pos)[1..] == Matches(text, m);
  }

  /** The matches from `pos` on cover `text[pos..]` without gap up to the end of the last one. */
  lemma {:induction false} MatchesCover(text: string, pos: nat)
    requires pos <= |text|
    ensures Concat(Matches(text, pos)) == text[pos..pos + SumLen(Matches(text, pos))]
    decreases |text| - pos
  {
    if HasMatch(text, pos) {
      var m := MatchEnd(text, pos);
      MatchesCover(text, m);
      MatchesSumLen(text, pos);
      MatchesConcat(text, pos);
      SliceJoin(text, pos, m, m + SumLen(Matches(text, m)));
    }
  }

  /** No terminator follows the end of the last match. */
  lemma {:induction false} MatchesLeaveNoTerminator(text: string, pos: nat)
    requires pos <= |text|
    ensures forall i | pos + SumLen(Matches(text, pos)) <= i < |text| :: !IsTerminator(text[i])
    decreases |text| - pos
  {
    if HasMatch(text, pos) {
      var m := MatchEnd(text, pos);
      MatchesLeaveNoTerminator(text, m);
      MatchesSumLen(text, pos);
    } else {
      FirstFromSkips(text, pos, IsTerminator);
    }
  }

  /** `re.findall` and the remainder together give back the text: every character belongs
      to exactly one match or to the remainder, in order. */
  lemma FindAllTilesText(text: string)
    ensures Concat(FindAll(text)) + Remainder(text) == text
  {
    MatchesCover(text, 0);
    SliceJoin(text, 0, SumLen(FindAll(text)), |text|);
    assert text[0..|text|] == text;
  }

  /** No terminator is left in the remainder. */
  lemma RemainderHasNoTerminator(text: string)
    ensures NoTerminator(Remainder(text))
  {
    MatchesLeaveNoTerminator(text, 0);
    var n := SumLen(FindAll(text));
    forall k | 0 <= k < |text[n..]| ensures !IsTerminator(text[n..][k]) {
      assert text[n..][k] == text[n + k];
    }
  }

  lemma TerminatorIsNotSpace(c: char)
    ensures IsTerminator(c) ==> !IsSpace(c)
  {
  }

  /** The three stretches of a match, character by character: no terminator before the run,
      only terminators in it, and only whitespace after it; the run cannot be extended. */
  lemma MatchShape(text: string, pos: nat)
    requires pos <= |text| && HasMatch(text, pos)
    ensures forall i | pos <= i < FirstFrom(text, pos, IsTerminator) :: !IsTerminator(text[i])
    ensures forall i | FirstFrom(text, pos, IsTerminator) <= i < RunEnd(text, pos) :: IsTerminator(text[i])
    ensures forall i | RunEnd(text, pos) <= i < MatchEnd(text, pos) :: IsSpace(text[i])
    ensures RunEnd(text, pos) < |text| ==> !IsTerminator(text[RunEnd(text, pos)])
  {
    var a := FirstFrom(text, pos, IsTerminator);
    var e := RunEnd(text, pos);
    FirstFromSkips(text, pos, IsTerminator);
    FirstFromSkips(text, a, NotTerminator);
    FirstFromSkips(text, e, NotSpace);
  }

  /** Whitespace holds no terminator. */
  lemma SpacesAreNotTerminators(text: string, lo: nat, hi: nat)
    requires lo <= hi <= |text|
    requires forall i | lo <= i < hi :: IsSpace(text[i])
    ensures forall i | lo <= i < hi :: !IsTerminator(text[i])
  {
    forall i | lo <= i < hi ensures !IsTerminator(text[i]) {
      TerminatorIsNotSpace(text[i]);
    }
  }

  /** `StripIs` for a window `text[lo..hi]` of a larger text. */
  lemma StripWindow(text: string, lo: nat, first: nat, end: nat, hi: nat)
    requires lo <= first <= end <= hi <= |text|
    requires forall i | lo <= i < first :: IsSpace(text[i])
    requires forall i | end <= i < hi :: IsSpace(text[i])
    requires first < end ==> !IsSpace(text[first]) && !IsSpace(text[end - 1])
    ensures Strip(text[lo..hi]) == text[first..end]
  {
    var w := text[lo..hi];
    forall i | 0 <= i < first - lo ensures IsSpace(w[i]) {
      assert w[i] == text[lo + i];
    }
    forall i | end - lo <= i < |w| ensures IsSpace(w[i]) {
      assert w[i] == text[lo + i];
    }
    if first < end {
      assert w[first - lo] == text[first];
      assert w[end - 1 - lo] == text[end - 1];
    }
    StripIs(w, first - lo, end - lo);
    forall k | 0 <= k < end - first ensures w[first - lo..end - lo][k] == text[first..end][k] {
      assert w[first - lo + k] == text[first + k];
    }
  }

  /** A match, stripped, is the text from its first non-space character up to the end of
      its run of terminators. */
  lemma StripOfMatch(text: string, pos: nat)
    requires pos <= |text| && HasMatch(text, pos)
    ensures FirstFrom(text, pos, NotSpace) < RunEnd(text, pos)
    ensures IsTerminator(text[RunEnd(text, pos) - 1])
    ensures Strip(text[pos..MatchEnd(text, pos)]) == text[FirstFrom(text, pos, NotSpace)..RunEnd(text, pos)]
  {
    var a := FirstFrom(text, pos, IsTerminator);
    var e := RunEnd(text, pos);
    var lead := FirstFrom(text, pos, NotSpace);
    MatchShape(text, pos);
    FirstFromSkips(text, pos, NotSpace);
    TerminatorIsNotSpace(text[a]);
    TerminatorIsNotSpace(text[e - 1]);
    StripWindow(text, pos, lead, e, MatchEnd(text, pos));
  }

  /** A stripped match is not blank and ends with a terminator. */
  lemma StripOfMatchEnds(text: string, pos: nat)
    requires pos <= |text| && HasMatch(text, pos)
    ensures Strip(text[pos..MatchEnd(text, pos)]) != []
    ensures IsTerminator(Last(Strip(text[pos..MatchEnd(text, pos)])))
  {
    StripOfMatch(text, pos);
    LastOfSlice(text, FirstFrom(text, pos, NotSpace), RunEnd(text, pos));
  }

  /** Every match ends with a terminator once stripped, so none is dropped as blank. */
  lemma {:induction false} MatchesEndWithTerminator(text: string, pos: nat)
    requires pos <= |text|
    ensures forall k | 0 <= k < |Matches(text, pos)| ::
      Strip(Matches(text, pos)[k]) != [] && IsTerminator(Last(Strip(Matches(text, pos)[k])))
    decreases |text| - pos
  {
    if HasMatch(text, pos) {
      var m := MatchEnd(text, pos);
      MatchesEndWithTerminator(text, m);
      StripOfMatchEnds(text, pos);
      MatchesStep(text, pos);
    }
  }

  /** Where one match ends and the next begins, not both characters are terminators. */
  lemma MatchesBoundary(text: string, pos: nat)
    requires pos <= |text| && HasMatch(text, pos) && MatchEnd(text, pos) < |text|
    ensures !(IsTerminator(text[MatchEnd(text, pos) - 1]) && IsTerminator(text[MatchEnd(text, pos)]))
  {
    var e := RunEnd(text, pos);
    var m := MatchEnd(text, pos);
    MatchShape(text, pos);
    if e < m {
      assert IsSpace(text[m - 1]);
      TerminatorIsNotSpace(text[m - 1]);
    }
  }

  /** No two neighbouring pieces meet inside a run of terminators. */
  predicate RunsKeptWhole(parts: seq<string>)
  {
    |parts| <= 1
    || (parts[0] != [] && parts[1] != [] && !(IsTerminator(Last(parts[0])) && IsTerminator(parts[1][0]))
        && RunsKeptWhole(parts[1..]))
  }

  /** A match never splits a run of terminators: when one match ends with a terminator,
      the next one does not start with one. */
  lemma {:induction false} MatchesKeepRunsWhole(text: string, pos: nat)
    requires pos <= |text|
    ensures RunsKeptWhole(Matches(text, pos))
    decreases |text| - pos
  {
    if HasMatch(text, pos) {
      var m := MatchEnd(text, pos);
      var parts := Matches(text, pos);
      MatchesStep(text, pos);
      MatchesKeepRunsWhole(text, m);
      assert parts[1..] == Matches(text, m);
      if HasMatch(text, m) {
        MatchesStep(text, m);
        MatchesBoundary(text, pos);
        assert Last(parts[0]) == text[m - 1];
        assert parts[1][0] == text[m];
      }
    }
  }

  lemma {:induction false} RunsAfterNonTerminator(text: string, pos: nat, b: bool)
    requires pos <= |text|
    requires pos < |text| ==> !IsTerminator(text[pos])
    ensures RunsFrom(text, pos, b) == RunsFrom(text, pos, false)
  {
  }

  /** A stretch of non-terminators starts no run. */
  lemma {:induction false} RunsSkipOthers(text: string, lo: nat, hi: nat, b: bool)
    requires lo <= hi <= |text|
    requires forall i | lo <= i < hi :: !IsTerminator(text[i])
    ensures RunsFrom(text, lo, b) == RunsFrom(text, hi, if lo < hi then false else b)
    decreases hi - lo
  {
    if lo < hi {
      RunsSkipOthers(text, lo + 1, hi, false);
    }
  }

  /** A stretch of terminators starts one run, unless it continues one. */
  lemma {:induction false} RunsSkipRun(text: string, lo: nat, hi: nat, b: bool)
    requires lo < hi <= |text|
    requires forall i | lo <= i < hi :: IsTerminator(text[i])
    ensures RunsFrom(text, lo, b) == (if b then 0 else 1) + RunsFrom(text, hi, true)
    decreases hi - lo
  {
    if lo + 1 < hi {
      RunsSkipRun(text, lo + 1, hi, true);
    }
  }

  /** One match per maximal run of terminators. */
  lemma {:induction false} MatchesCountRuns(text: string, pos: nat)
    requires pos <= |text|
    ensures |Matches(text, pos)| == RunsFrom(text, pos, false)
    decreases |text| - pos
  {
    if HasMatch(text, pos) {
      var a := FirstFrom(text, pos, IsTerminator);
      var e := RunEnd(text, pos);
      var m := MatchEnd(text, pos);
      MatchShape(text, pos);
      SpacesAreNotTerminators(text, e, m);
      RunsSkipOthers(text, pos, a, false);
      RunsSkipRun(text, a, e, false);
      RunsSkipOthers(text, e, m, true);
      if e == m {
        RunsAfterNonTerminator(text, m, true);
      }
      MatchesCountRuns(text, m);
      MatchesStep(text, pos);
    } else {
      FirstFromSkips(text, pos, IsTerminator);
      RunsSkipOthers(text, pos, |text|, false);
    }
  }

  /** `re.findall` finds exactly one match per maximal run of terminators. */
  lemma FindAllCountsRuns(text: string)
    ensures |FindAll(text)| == RunCount(text)
  {
    MatchesCountRuns(text, 0);
  }

  /** Every fragment is non-empty and has no leading or trailing whitespace. */
  lemma SplitFragmentsTrimmed(text: string)
    ensures forall f <- SplitSentences(text) :: f != [] && Trimmed(f)
  {
    MapNonEmptyHolds(Strip, FindAll(text), Trimmed);
  }

  /** The fragments are the stripped matches, in order, then the stripped remainder
      when it is not blank: no match is dropped. */
  lemma SplitKeepsEveryMatch(text: string)
    ensures |SplitSentences(text)| == |FindAll(text)| + (if AllSpace(Remainder(text)) then 0 else 1)
    ensures forall k | 0 <= k < |FindAll(text)| :: SplitSentences(text)[k] == Strip(FindAll(text)[k])
    ensures !AllSpace(Remainder(text)) ==> Last(SplitSentences(text)) == Strip(Remainder(text))
  {
    MatchesEndWithTerminator(text, 0);
    MapNonEmptyKeepsAll(Strip, FindAll(text));
    MapEach(Strip, FindAll(text));
  }

  /** One fragment per maximal run of terminators, each ending with a terminator; then one
      more fragment exactly when the remainder is not blank, and that one holds no terminator. */
  lemma SplitFragmentsTerminated(text: string)
    ensures |SplitSentences(text)| == RunCount(text) + (if AllSpace(Remainder(text)) then 0 else 1)
    ensures forall k | 0 <= k < RunCount(text) ::
      SplitSentences(text)[k] != [] && IsTerminator(Last(SplitSentences(text)[k]))
    ensures !AllSpace(Remainder(text)) ==> NoTerminator(Last(SplitSentences(text)))
  {
    SplitKeepsEveryMatch(text);
    FindAllCountsRuns(text);
    MatchesEndWithTerminator(text, 0);
    RemainderHasNoTerminator(text);
    StripKeepsNoTerminator(Remainder(text));
  }

  /** A text without terminators gives its stripped self, or nothing when it is blank. */
  lemma SplitWithoutTerminator(text: string)
    requires NoTerminator(text)
    ensures SplitSentences(text) == if AllSpace(text) then [] else [Strip(text)]
  {
    assert !HasMatch(text, 0);
  }
}
