/** The statement autocomplete (src/components/statement-autocomplete.tsx):
    the match search and highlighting, the suggestion filter, when the list
    shows, and the keyboard and input handlers. The search normalizer is a
    parameter; the rendered output is a sequence of plain and marked
    pieces. */
module StatementAutocomplete {
  import opened Common

  // ---------------------------------------------------------------------
  // match search

  datatype Match = Match(start: nat, end: nat)

  /** Every position of `t` from `from` on where `q` occurs, in increasing
      order, each as the span it covers. */
  function Occurrences(t: string, q: string, from: nat): seq<Match>
    decreases |t| - from
  {
    if from >= |t| then []
    else (if OccursAt(t, q, from) then [Match(from, from + |q|)] else []) + Occurrences(t, q, from + 1)
  }

  /** Each span is an occurrence of `q` in `t` starting at `from` or later. */
  predicate OccurrenceSpans(ms: seq<Match>, t: string, q: string, from: nat) {
    forall k :: 0 <= k < |ms| ==>
      from <= ms[k].start < |t| && ms[k].end == ms[k].start + |q| && OccursAt(t, q, ms[k].start)
  }

  predicate StartsAscending(ms: seq<Match>) {
    forall k, l :: 0 <= k < l < |ms| ==> ms[k].start < ms[l].start
  }

  /** The occurrences from `from` are the one at `from`, if any, then those
      after it. */
  lemma OccurrencesUnfold(t: string, q: string, from: nat)
    requires from < |t|
    ensures OccursAt(t, q, from) ==> Occurrences(t, q, from) == [Match(from, from + |q|)] + Occurrences(t, q, from + 1)
    ensures !OccursAt(t, q, from) ==> Occurrences(t, q, from) == Occurrences(t, q, from + 1)
  {
  }

  lemma ConsSpans(m: Match, tail: seq<Match>, t: string, q: string, from: nat)
    requires from < |t| && m == Match(from, from + |q|) && OccursAt(t, q, from)
    requires OccurrenceSpans(tail, t, q, from + 1) && StartsAscending(tail)
    ensures OccurrenceSpans([m] + tail, t, q, from) && StartsAscending([m] + tail)
  {
    var ms := [m] + tail;
    forall k | 0 < k < |ms| ensures ms[k] == tail[k - 1] {
    }
  }

  /** The listed spans are occurrences of `q` from `from` on, at
      increasing positions. */
  lemma {:induction false} OccurrencesSound(t: string, q: string, from: nat)
    ensures OccurrenceSpans(Occurrences(t, q, from), t, q, from)
    ensures StartsAscending(Occurrences(t, q, from))
    decreases |t| - from
  {
    if from < |t| {
      OccurrencesSound(t, q, from + 1);
      OccurrencesUnfold(t, q, from);
      if OccursAt(t, q, from) {
        ConsSpans(Match(from, from + |q|), Occurrences(t, q, from + 1), t, q, from);
      }
    }
  }

  /** Every occurrence of `q` from `from` on is listed, overlapping ones
      included. */
  lemma {:induction false} OccurrencesComplete(t: string, q: string, from: nat, i: nat)
    requires from <= i < |t| && OccursAt(t, q, i)
    ensures Match(i, i + |q|) in Occurrences(t, q, from)
    decreases i - from
  {
    if from < i {
      OccurrencesComplete(t, q, from + 1, i);
    }
  }

  lemma {:induction false} OccurrencesNone(t: string, q: string, from: nat)
    requires forall i: nat :: from <= i ==> !OccursAt(t, q, i)
    ensures Occurrences(t, q, from) == []
    decreases |t| - from
  {
    if from < |t| {
      OccurrencesNone(t, q, from + 1);
    }
  }

  /** The occurrences from `from` are the first one, `m`, then those after it. */
  lemma {:induction false} OccurrencesSkip(t: string, q: string, from: nat, m: nat)
    requires from <= m < |t| && OccursAt(t, q, m)
    requires forall i: nat :: from <= i < m ==> !OccursAt(t, q, i)
    ensures Occurrences(t, q, from) == [Match(m, m + |q|)] + Occurrences(t, q, m + 1)
    decreases m - from
  {
    if from < m {
      OccurrencesSkip(t, q, from + 1, m);
    }
  }

  /** The `while` loop of `highlightMatches` that collects `matchPositions`:
      each search resumes one past the last match found. */
  method MatchPositions(nt: string, nq: string) returns (ms: seq<Match>)
    ensures ms == Occurrences(nt, nq, 0)
  {
    ms := [];
    var searchIndex := 0;
    while searchIndex < |nt|
      invariant 0 <= searchIndex <= |nt|
      invariant ms + Occurrences(nt, nq, searchIndex) == Occurrences(nt, nq, 0)
      decreases |nt| - searchIndex
    {
      var matchIndex := IndexOf(nt, nq, searchIndex);
      if matchIndex == -1 {
        OccurrencesNone(nt, nq, searchIndex);
        assert ms + [] == ms;
        break;
      }
      OccurrencesSkip(nt, nq, searchIndex, matchIndex);
      var m := Match(matchIndex, matchIndex + |nq|);
      assert ms + ([m] + Occurrences(nt, nq, matchIndex + 1)) == (ms + [m]) + Occurrences(nt, nq, matchIndex + 1);
      ms := ms + [m];
      searchIndex := matchIndex + 1;
    }
    if searchIndex >= |nt| {
      assert Occurrences(nt, nq, searchIndex) == [];
      assert ms + [] == ms;
    }
  }

  // ---------------------------------------------------------------------
  // highlighting

  datatype Piece = Plain(text: string) | Marked(text: string)

  /** The text a sequence of pieces displays. */
  function Rendered(ps: seq<Piece>): string {
    if ps == [] then "" else ps[0].text + Rendered(ps[1..])
  }

  lemma {:induction false} RenderedAppend(a: seq<Piece>, b: seq<Piece>)
    ensures Rendered(a + b) == Rendered(a) + Rendered(b)
  {
    if a == [] {
      assert a + b == b;
    } else {
      assert (a + b)[0] == a[0];
      assert (a + b)[1..] == a[1..] + b;
      RenderedAppend(a[1..], b);
    }
  }

  /** One builder step: what comes before a match, the marked text, then
      the rest. */
  lemma RenderStep(head: seq<Piece>, mark: string, rest: seq<Piece>)
    ensures Rendered(head + [Marked(mark)] + rest) == Rendered(head) + mark + Rendered(rest)
  {
    RenderedAppend(head + [Marked(mark)], rest);
    RenderedAppend(head, [Marked(mark)]);
    assert Rendered([Marked(mark)]) == mark + Rendered([]);
  }

  lemma SliceSplit(text: string, a: nat, b: nat, c: nat)
    requires a <= b <= c <= |text|
    ensures text[a..b] + text[b..c] + text[c..] == text[a..]
  {
  }

  function Max(a: nat, b: nat): nat {
    if a < b then b else a
  }

  /** The result builder of `highlightMatches` as written: the text before
      each match, the match itself sliced from its own start, then the rest. */
  function MarkedFrom(text: string, ms: seq<Match>, lastEnd: nat): seq<Piece>
    decreases |ms|
  {
    if ms == [] then (if lastEnd < |text| then [Plain(Slice(text, lastEnd, |text|))] else [])
    else
      (if ms[0].start > lastEnd then [Plain(Slice(text, lastEnd, ms[0].start))] else [])
        + [Marked(Slice(text, ms[0].start, ms[0].end))]
        + MarkedFrom(text, ms[1..], ms[0].end)
  }

  /** One step of the written builder. */
  lemma MarkedUnfold(text: string, ms: seq<Match>, lastEnd: nat)
    requires ms != [] && lastEnd <= ms[0].start <= ms[0].end <= |text|
    ensures MarkedFrom(text, ms, lastEnd)
      == (if ms[0].start > lastEnd then [Plain(text[lastEnd..ms[0].start])] else [])
         + [Marked(text[ms[0].start..ms[0].end])]
         + MarkedFrom(text, ms[1..], ms[0].end)
  {
  }

  /** Spans inside a text of length `n`, none starting before the previous
      one ended. */
  predicate NonOverlapping(ms: seq<Match>, lastEnd: nat, n: nat) {
    && (|ms| > 0 ==> lastEnd <= ms[0].start)
    && (forall k :: 0 <= k < |ms| ==> ms[k].start <= ms[k].end <= n)
    && (forall k :: 0 <= k < |ms| - 1 ==> ms[k].end <= ms[k + 1].start)
  }

  lemma NonOverlappingTail(ms: seq<Match>, lastEnd: nat, n: nat)
    requires ms != [] && NonOverlapping(ms, lastEnd, n)
    ensures NonOverlapping(ms[1..], ms[0].end, n)
  {
    forall k | 0 <= k < |ms[1..]| ensures ms[1..][k] == ms[k + 1] {
    }
  }

  /** With non-overlapping spans the written builder displays the text
      exactly once. */
  lemma {:induction false} NonOverlappingRoundTrip(text: string, ms: seq<Match>, lastEnd: nat)
    requires lastEnd <= |text| && NonOverlapping(ms, lastEnd, |text|)
    ensures Rendered(MarkedFrom(text, ms, lastEnd)) == text[lastEnd..]
    decreases |ms|
  {
    if ms == [] {
      assert Rendered([Plain(text[lastEnd..])]) == text[lastEnd..] + Rendered([]);
    } else {
      var m := ms[0];
      assert m.start <= m.end <= |text|;
      NonOverlappingTail(ms, lastEnd, |text|);
      var rest := MarkedFrom(text, ms[1..], m.end);
      NonOverlappingRoundTrip(text, ms[1..], m.end);
      var head := if m.start > lastEnd then [Plain(text[lastEnd..m.start])] else [];
      MarkedUnfold(text, ms, lastEnd);
      RenderStep(head, text[m.start..m.end], rest);
      assert Rendered(head) == text[lastEnd..m.start] by {
        if m.start > lastEnd {
          assert Rendered(head) == text[lastEnd..m.start] + Rendered([]);
        }
      }
      SliceSplit(text, lastEnd, m.start, m.end);
    }
  }

  /** `highlightMatches` as written. */
  function HighlightAsWritten(text: string, query: string, norm: string -> string): seq<Piece> {
    if IsBlank(query) then [Plain(text)]
    else
      var ms := Occurrences(norm(text), norm(query), 0);
      if ms == [] then [Plain(text)] else MarkedFrom(text, ms, 0)
  }

  /** "00" occurs in "1000" at 1 and again, overlapping, at 2. */
  lemma OccurrencesOfZeros()
    ensures Occurrences("1000", "00", 0) == [Match(1, 3), Match(2, 4)]
  {
    var t := "1000";
    assert t[0..2][0] == '1';
    assert t[1..3] == "00";
    assert t[2..4] == "00";
    assert !OccursAt(t, "00", 0);
    assert !OccursAt(t, "00", 3);
    assert Occurrences(t, "00", 3) == [];
  }

  /** The written builder marks "00" twice for those two spans. */
  lemma MarkedZeros()
    ensures MarkedFrom("1000", [Match(1, 3), Match(2, 4)], 0) == [Plain("1"), Marked("00"), Marked("00")]
  {
    var t := "1000";
    var ms := [Match(1, 3), Match(2, 4)];
    assert ms[1..] == [Match(2, 4)];
    assert [Match(2, 4)][1..] == [];
    assert t[2..4] == "00";
    assert t[1..3] == "00";
    assert t[0..1] == "1";
    assert MarkedFrom(t, [Match(2, 4)], 3) == [Marked("00")];
  }

  /** Overlapping matches show their shared characters twice: searching
      "00" in "1000" finds the matches at 1 and 2 and displays "10000". */
  lemma OverlapDuplicatesText()
    ensures Occurrences("1000", "00", 0) == [Match(1, 3), Match(2, 4)]
    ensures Rendered(HighlightAsWritten("1000", "00", (s: string) => s)) == "10000"
  {
    OccurrencesOfZeros();
    MarkedZeros();
    NotBlankWhenLeadingText("00");
    var ps := [Plain("1"), Marked("00"), Marked("00")];
    assert ps[1..][1..][1..] == [];
    assert Rendered(ps[1..][1..]) == "00";
    assert Rendered(ps) == "10000";
  }

  /** The corrected builder: a match is marked only from where the previous
      one ended, so the spans' union is marked and nothing is repeated. */
  function MergedFrom(text: string, ms: seq<Match>, lastEnd: nat): seq<Piece>
    decreases |ms|
  {
    if ms == [] then (if lastEnd < |text| then [Plain(Slice(text, lastEnd, |text|))] else [])
    else MergedStep(text, ms[0], lastEnd) + MergedFrom(text, ms[1..], ms[0].end)
  }

  /** The pieces one span adds: the plain text before it, if any, and its
      marked part from wherever the previous span ended. */
  function MergedStep(text: string, m: Match, lastEnd: nat): seq<Piece> {
    (if m.start > lastEnd then [Plain(Slice(text, lastEnd, m.start))] else [])
      + [Marked(Slice(text, Max(m.start, lastEnd), m.end))]
  }

  /** One step of the corrected builder. */
  lemma MergedUnfold(text: string, ms: seq<Match>, lastEnd: nat)
    requires ms != []
    ensures MergedFrom(text, ms, lastEnd)
      == (if ms[0].start > lastEnd then [Plain(Slice(text, lastEnd, ms[0].start))] else [])
         + [Marked(Slice(text, Max(ms[0].start, lastEnd), ms[0].end))]
         + MergedFrom(text, ms[1..], ms[0].end)
  {
  }

  /** Spans inside a text of length `n` whose ends never go back. */
  predicate EndsAscending(ms: seq<Match>, lastEnd: nat, n: nat) {
    && (|ms| > 0 ==> lastEnd <= ms[0].end)
    && (forall k :: 0 <= k < |ms| ==> ms[k].start <= ms[k].end <= n)
    && (forall k :: 0 <= k < |ms| - 1 ==> ms[k].end <= ms[k + 1].end)
  }

  lemma EndsAscendingTail(ms: seq<Match>, lastEnd: nat, n: nat)
    requires ms != [] && EndsAscending(ms, lastEnd, n)
    ensures EndsAscending(ms[1..], ms[0].end, n)
  {
    forall k | 0 <= k < |ms[1..]| ensures ms[1..][k] == ms[k + 1] {
    }
  }

  /** The corrected builder displays the text exactly once, overlapping
      spans included. */
  lemma {:induction false} MergedRoundTrip(text: string, ms: seq<Match>, lastEnd: nat)
    requires lastEnd <= |text| && EndsAscending(ms, lastEnd, |text|)
    ensures Rendered(MergedFrom(text, ms, lastEnd)) == text[lastEnd..]
    decreases |ms|
  {
    if ms == [] {
      assert Rendered([Plain(text[lastEnd..])]) == text[lastEnd..] + Rendered([]);
    } else {
      var m := ms[0];
      assert m.start <= m.end <= |text|;
      var from := Max(m.start, lastEnd);
      EndsAscendingTail(ms, lastEnd, |text|);
      var rest := MergedFrom(text, ms[1..], m.end);
      MergedRoundTrip(text, ms[1..], m.end);
      var head := if m.start > lastEnd then [Plain(text[lastEnd..m.start])] else [];
      assert MergedFrom(text, ms, lastEnd) == head + [Marked(text[from..m.end])] + rest;
      RenderStep(head, text[from..m.end], rest);
      assert Rendered(head) == text[lastEnd..from] by {
        if m.start > lastEnd {
          assert Rendered(head) == text[lastEnd..m.start] + Rendered([]);
        }
      }
      SliceSplit(text, lastEnd, from, m.end);
    }
  }

  /** `highlightMatches` with the corrected builder. */
  function Highlighted(text: string, query: string, norm: string -> string): seq<Piece> {
    if IsBlank(query) then [Plain(text)]
    else
      var ms := Occurrences(norm(text), norm(query), 0);
      if ms == [] then [Plain(text)] else MergedFrom(text, ms, 0)
  }

  /** When normalizing keeps the text's length, the highlighted pieces
      display the text unchanged; a blank query or no match gives the text
      itself as one piece. */
  lemma HighlightKeepsText(text: string, query: string, norm: string -> string)
    requires |norm(text)| == |text|
    ensures Rendered(Highlighted(text, query, norm)) == text
    ensures IsBlank(query) || Occurrences(norm(text), norm(query), 0) == [] ==> Highlighted(text, query, norm) == [Plain(text)]
  {
    if !IsBlank(query) {
      var ms := Occurrences(norm(text), norm(query), 0);
      if ms != [] {
        OccurrencesSound(norm(text), norm(query), 0);
        assert EndsAscending(ms, 0, |text|) by {
          forall k | 0 <= k < |ms| - 1 ensures ms[k].end <= ms[k + 1].end {
            assert ms[k].start < ms[k + 1].start;
          }
        }
        MergedRoundTrip(text, ms, 0);
      }
    }
    assert Rendered([Plain(text)]) == text + "";
  }

  /** One iteration of the builder: the plain text before the span, if
      any, then the span's marked part from where the previous one ended. */
  method PushStep(pieces: seq<Piece>, text: string, pos: Match, lastEnd: nat) returns (r: seq<Piece>)
    ensures r == pieces + MergedStep(text, pos, lastEnd)
  {
    r := pieces;
    if pos.start > lastEnd {
      r := r + [Plain(Slice(text, lastEnd, pos.start))];
    }
    r := r + [Marked(Slice(text, Max(pos.start, lastEnd), pos.end))];
  }

  /** The corrected builder's loop over the spans found. */
  method MergedPieces(text: string, ms: seq<Match>) returns (pieces: seq<Piece>)
    ensures pieces == MergedFrom(text, ms, 0)
  {
    pieces := [];
    var lastEnd: nat := 0;
    var i := 0;
    while i < |ms|
      invariant 0 <= i <= |ms|
      invariant pieces + MergedFrom(text, ms[i..], lastEnd) == MergedFrom(text, ms, 0)
    {
      var pos := ms[i];
      var rest := MergedFrom(text, ms[i + 1..], pos.end);
      var step := MergedStep(text, pos, lastEnd);
      assert MergedFrom(text, ms[i..], lastEnd) == step + rest by {
        assert ms[i..][0] == pos && ms[i..][1..] == ms[i + 1..];
      }
      assert pieces + (step + rest) == (pieces + step) + rest;
      pieces := PushStep(pieces, text, pos, lastEnd);
      lastEnd := pos.end;
      i := i + 1;
    }
    assert ms[i..] == [];
    if lastEnd < |text| {
      pieces := pieces + [Plain(Slice(text, lastEnd, |text|))];
    }
  }

  /** `highlightMatches`: the match search, then the result builder loop
      (with the overlap correction). */
  method Highlight(text: string, query: string, norm: string -> string) returns (pieces: seq<Piece>)
    ensures pieces == Highlighted(text, query, norm)
  {
    if IsBlank(query) {
      return [Plain(text)];
    }
    var ms := MatchPositions(norm(text), norm(query));
    if ms == [] {
      return [Plain(text)];
    }
    pieces := MergedPieces(text, ms);
  }

  // ---------------------------------------------------------------------
  // suggestions

  const MaxSuggestions := 10

  /** `Array.prototype.slice(0, 10)`. */
  function TakeMax(s: seq<string>): (r: seq<string>)
    ensures |r| <= MaxSuggestions && |r| <= |s| && r == s[..|r|]
    ensures |s| <= MaxSuggestions ==> r == s
    ensures |s| > MaxSuggestions ==> |r| == MaxSuggestions
  {
    if |s| <= MaxSuggestions then s else s[..MaxSuggestions]
  }

  /** The suggestions whose normalized form contains the normalized value,
      in order. */
  function MatchingSuggestions(s: seq<string>, value: string, norm: string -> string): (r: seq<string>)
    ensures forall x :: x in r <==> x in s && Includes(norm(x), norm(value))
    ensures |r| <= |s|
  {
    if s == [] then []
    else
      MatchingSuggestions(s[..|s| - 1], value, norm)
        + (if Includes(norm(s[|s| - 1]), norm(value)) then [s[|s| - 1]] else [])
  }

  /** `filteredSuggestions`: the first ten suggestions for a blank value,
      otherwise the first ten matching ones. */
  function FilteredSuggestions(value: string, suggestions: seq<string>, norm: string -> string): (r: seq<string>)
    ensures |r| <= MaxSuggestions
  {
    if IsBlank(value) then TakeMax(suggestions)
    else TakeMax(MatchingSuggestions(suggestions, value, norm))
  }

  /** At most ten suggestions, a prefix of the suggestions for a blank
      value and of the matching ones otherwise, each matching a non-blank
      value; all matches are kept when there are at most ten. */
  lemma FilteredSuggestionsSpec(value: string, suggestions: seq<string>, norm: string -> string)
    ensures var r := FilteredSuggestions(value, suggestions, norm);
      && |r| <= MaxSuggestions
      && (IsBlank(value) ==> r == suggestions[..|r|] && |r| == if |suggestions| < MaxSuggestions then |suggestions| else MaxSuggestions)
      && (!IsBlank(value) ==> r == MatchingSuggestions(suggestions, value, norm)[..|r|])
      && (!IsBlank(value) && |MatchingSuggestions(suggestions, value, norm)| <= MaxSuggestions ==> r == MatchingSuggestions(suggestions, value, norm))
      && forall x :: x in r ==> x in suggestions && (IsBlank(value) || Includes(norm(x), norm(value)))
  {
    var r := FilteredSuggestions(value, suggestions, norm);
    var base := if IsBlank(value) then suggestions else MatchingSuggestions(suggestions, value, norm);
    assert r == base[..|r|];
    forall x | x in r ensures x in base {
      var k :| 0 <= k < |r| && r[k] == x;
      assert base[k] == x;
    }
  }

  // ---------------------------------------------------------------------
  // list state

  datatype AutoState = AutoState(value: string, suggestions: seq<string>, open: bool, selectedIndex: nat)

  function Filtered(st: AutoState, norm: string -> string): seq<string> {
    FilteredSuggestions(st.value, st.suggestions, norm)
  }

  /** `shouldShowSuggestions`. */
  predicate ShouldShow(st: AutoState, norm: string -> string) {
    |Filtered(st, norm)| > 0 && !IsBlank(st.value)
  }

  /** The list shows only for a non-blank value that some suggestion
      matches. */
  lemma ShownOnlyWithMatches(st: AutoState, norm: string -> string)
    ensures ShouldShow(st, norm) <==>
      !IsBlank(st.value) && exists x :: x in st.suggestions && Includes(norm(x), norm(st.value))
  {
    FilteredSuggestionsSpec(st.value, st.suggestions, norm);
    var m := MatchingSuggestions(st.suggestions, st.value, norm);
    if ShouldShow(st, norm) {
      var r := Filtered(st, norm);
      assert r[0] in r;
    }
    if !IsBlank(st.value) && exists x :: x in st.suggestions && Includes(norm(x), norm(st.value)) {
      var x :| x in st.suggestions && Includes(norm(x), norm(st.value));
      assert x in m;
    }
  }

  /** `handleInputChange`: the list opens iff the new value is not blank; a
      changed value recomputes the suggestions, which resets the selection. */
  function AfterInput(st: AutoState, newValue: string): (r: AutoState)
    ensures r.value == newValue && r.suggestions == st.suggestions
    ensures r.open <==> !IsBlank(newValue)
    ensures r.selectedIndex == if newValue == st.value then st.selectedIndex else 0
  {
    AutoState(newValue, st.suggestions, !IsBlank(newValue), if newValue == st.value then st.selectedIndex else 0)
  }

  /** `handleSelect`: the value becomes the suggestion, the list closes and
      the selection returns to the top. */
  function AfterSelect(st: AutoState, chosen: string): AutoState {
    AutoState(chosen, st.suggestions, false, 0)
  }

  /** ArrowDown: one down, from the last back to the first. */
  function NextIndex(i: nat, n: nat): (r: nat)
    requires n > 0
    ensures r < n
    ensures i < n - 1 ==> r == i + 1
    ensures i >= n - 1 ==> r == 0
  {
    if i < n - 1 then i + 1 else 0
  }

  /** ArrowUp: one up, from the first to the last. */
  function PrevIndex(i: nat, n: nat): (r: nat)
    requires n > 0
    ensures i < n ==> r < n
    ensures i > 0 ==> r == i - 1
    ensures i == 0 ==> r == n - 1
  {
    if i > 0 then i - 1 else n - 1
  }

  /** Up undoes down and down undoes up on every in-range position. */
  lemma ArrowsInverse(i: nat, n: nat)
    requires i < n
    ensures PrevIndex(NextIndex(i, n), n) == i
    ensures NextIndex(PrevIndex(i, n), n) == i
  {
  }

  datatype Key = ArrowDown | ArrowUp | Enter | Escape | Tab | OtherKey

  /** `handleKeyDown`: the new state and the suggestion chosen, if any. */
  function AfterKey(st: AutoState, key: Key, norm: string -> string): (r: (AutoState, Option<string>))
    ensures !st.open || !ShouldShow(st, norm) ==> r == (st, None)
    ensures r.1.Some? <==>
      && st.open && ShouldShow(st, norm) && key == Enter
      && st.selectedIndex < |Filtered(st, norm)| && Filtered(st, norm)[st.selectedIndex] != ""
    ensures r.1.Some? ==> r.1.value == Filtered(st, norm)[st.selectedIndex] && r.0 == AfterSelect(st, r.1.value)
    ensures st.open && ShouldShow(st, norm) && (key == Escape || key == Tab) ==> r.0 == st.(open := false)
    ensures st.open && ShouldShow(st, norm) && key == ArrowDown ==> r.0 == st.(selectedIndex := NextIndex(st.selectedIndex, |Filtered(st, norm)|))
    ensures st.open && ShouldShow(st, norm) && key == ArrowUp ==> r.0 == st.(selectedIndex := PrevIndex(st.selectedIndex, |Filtered(st, norm)|))
    ensures st.open && ShouldShow(st, norm) && (key == OtherKey || (key == Enter && r.1.None?)) ==> r.0 == st
  {
    if !st.open || !ShouldShow(st, norm) then (st, None)
    else
      var items := Filtered(st, norm);
      match key
      case ArrowDown => (st.(selectedIndex := NextIndex(st.selectedIndex, |items|)), None)
      case ArrowUp => (st.(selectedIndex := PrevIndex(st.selectedIndex, |items|)), None)
      case Enter =>
        if st.selectedIndex < |items| && items[st.selectedIndex] != "" then
          (AfterSelect(st, items[st.selectedIndex]), Some(items[st.selectedIndex]))
        else (st, None)
      case Escape => (st.(open := false), None)
      case Tab => (st.(open := false), None)
      case OtherKey => (st, None)
  }

  /** An in-range selection stays in range under every key, the Enter that
      takes a suggestion included: the chosen text lists itself, so the
      reset selection 0 is in range of the new list. */
  lemma KeysKeepSelectionInRange(st: AutoState, key: Key, norm: string -> string)
    requires st.selectedIndex < |Filtered(st, norm)|
    ensures var r := AfterKey(st, key, norm).0;
      r.selectedIndex < |Filtered(r, norm)|
  {
    var r := AfterKey(st, key, norm);
    if r.1.Some? {
      var c := r.1.value;
      FilteredSuggestionsSpec(st.value, st.suggestions, norm);
      FilteredSuggestionsSpec(c, st.suggestions, norm);
      assert c in st.suggestions;
      if !IsBlank(c) {
        assert OccursAt(norm(c), norm(c), 0);
        IncludesIffOccurs(norm(c), norm(c));
        assert c in MatchingSuggestions(st.suggestions, c, norm);
      }
    }
  }

  /** The component's state. */
  class Autocomplete {
    const norm: string -> string
    var value: string
    var suggestions: seq<string>
    var open: bool
    var selectedIndex: nat

    function State(): AutoState
      reads this
    {
      AutoState(value, suggestions, open, selectedIndex)
    }

    constructor (norm0: string -> string, value0: string, suggestions0: seq<string>)
      ensures norm == norm0 && State() == AutoState(value0, suggestions0, false, 0)
    {
      norm := norm0;
      value := value0;
      suggestions := suggestions0;
      open := false;
      selectedIndex := 0;
    }

    /** A new suggestions prop recomputes the list and resets the selection. */
    method SetSuggestions(s: seq<string>)
      modifies this
      ensures State() == old(State()).(suggestions := s, selectedIndex := 0)
    {
      suggestions := s;
      selectedIndex := 0;
    }

    method HandleInputChange(newValue: string)
      modifies this
      ensures State() == AfterInput(old(State()), newValue)
    {
      if newValue != value {
        selectedIndex := 0;
      }
      value := newValue;
      open := !IsBlank(newValue);
    }

    /** `handleBlur`: focus leaving for anything but the list closes it. */
    method HandleBlur(intoList: bool)
      modifies this
      ensures State() == if intoList then old(State()) else old(State()).(open := false)
    {
      if !intoList {
        open := false;
      }
    }

    method HandleKeyDown(key: Key) returns (chosen: Option<string>)
      modifies this
      ensures State() == AfterKey(old(State()), key, norm).0
      ensures chosen == AfterKey(old(State()), key, norm).1
    {
      chosen := None;
      var items := FilteredSuggestions(value, suggestions, norm);
      if !open || !(|items| > 0 && !IsBlank(value)) {
        return;
      }
      match key
      case ArrowDown =>
        selectedIndex := if selectedIndex < |items| - 1 then selectedIndex + 1 else 0;
      case ArrowUp =>
        selectedIndex := if selectedIndex > 0 then selectedIndex - 1 else |items| - 1;
      case Enter =>
        if selectedIndex < |items| && items[selectedIndex] != "" {
          chosen := Some(items[selectedIndex]);
          value := items[selectedIndex];
          open := false;
          selectedIndex := 0;
        }
      case Escape =>
        open := false;
      case Tab =>
        open := false;
      case OtherKey =>
    }
  }
}
