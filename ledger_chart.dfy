/** The daily chart of the ledger page (src/components/ledger-chart.tsx):
    one point per day of the range with that day's receivable and debt
    sums. Days are whole numbers; the `yyyy-MM-dd` key of a day is
    injective and ordered like the days, so the Map is keyed by the day
    itself and the string sort is the sort by day. */
module LedgerChart {
  import opened Common
  import opened Database
  import opened LedgerList

  datatype ChartPoint = ChartPoint(date: Day, receivable: int, debt: int)

  /** Receivable and debt of the entries dated `d`. */
  function DayReceivable(s: seq<LedgerEntry>, d: Day): int {
    if s == [] then 0
    else DayReceivable(s[..|s| - 1], d) + (if s[|s| - 1].date == d then s[|s| - 1].receivable else 0)
  }

  function DayDebt(s: seq<LedgerEntry>, d: Day): int {
    if s == [] then 0
    else DayDebt(s[..|s| - 1], d) + (if s[|s| - 1].date == d then s[|s| - 1].debt else 0)
  }

  function MinDate(s: seq<LedgerEntry>): (m: Day)
    requires s != []
    ensures (exists i :: 0 <= i < |s| && s[i].date == m) && forall i :: 0 <= i < |s| ==> m <= s[i].date
  {
    if |s| == 1 then s[0].date
    else
      var m := MinDate(s[..|s| - 1]);
      assert forall i :: 0 <= i < |s| - 1 ==> s[..|s| - 1][i] == s[i];
      if s[|s| - 1].date < m then s[|s| - 1].date else m
  }

  function MaxDate(s: seq<LedgerEntry>): (m: Day)
    requires s != []
    ensures (exists i :: 0 <= i < |s| && s[i].date == m) && forall i :: 0 <= i < |s| ==> s[i].date <= m
  {
    if |s| == 1 then s[0].date
    else
      var m := MaxDate(s[..|s| - 1]);
      assert forall i :: 0 <= i < |s| - 1 ==> s[..|s| - 1][i] == s[i];
      if s[|s| - 1].date > m then s[|s| - 1].date else m
  }

  /** The range drawn: the given one when both ends are given, otherwise
      that of the entries' dates, and none without entries. */
  function ChartRange(s: seq<LedgerEntry>, start: Option<Day>, end: Option<Day>): (r: Option<(Day, Day)>)
    ensures start.Some? && end.Some? ==> r == Some((start.value, end.value))
    ensures !(start.Some? && end.Some?) && s != [] ==> r == Some((MinDate(s), MaxDate(s)))
    ensures !(start.Some? && end.Some?) && s == [] ==> r.None?
  {
    if start.Some? && end.Some? then Some((start.value, end.value))
    else if s != [] then Some((MinDate(s), MaxDate(s)))
    else None
  }

  /** `chartData` as specified: one point for each day from the first to
      the last, in order, with that day's sums; no point for a missing or
      reversed range. A reversed range gives no point on the assumption
      of date-fns version 2, whose `eachDayOfInterval` throws on a reversed
      interval, so that the surrounding `catch` returns the empty list. */
  function ChartReference(s: seq<LedgerEntry>, start: Option<Day>, end: Option<Day>): (r: seq<ChartPoint>)
    ensures forall i :: 0 <= i < |r| ==> r[i].receivable == DayReceivable(s, r[i].date) && r[i].debt == DayDebt(s, r[i].date)
  {
    var range := ChartRange(s, start, end);
    if range.None? || range.value.0 > range.value.1 then []
    else
      var lo := range.value.0;
      seq(range.value.1 - lo + 1, j => ChartPoint(lo + j, DayReceivable(s, lo + j), DayDebt(s, lo + j)))
  }

  function PointDate(p: ChartPoint): Day {
    p.date
  }

  /** The Map's state after the first entries: every day of the range
      holds the sums of those entries dated that day. */
  ghost predicate SumsSoFar(s: seq<LedgerEntry>, lo: Day, n: nat, data: map<Day, (int, int)>) {
    && (forall d :: d in data <==> lo <= d < lo + n)
    && forall d :: d in data ==> data[d] == (DayReceivable(s, d), DayDebt(s, d))
  }

  lemma DaySnoc(s: seq<LedgerEntry>, e: LedgerEntry, d: Day)
    ensures DayReceivable(s + [e], d) == DayReceivable(s, d) + (if e.date == d then e.receivable else 0)
    ensures DayDebt(s + [e], d) == DayDebt(s, d) + (if e.date == d then e.debt else 0)
  {
    assert (s + [e])[..|s|] == s;
  }

  /** The Map update for one entry: a day of the range gets its legs
      added, an entry outside the range is skipped. */
  function AddEntry(data: map<Day, (int, int)>, e: LedgerEntry): map<Day, (int, int)> {
    if e.date in data then data[e.date := (data[e.date].0 + e.receivable, data[e.date].1 + e.debt)] else data
  }

  lemma SumsStep(s: seq<LedgerEntry>, e: LedgerEntry, lo: Day, n: nat, data: map<Day, (int, int)>)
    requires SumsSoFar(s, lo, n, data)
    ensures SumsSoFar(s + [e], lo, n, AddEntry(data, e))
  {
    forall d | d in AddEntry(data, e) ensures AddEntry(data, e)[d] == (DayReceivable(s + [e], d), DayDebt(s + [e], d)) {
      DaySnoc(s, e, d);
    }
  }

  /** The Map's entries as points, in key order. */
  function PointsOf(keys: seq<Day>, data: map<Day, (int, int)>): seq<ChartPoint>
    requires forall j :: 0 <= j < |keys| ==> keys[j] in data
  {
    seq(|keys|, j requires 0 <= j < |keys| => ChartPoint(keys[j], data[keys[j]].0, data[keys[j]].1))
  }

  /** Once every entry is in, the points are the specified ones, already
      in date order. */
  lemma PointsAreReference(s: seq<LedgerEntry>, lo: Day, n: nat, keys: seq<Day>, data: map<Day, (int, int)>)
    requires keys == seq(n, j => lo + j) && SumsSoFar(s, lo, n, data)
    ensures forall j :: 0 <= j < |keys| ==> keys[j] in data
    ensures PointsOf(keys, data) == seq(n, j => ChartPoint(lo + j, DayReceivable(s, lo + j), DayDebt(s, lo + j)))
    ensures SortedBy(PointsOf(keys, data), PointDate, IntLe)
  {
  }

  /** The first loop of `chartData`: every day of the range set to zero. */
  method ZeroDays(lo: Day, n: nat) returns (keys: seq<Day>, data: map<Day, (int, int)>)
    ensures keys == seq(n, j => lo + j)
    ensures SumsSoFar([], lo, n, data)
  {
    keys, data := [], map[];
    var i := 0;
    while i < n
      invariant 0 <= i <= n
      invariant keys == seq(i, j => lo + j)
      invariant SumsSoFar([], lo, i, data)
    {
      data := data[lo + i := (0, 0)];
      keys := keys + [lo + i];
      i := i + 1;
    }
  }

  /** The second loop of `chartData`: each entry added to its day. */
  method AddEntries(entries: seq<LedgerEntry>, lo: Day, n: nat, data0: map<Day, (int, int)>) returns (data: map<Day, (int, int)>)
    requires SumsSoFar([], lo, n, data0)
    ensures SumsSoFar(entries, lo, n, data)
  {
    data := data0;
    var k := 0;
    while k < |entries|
      invariant 0 <= k <= |entries|
      invariant SumsSoFar(entries[..k], lo, n, data)
    {
      SumsStep(entries[..k], entries[k], lo, n, data);
      data := AddEntry(data, entries[k]);
      assert entries[..k + 1] == entries[..k] + [entries[k]];
      k := k + 1;
    }
    assert entries[..k] == entries;
  }

  /** `chartData` as the source computes it: the days of the range set to
      zero, each entry dated inside the range added to its day, and the
      points sorted by date. */
  method ChartData(entries: seq<LedgerEntry>, startDate: Option<Day>, endDate: Option<Day>) returns (points: seq<ChartPoint>)
    ensures points == ChartReference(entries, startDate, endDate)
  {
    var rangeStart: Day;
    var rangeEnd: Day;
    if startDate.Some? && endDate.Some? {
      rangeStart, rangeEnd := startDate.value, endDate.value;
    } else if |entries| > 0 {
      rangeStart, rangeEnd := MinDate(entries), MaxDate(entries);
    } else {
      return [];
    }
    if rangeStart > rangeEnd {
      return [];
    }
    assert ChartRange(entries, startDate, endDate) == Some((rangeStart, rangeEnd));
    var n := rangeEnd - rangeStart + 1;
    var keys, zero := ZeroDays(rangeStart, n);
    var data := AddEntries(entries, rangeStart, n, zero);
    points := SortedPoints(entries, rangeStart, n, keys, data);
  }

  /** The last step of `chartData`: the Map's entries as points, sorted by
      date, which they already are. */
  method SortedPoints(entries: seq<LedgerEntry>, lo: Day, n: nat, keys: seq<Day>, data: map<Day, (int, int)>) returns (points: seq<ChartPoint>)
    requires keys == seq(n, j => lo + j) && SumsSoFar(entries, lo, n, data)
    ensures points == seq(n, j => ChartPoint(lo + j, DayReceivable(entries, lo + j), DayDebt(entries, lo + j)))
  {
    PointsAreReference(entries, lo, n, keys, data);
    var unsorted := PointsOf(keys, data);
    SortByOfSorted(unsorted, PointDate, IntLe);
    points := SortBy(unsorted, PointDate, IntLe);
  }

  /** The chart is empty exactly when there is no range to draw: no
      given range and no entries, or a reversed range. */
  lemma EmptyChart(s: seq<LedgerEntry>, start: Option<Day>, end: Option<Day>)
    ensures ChartReference(s, start, end) == [] <==>
      ChartRange(s, start, end).None? || ChartRange(s, start, end).value.0 > ChartRange(s, start, end).value.1
  {
    var range := ChartRange(s, start, end);
    if range.Some? && range.value.0 <= range.value.1 {
      assert |ChartReference(s, start, end)| == range.value.1 - range.value.0 + 1;
    }
  }

  /** One point per day of the range, strictly ascending by date. */
  lemma OnePointPerDay(s: seq<LedgerEntry>, lo: Day, hi: Day)
    requires lo <= hi
    ensures var ps := ChartReference(s, Some(lo), Some(hi));
      && |ps| == hi - lo + 1
      && (forall j :: 0 <= j < |ps| ==> ps[j].date == lo + j)
      && (forall i, j :: 0 <= i < j < |ps| ==> ps[i].date < ps[j].date)
  {
  }

  /** A range taken from the entries covers every entry. */
  lemma EntryRangeCoversEntries(s: seq<LedgerEntry>, start: Option<Day>, end: Option<Day>)
    requires !(start.Some? && end.Some?) && s != []
    ensures var r := ChartRange(s, start, end).value;
      r.0 <= r.1 && forall i :: 0 <= i < |s| ==> r.0 <= s[i].date <= r.1
  {
  }

  /** An entry dated outside the range changes no point. */
  lemma OutsideEntryIgnored(s: seq<LedgerEntry>, e: LedgerEntry, lo: Day, hi: Day)
    requires e.date < lo || e.date > hi
    ensures ChartReference(s + [e], Some(lo), Some(hi)) == ChartReference(s, Some(lo), Some(hi))
  {
    forall d | lo <= d <= hi
      ensures DayReceivable(s + [e], d) == DayReceivable(s, d) && DayDebt(s + [e], d) == DayDebt(s, d)
    {
      DaySnoc(s, e, d);
    }
  }

  /** Receivable summed over the `n` days from `lo`. */
  function RangeReceivable(s: seq<LedgerEntry>, lo: Day, n: nat): int {
    if n == 0 then 0 else RangeReceivable(s, lo, n - 1) + DayReceivable(s, lo + n - 1)
  }

  /** Entries dated within [lo, hi]. */
  function DatedWithin(s: seq<LedgerEntry>, lo: Day, hi: Day): (r: seq<LedgerEntry>)
    ensures forall e :: e in r <==> e in s && lo <= e.date <= hi
  {
    if s == [] then []
    else DatedWithin(s[..|s| - 1], lo, hi) + (if lo <= s[|s| - 1].date <= hi then [s[|s| - 1]] else [])
  }

  lemma {:induction false} RangeReceivableSnoc(s: seq<LedgerEntry>, e: LedgerEntry, lo: Day, n: nat)
    ensures RangeReceivable(s + [e], lo, n) == RangeReceivable(s, lo, n) + (if lo <= e.date < lo + n then e.receivable else 0)
  {
    if n > 0 {
      RangeReceivableSnoc(s, e, lo, n - 1);
      DaySnoc(s, e, lo + n - 1);
    }
  }

  /** The points' receivables add up to the receivables of the entries
      dated within the range: each such entry is counted on exactly one
      day. */
  lemma {:induction false} ChartSumsEntries(s: seq<LedgerEntry>, lo: Day, n: nat)
    ensures RangeReceivable(s, lo, n) == TotalReceivable(DatedWithin(s, lo, lo + n - 1))
  {
    if s == [] {
      RangeReceivableEmpty(lo, n);
    } else {
      var init := s[..|s| - 1];
      ChartSumsEntries(init, lo, n);
      ChartSumsStep(init, s[|s| - 1], lo, n);
      assert init + [s[|s| - 1]] == s;
    }
  }

  lemma DatedWithinSnoc(s: seq<LedgerEntry>, e: LedgerEntry, lo: Day, hi: Day)
    ensures DatedWithin(s + [e], lo, hi) == DatedWithin(s, lo, hi) + (if lo <= e.date <= hi then [e] else [])
  {
    assert (s + [e])[..|s|] == s;
  }

  lemma {:induction false} ChartSumsStep(s: seq<LedgerEntry>, e: LedgerEntry, lo: Day, n: nat)
    requires RangeReceivable(s, lo, n) == TotalReceivable(DatedWithin(s, lo, lo + n - 1))
    ensures RangeReceivable(s + [e], lo, n) == TotalReceivable(DatedWithin(s + [e], lo, lo + n - 1))
  {
    RangeReceivableSnoc(s, e, lo, n);
    DatedWithinSnoc(s, e, lo, lo + n - 1);
    var w := DatedWithin(s, lo, lo + n - 1);
    if lo <= e.date <= lo + n - 1 {
      TotalsSnoc(w, e);
    } else {
      assert DatedWithin(s + [e], lo, lo + n - 1) == w;
    }
  }

  lemma {:induction false} RangeReceivableEmpty(lo: Day, n: nat)
    ensures RangeReceivable([], lo, n) == 0
  {
    if n > 0 {
      RangeReceivableEmpty(lo, n - 1);
    }
  }

  /** The chart's receivable column in total: over the given range, the
      receivables of the entries inside it. */
  lemma ChartReceivableTotal(s: seq<LedgerEntry>, lo: Day, hi: Day)
    requires lo <= hi
    ensures var ps := ChartReference(s, Some(lo), Some(hi));
      forall j :: 0 <= j < |ps| ==> ps[j].receivable == DayReceivable(s, lo + j) && ps[j].debt == DayDebt(s, lo + j)
    ensures RangeReceivable(s, lo, hi - lo + 1) == TotalReceivable(DatedWithin(s, lo, hi))
  {
    assert ChartRange(s, Some(lo), Some(hi)) == Some((lo, hi));
    ChartSumsEntries(s, lo, hi - lo + 1);
    assert lo + (hi - lo + 1) - 1 == hi;
  }
}
