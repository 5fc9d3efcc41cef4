/** The date range picker (src/components/date-range-filter.tsx). Dates are
    calendar days (`Database.Day`): `startOfDay` and `endOfDay` of a day
    both denote that day, and a range is its first and last day. The
    date-fns `format` calls are parameters. */
module DateRangeFilter {
  import opened Common
  import opened Database

  /** A preset button: its label and its length in days, none for
      "Tüm Zamanlar". */
  datatype Preset = Preset(caption: string, days: Option<int>)

  const AllTimeLabel := "T\U{00FC}m Zamanlar"
  const PlaceholderText := "Tarih aral\U{0131}\U{011F}\U{0131} se\U{00E7}in"

  const PresetRanges: seq<Preset> := [
    Preset("Son 7 g\U{00FC}n", Some(7)),
    Preset("Son 30 g\U{00FC}n", Some(30)),
    Preset("Son 90 g\U{00FC}n", Some(90)),
    Preset(AllTimeLabel, None)
  ]

  /** `selectedPreset`: a day count, "all", or null. */
  datatype SelectedPreset = DaysPreset(days: int) | AllTime | NoPreset

  /** The range a `days`-day preset applies on `today`: from `days - 1` days
      back to today. */
  function PresetRange(today: Day, days: int): (r: (Day, Day))
    requires days >= 1
    ensures r.1 == today
    ensures r.1 - r.0 + 1 == days
  {
    (today - (days - 1), today)
  }

  /** The calendar's own selection: either end may be missing. */
  datatype DraftRange = DraftRange(from: Option<Day>, to: Option<Day>)

  /** A call of `onRangeChange` with the new start and end. */
  datatype RangeChange = RangeChange(start: Option<Day>, end: Option<Day>)

  /** The component's own state; the start and end dates are its props. */
  datatype FilterState = FilterState(open: bool, selectedPreset: SelectedPreset, dateRange: Option<DraftRange>)

  const InitialState := FilterState(false, DaysPreset(90), None)

  /** The mount effect: with neither date set, the last 90 days are
      applied; otherwise nothing is. */
  function MountChange(startDate: Option<Day>, endDate: Option<Day>, today: Day): (r: Option<RangeChange>)
    ensures r.Some? <==> startDate.None? && endDate.None?
    ensures r.Some? ==> r.value == RangeChange(Some(PresetRange(today, 90).0), Some(PresetRange(today, 90).1))
  {
    if startDate.None? && endDate.None? then Some(RangeChange(Some(today - 89), Some(today))) else None
  }

  /** `handleOpenChange`: opening copies the props into the calendar when
      both are set and clears it otherwise; closing keeps it. */
  function AfterOpenChange(st: FilterState, newOpen: bool, startDate: Option<Day>, endDate: Option<Day>): (r: FilterState)
    ensures r.open == newOpen && r.selectedPreset == st.selectedPreset
    ensures !newOpen ==> r.dateRange == st.dateRange
    ensures newOpen && startDate.Some? && endDate.Some? ==> r.dateRange == Some(DraftRange(startDate, endDate))
    ensures newOpen && (startDate.None? || endDate.None?) ==> r.dateRange.None?
  {
    var range := if !newOpen then st.dateRange
      else if startDate.Some? && endDate.Some? then Some(DraftRange(startDate, endDate))
      else None;
    st.(open := newOpen, dateRange := range)
  }

  /** `handlePresetClick`: "all" clears the calendar and both dates; a
      day count selects its range. */
  function AfterPreset(st: FilterState, days: Option<int>, today: Day): (r: (FilterState, RangeChange))
    requires days.Some? ==> days.value >= 1
    ensures days.None? ==> r.0 == st.(selectedPreset := AllTime, dateRange := None) && r.1 == RangeChange(None, None)
    ensures days.Some? ==>
      var range := PresetRange(today, days.value);
      && r.0 == st.(selectedPreset := DaysPreset(days.value), dateRange := Some(DraftRange(Some(range.0), Some(range.1))))
      && r.1 == RangeChange(Some(range.0), Some(range.1))
  {
    if days.None? then (st.(selectedPreset := AllTime, dateRange := None), RangeChange(None, None))
    else
      var start := today - (days.value - 1);
      (st.(selectedPreset := DaysPreset(days.value), dateRange := Some(DraftRange(Some(start), Some(today)))),
       RangeChange(Some(start), Some(today)))
  }

  /** `handleSelect`: the calendar keeps what was picked; only a range with
      both ends is applied, and applying it clears the preset. */
  function AfterSelect(st: FilterState, range: Option<DraftRange>): (r: (FilterState, Option<RangeChange>))
    ensures r.0.dateRange == range && r.0.open == st.open
    ensures r.1.Some? <==> range.Some? && range.value.from.Some? && range.value.to.Some?
    ensures r.1.Some? ==> r.1.value == RangeChange(range.value.from, range.value.to) && r.0.selectedPreset == NoPreset
    ensures r.1.None? ==> r.0.selectedPreset == st.selectedPreset
  {
    if range.Some? && range.value.from.Some? && range.value.to.Some? then
      (st.(dateRange := range, selectedPreset := NoPreset), Some(RangeChange(range.value.from, range.value.to)))
    else (st.(dateRange := range), None)
  }

  /** Each listed preset's range is exactly as many days long as its label
      says, and always ends today. */
  lemma PresetsCoverTheirDays(today: Day, k: nat)
    requires k < |PresetRanges| && PresetRanges[k].days.Some?
    ensures PresetRanges[k].days.value >= 1
    ensures var range := AfterPreset(InitialState, PresetRanges[k].days, today).1;
      range.end == Some(today) && range.start == Some(today - PresetRanges[k].days.value + 1)
  {
  }

  /** The mount effect applies what the 90-day preset, which is selected
      initially, would. */
  lemma MountIsNinetyDays(today: Day)
    ensures MountChange(None, None, today) == Some(AfterPreset(InitialState, Some(90), today).1)
    ensures InitialState.selectedPreset == DaysPreset(90)
  {
  }

  /** The first preset whose length is `days`. */
  function PresetFor(days: int): (r: Option<Preset>)
    ensures r.Some? <==> days == 7 || days == 30 || days == 90
    ensures r.Some? ==> r.value in PresetRanges && r.value.days == Some(days)
  {
    assert |PresetRanges| == 4;
    assert PresetRanges[0].days == Some(7) && PresetRanges[1].days == Some(30);
    assert PresetRanges[2].days == Some(90) && PresetRanges[3].days.None?;
    Find(PresetRanges, (p: Preset) => p.days == Some(days))
  }

  /** `getDisplayText`, with `fmtShort` and `fmtLong` the "d MMM" and
      "d MMM yyyy" formats: "all" first, then the preset with its range,
      then the range, then an open-ended start, then the placeholder. */
  function DisplayText(preset: SelectedPreset, startDate: Option<Day>, endDate: Option<Day>,
                       fmtShort: Day -> string, fmtLong: Day -> string): (r: string)
    ensures preset == AllTime ==> r == AllTimeLabel
    ensures preset != AllTime && preset.DaysPreset? && preset.days != 0 && startDate.Some? && endDate.Some? && PresetFor(preset.days).Some? ==>
      r == PresetFor(preset.days).value.caption + " (" + fmtShort(startDate.value) + " - " + fmtLong(endDate.value) + ")"
    ensures (preset.NoPreset? || (preset.DaysPreset? && PresetFor(preset.days).None?)) && startDate.Some? && endDate.Some? ==>
      r == fmtLong(startDate.value) + " - " + fmtLong(endDate.value)
    ensures preset != AllTime && startDate.Some? && endDate.None? ==> r == fmtLong(startDate.value) + " - ..."
    ensures preset != AllTime && startDate.None? ==> r == PlaceholderText
  {
    if preset == AllTime then AllTimeLabel
    else if preset.DaysPreset? && preset.days != 0 && startDate.Some? && endDate.Some? && PresetFor(preset.days).Some? then
      PresetFor(preset.days).value.caption + " (" + fmtShort(startDate.value) + " - " + fmtLong(endDate.value) + ")"
    else if startDate.Some? && endDate.Some? then fmtLong(startDate.value) + " - " + fmtLong(endDate.value)
    else if startDate.Some? then fmtLong(startDate.value) + " - ..."
    else PlaceholderText
  }

  /** After a preset click, once the parent passes the range back, the
      text names the preset; after "all" it is "Tüm Zamanlar" whatever the
      dates. */
  lemma PresetShownAfterClick(st: FilterState, k: nat, today: Day, fmtShort: Day -> string, fmtLong: Day -> string)
    requires k < |PresetRanges|
    ensures var r := AfterPreset(st, PresetRanges[k].days, today);
      DisplayText(r.0.selectedPreset, r.1.start, r.1.end, fmtShort, fmtLong) ==
        if PresetRanges[k].days.None? then AllTimeLabel
        else PresetRanges[k].caption + " (" + fmtShort(r.1.start.value) + " - " + fmtLong(r.1.end.value) + ")"
  {
  }

  /** The picker as a stateful component driven by its handlers. */
  class DateRangePicker {
    var open: bool
    var selectedPreset: SelectedPreset
    var dateRange: Option<DraftRange>

    function State(): FilterState
      reads this
    {
      FilterState(open, selectedPreset, dateRange)
    }

    constructor ()
      ensures State() == InitialState
    {
      open := false;
      selectedPreset := DaysPreset(90);
      dateRange := None;
    }

    method HandleOpenChange(newOpen: bool, startDate: Option<Day>, endDate: Option<Day>)
      modifies this
      ensures State() == AfterOpenChange(old(State()), newOpen, startDate, endDate)
    {
      if newOpen {
        dateRange := if startDate.Some? && endDate.Some? then Some(DraftRange(startDate, endDate)) else None;
      }
      open := newOpen;
    }

    method HandlePresetClick(days: Option<int>, today: Day) returns (change: RangeChange)
      requires days.Some? ==> days.value >= 1
      modifies this
      ensures (State(), change) == AfterPreset(old(State()), days, today)
    {
      if days.None? {
        selectedPreset := AllTime;
        dateRange := None;
        change := RangeChange(None, None);
      } else {
        var end := today;
        var start := today - (days.value - 1);
        selectedPreset := DaysPreset(days.value);
        dateRange := Some(DraftRange(Some(start), Some(end)));
        change := RangeChange(Some(start), Some(end));
      }
    }

    method HandleSelect(range: Option<DraftRange>) returns (change: Option<RangeChange>)
      modifies this
      ensures (State(), change) == AfterSelect(old(State()), range)
    {
      dateRange := range;
      change := None;
      if range.Some? && range.value.from.Some? && range.value.to.Some? {
        selectedPreset := NoPreset;
        change := Some(RangeChange(range.value.from, range.value.to));
      }
    }
  }
}
