/** The short relative time label (src/lib/date-utils.ts), taking the
    whole minutes elapsed (`differenceInMinutes(new Date(), date)`) as its
    input, with JavaScript's decimal rendering of the counts. */
module DateUtils {

  const JustNow := "Az \U{00F6}nce"
  const MinutesSuffix := " dk \U{00F6}nce"
  const HoursSuffix := " sa \U{00F6}nce"
  const DaysSuffix := " g\U{00FC}n \U{00F6}nce"

  const MinutesPerHour := 60
  const MinutesPerDay := 1440

  predicate IsDigit(c: char) {
    '0' <= c <= '9'
  }

  function DigitChar(d: nat): (c: char)
    requires d < 10
    ensures IsDigit(c)
  {
    ['0', '1', '2', '3', '4', '5', '6', '7', '8', '9'][d]
  }

  function DigitValue(c: char): nat
    requires IsDigit(c)
  {
    (c as int - '0' as int) as nat
  }

  /** `${n}` for a non-negative integer: its decimal digits, with no
      leading zero. */
  function Decimal(n: nat): (s: string)
    ensures |s| >= 1 && (forall i :: 0 <= i < |s| ==> IsDigit(s[i]))
    ensures |s| > 1 ==> s[0] != '0'
  {
    if n < 10 then [DigitChar(n)] else Decimal(n / 10) + [DigitChar(n % 10)]
  }

  /** The number a string of digits reads as. */
  function DecimalValue(s: string): nat
    requires forall i :: 0 <= i < |s| ==> IsDigit(s[i])
  {
    if s == [] then 0 else DecimalValue(s[..|s| - 1]) * 10 + DigitValue(s[|s| - 1])
  }

  /** The digits read back as the number they render. */
  lemma {:induction false} DecimalRoundTrip(n: nat)
    ensures DecimalValue(Decimal(n)) == n
  {
    var s := Decimal(n);
    if n >= 10 {
      DecimalRoundTrip(n / 10);
      assert s[..|s| - 1] == Decimal(n / 10);
    }
  }

  /** `formatShortRelativeTime` for `m` minutes ago. */
  function ShortRelativeTime(m: int): (r: string)
    ensures m < 1 ==> r == JustNow
    ensures 1 <= m < MinutesPerHour ==> r == Decimal(m) + MinutesSuffix
    ensures MinutesPerHour <= m < MinutesPerDay ==>
      1 <= m / MinutesPerHour <= 23 && r == Decimal(m / MinutesPerHour) + HoursSuffix
    ensures MinutesPerDay <= m ==>
      1 <= m / MinutesPerDay && r == Decimal(m / MinutesPerDay) + DaysSuffix
  {
    if m < 1 then JustNow
    else if m < MinutesPerHour then Decimal(m) + MinutesSuffix
    else if m < MinutesPerDay then Decimal(m / MinutesPerHour) + HoursSuffix
    else Decimal(m / MinutesPerDay) + DaysSuffix
  }

  /** A label reads back as the count it was built from: the minutes
      themselves below an hour, the whole hours below a day, the whole days
      after that. */
  lemma RelativeTimeReadsBack(m: int)
    requires m >= 1
    ensures var r := ShortRelativeTime(m);
      var suffix := if m < MinutesPerHour then MinutesSuffix else if m < MinutesPerDay then HoursSuffix else DaysSuffix;
      var count := if m < MinutesPerHour then m else if m < MinutesPerDay then m / MinutesPerHour else m / MinutesPerDay;
      && |suffix| < |r|
      && r[|r| - |suffix|..] == suffix
      && (forall i :: 0 <= i < |r| - |suffix| ==> IsDigit(r[i]))
      && DecimalValue(r[..|r| - |suffix|]) == count
  {
    var count := if m < MinutesPerHour then m else if m < MinutesPerDay then m / MinutesPerHour else m / MinutesPerDay;
    var suffix := if m < MinutesPerHour then MinutesSuffix else if m < MinutesPerDay then HoursSuffix else DaysSuffix;
    var r := ShortRelativeTime(m);
    assert r == Decimal(count) + suffix;
    assert r[..|r| - |suffix|] == Decimal(count);
    DecimalRoundTrip(count);
  }
}
