/** The default title of a report (src/lib/reports/generate-title.ts).
    Formatting a date as `dd.MM.yyyy` is a parameter of the model. */
module ReportTitle {
  import opened Common
  import opened Database

  /** The sentinel range that stands for "all time". */
  const AllTimeStart := "2000-01-01"
  const AllTimeEnd := "2099-12-31"

  const AllTimeLabel := "[T\U{00FC}m Zamanlar]"
  const StatementTitlePrefix := "Hesap Ekstresi"
  const SummaryTitlePrefix := "Hesap \U{00D6}zeti"

  predicate IsAllTime(start: string, end: string) {
    start == AllTimeStart && end == AllTimeEnd
  }

  /** The bracketed date part of a title: nothing when either date is
      missing; the all-time label for the sentinel range, checked before the
      single-day case; one date when both are equal; otherwise both. */
  function DateRangeLabel(start: string, end: string, fmtDate: string -> string): (r: string)
    ensures start == "" || end == "" ==> r == ""
    ensures start != "" && end != "" && IsAllTime(start, end) ==> r == AllTimeLabel
    ensures start != "" && !IsAllTime(start, end) && start == end ==> r == "[" + fmtDate(start) + "]"
    ensures start != "" && end != "" && !IsAllTime(start, end) && start != end ==> r == "[" + fmtDate(start) + " - " + fmtDate(end) + "]"
  {
    var hasDateRange := start != "" && end != "";
    var isSingleDay := hasDateRange && start == end;
    if !hasDateRange then ""
    else if IsAllTime(start, end) then AllTimeLabel
    else if isSingleDay then "[" + fmtDate(start) + "]"
    else "[" + fmtDate(start) + " - " + fmtDate(end) + "]"
  }

  lemma NoDashInAllTimeLabel(x: string, y: string)
    ensures "[" + x + " - " + y + "]" != AllTimeLabel
  {
    var s := "[" + x + " - " + y + "]";
    if |s| == |AllTimeLabel| {
      assert s[|x| + 2] == '-';
    }
  }

  /** The all-time label appears exactly for the sentinel range, provided
      the date formatter never spells the label's own words. */
  lemma AllTimeLabelIff(start: string, end: string, fmtDate: string -> string)
    requires fmtDate(start) != "T\U{00FC}m Zamanlar"
    ensures DateRangeLabel(start, end, fmtDate) == AllTimeLabel <==> IsAllTime(start, end)
  {
    if !IsAllTime(start, end) && start != "" && end != "" {
      if start != end {
        NoDashInAllTimeLabel(fmtDate(start), fmtDate(end));
      } else {
        var x := fmtDate(start);
        assert ("[" + x + "]")[1..|x| + 1] == x;
      }
    }
  }

  /** `account?.name || ""` as passed in. */
  function AccountNameOf(account: Option<AccountWithCategory>): string {
    if account.Some? then account.value.account.name else ""
  }

  /** The category id a parameter record carries, if it is a summary's. */
  function CategoryIdOf(p: ReportParameters): Option<string> {
    if p.ForSummary? then p.summary.categoryId else None
  }

  /** The name a title starts with. */
  function ReportName(t: ReportType): string {
    if t == AccountStatementReport then StatementTitlePrefix else SummaryTitlePrefix
  }

  /** The title parts in order: the report's name, an optional "- name"
      part, and the optional date part. */
  function TitleParts(t: ReportType, p: ReportParameters, account: Option<AccountWithCategory>,
                      category: Option<Category>, fmtDate: string -> string): (r: seq<string>)
    ensures 1 <= |r| <= 3 && r[0] == ReportName(t)
  {
    var dateRange := DateRangeLabel(p.StartDate(), p.EndDate(), fmtDate);
    var datePart := if dateRange != "" then [dateRange] else [];
    if t == AccountStatementReport then
      var accountName := AccountNameOf(account);
      [StatementTitlePrefix] + (if accountName != "" then ["- " + accountName] else []) + datePart
    else
      [SummaryTitlePrefix] + (if Truthy(CategoryIdOf(p)) && category.Some? then ["- " + category.value.name] else []) + datePart
  }

  /** `generateReportTitle`: the parts joined with single spaces. */
  function GenerateReportTitle(t: ReportType, p: ReportParameters, account: Option<AccountWithCategory>,
                               category: Option<Category>, fmtDate: string -> string): (r: string)
    ensures |ReportName(t)| <= |r| && r[..|ReportName(t)|] == ReportName(t)
  {
    var parts := TitleParts(t, p, account, category, fmtDate);
    if |parts| > 1 then
      assert Join(parts, " ") == parts[0] + " " + Join(parts[1..], " ");
      Join(parts, " ")
    else Join(parts, " ")
  }

  /** A statement title is "Hesap Ekstresi", then " - name" exactly when the
      account name is non-empty, then " " and the date part exactly when
      there is one. */
  lemma StatementTitleShape(p: ReportParameters, account: Option<AccountWithCategory>,
                            category: Option<Category>, fmtDate: string -> string)
    ensures var name := AccountNameOf(account);
      var dr := DateRangeLabel(p.StartDate(), p.EndDate(), fmtDate);
      var r := GenerateReportTitle(AccountStatementReport, p, account, category, fmtDate);
      && (name == "" && dr == "" ==> r == StatementTitlePrefix)
      && (name != "" && dr == "" ==> r == StatementTitlePrefix + " - " + name)
      && (name == "" && dr != "" ==> r == StatementTitlePrefix + " " + dr)
      && (name != "" && dr != "" ==> r == StatementTitlePrefix + " - " + name + " " + dr)
  {
    var name := AccountNameOf(account);
    var dr := DateRangeLabel(p.StartDate(), p.EndDate(), fmtDate);
    var parts := TitleParts(AccountStatementReport, p, account, category, fmtDate);
    if name != "" && dr != "" {
      assert parts == [StatementTitlePrefix, "- " + name, dr];
      JoinTriple(StatementTitlePrefix, "- " + name, dr, " ");
    } else if name != "" {
      assert parts == [StatementTitlePrefix, "- " + name];
      JoinPair(StatementTitlePrefix, "- " + name, " ");
    } else if dr != "" {
      assert parts == [StatementTitlePrefix, dr];
      JoinPair(StatementTitlePrefix, dr, " ");
    } else {
      assert parts == [StatementTitlePrefix];
    }
  }

  /** A summary title is "Hesap Özeti", then " - " and the category's name
      exactly when a category id is set and a category was supplied (even
      when that name is empty), then the date part when there is one. */
  lemma SummaryTitleShape(p: ReportParameters, account: Option<AccountWithCategory>,
                          category: Option<Category>, fmtDate: string -> string)
    ensures var named := Truthy(CategoryIdOf(p)) && category.Some?;
      var dr := DateRangeLabel(p.StartDate(), p.EndDate(), fmtDate);
      var r := GenerateReportTitle(AccountSummaryReport, p, account, category, fmtDate);
      && (!named && dr == "" ==> r == SummaryTitlePrefix)
      && (named && dr == "" ==> r == SummaryTitlePrefix + " - " + category.value.name)
      && (!named && dr != "" ==> r == SummaryTitlePrefix + " " + dr)
      && (named && dr != "" ==> r == SummaryTitlePrefix + " - " + category.value.name + " " + dr)
  {
    var named := Truthy(CategoryIdOf(p)) && category.Some?;
    var dr := DateRangeLabel(p.StartDate(), p.EndDate(), fmtDate);
    var parts := TitleParts(AccountSummaryReport, p, account, category, fmtDate);
    if named && dr != "" {
      var n := "- " + category.value.name;
      assert parts == [SummaryTitlePrefix, n, dr];
      JoinTriple(SummaryTitlePrefix, n, dr, " ");
    } else if named {
      var n := "- " + category.value.name;
      assert parts == [SummaryTitlePrefix, n];
      JoinPair(SummaryTitlePrefix, n, " ");
    } else if dr != "" {
      assert parts == [SummaryTitlePrefix, dr];
      JoinPair(SummaryTitlePrefix, dr, " ");
    } else {
      assert parts == [SummaryTitlePrefix];
    }
  }

  /** A summary of a statement's parameters never names a category: those
      parameters carry no category id. */
  lemma StatementParametersNameNoCategory(s: StatementParameters, category: Option<Category>, fmtDate: string -> string)
    ensures var dr := DateRangeLabel(s.startDate, s.endDate, fmtDate);
      GenerateReportTitle(AccountSummaryReport, ForStatement(s), None, category, fmtDate) ==
        (if dr == "" then SummaryTitlePrefix else SummaryTitlePrefix + " " + dr)
  {
    SummaryTitleShape(ForStatement(s), None, category, fmtDate);
  }

  /** Every generated title starts with the report's name, so it is never
      blank. */
  lemma TitleNeverBlank(t: ReportType, p: ReportParameters, account: Option<AccountWithCategory>,
                        category: Option<Category>, fmtDate: string -> string)
    ensures var r := GenerateReportTitle(t, p, account, category, fmtDate);
      r != [] && r[0] == 'H' && !IsBlank(r)
  {
    var parts := TitleParts(t, p, account, category, fmtDate);
    var r := GenerateReportTitle(t, p, account, category, fmtDate);
    if |parts| > 1 {
      assert r == parts[0] + " " + Join(parts[1..], " ");
    }
    assert r[0] == parts[0][0];
    NotBlankWhenLeadingText(r);
  }
}
