/** The display helpers of the saved-reports table
    (src/components/reports/reports-list-table.tsx). Upper-casing and the
    `dd.MM.yyyy` date formatter (which may throw) are parameters. */
module ReportsList {
  import opened Common
  import opened Database

  /** What the table knows of a report's author. */
  datatype UserProfile = UserProfile(firstName: Option<string>, lastName: Option<string>, avatarUrl: Option<string>)

  const UnknownUser := "Bilinmeyen"

  /** `getUserDisplayName`: no profile, or no name part, gives "Bilinmeyen";
      otherwise the two names (absent ones as "") joined by a space and
      trimmed. */
  function UserDisplayName(profile: Option<UserProfile>): (r: string)
    ensures profile.None? ==> r == UnknownUser
    ensures profile.Some? && !Truthy(profile.value.firstName) && !Truthy(profile.value.lastName) ==> r == UnknownUser
    ensures profile.Some? && (Truthy(profile.value.firstName) || Truthy(profile.value.lastName)) ==>
      r == Trim(OrEmpty(profile.value.firstName) + " " + OrEmpty(profile.value.lastName))
  {
    if profile.None? then UnknownUser
    else if Truthy(profile.value.firstName) || Truthy(profile.value.lastName) then
      Trim(OrEmpty(profile.value.firstName) + " " + OrEmpty(profile.value.lastName))
    else UnknownUser
  }

  /** `getUserInitials`: the upper-cased first letters of both names when
      both are present, the upper-cased first two characters of a lone
      first name, and "?" otherwise, including when only the last name is. */
  function UserInitials(profile: Option<UserProfile>, upper: string -> string): (r: string)
    ensures profile.None? ==> r == "?"
    ensures profile.Some? && Truthy(profile.value.firstName) && Truthy(profile.value.lastName) ==>
      r == upper([profile.value.firstName.value[0], profile.value.lastName.value[0]])
    ensures profile.Some? && Truthy(profile.value.firstName) && !Truthy(profile.value.lastName) ==>
      r == upper(Slice(profile.value.firstName.value, 0, 2))
    ensures profile.Some? && !Truthy(profile.value.firstName) ==> r == "?"
  {
    if profile.None? then "?"
    else
      var p := profile.value;
      if Truthy(p.firstName) && Truthy(p.lastName) then upper([p.firstName.value[0], p.lastName.value[0]])
      else if Truthy(p.firstName) then upper(Slice(p.firstName.value, 0, 2))
      else "?"
  }

  /** With only a last name, the display name shows it but the initials do
      not: the two helpers disagree on that case. */
  lemma LastNameOnly(last: string, avatar: Option<string>, upper: string -> string)
    requires last != ""
    ensures var p := Some(UserProfile(None, Some(last), avatar));
      UserDisplayName(p) == Trim(" " + last) && UserInitials(p, upper) == "?"
  {
    assert "" + " " + last == " " + last;
  }

  /** The wire name of a report type. */
  function TypeCode(t: ReportType): string {
    match t
    case AccountStatementReport => "account_statement"
    case AccountSummaryReport => "account_summary"
  }

  /** `getReportTypeLabel`: "Hesap Ekstresi" for the statement code, and
      "Hesap Özeti" for any other string. */
  function ReportTypeLabel(code: string): (r: string)
    ensures code == "account_statement" ==> r == "Hesap Ekstresi"
    ensures code != "account_statement" ==> r == "Hesap \U{00D6}zeti"
  {
    if code == "account_statement" then "Hesap Ekstresi" else "Hesap \U{00D6}zeti"
  }

  /** The two stored types get their own labels, and they differ. */
  lemma TypeLabelsDistinct()
    ensures ReportTypeLabel(TypeCode(AccountStatementReport)) == "Hesap Ekstresi"
    ensures ReportTypeLabel(TypeCode(AccountSummaryReport)) == "Hesap \U{00D6}zeti"
    ensures ReportTypeLabel(TypeCode(AccountStatementReport)) != ReportTypeLabel(TypeCode(AccountSummaryReport))
  {
    assert TypeCode(AccountSummaryReport)[9] != "account_statement"[9];
  }

  /** Delete is offered exactly on the current user's own reports. */
  predicate CanDelete(r: Report, currentUserId: string) {
    r.userId == currentUserId
  }

  /** `formatDateRange`: both dates formatted and joined by " - ", or "-"
      when formatting either one fails. */
  function FormatDateRange(p: ReportParameters, fmt: string -> Option<string>): (r: string)
    ensures fmt(p.StartDate()).Some? && fmt(p.EndDate()).Some? ==> r == fmt(p.StartDate()).value + " - " + fmt(p.EndDate()).value
    ensures fmt(p.StartDate()).None? || fmt(p.EndDate()).None? ==> r == "-"
  {
    var s := fmt(p.StartDate());
    var e := fmt(p.EndDate());
    if s.Some? && e.Some? then s.value + " - " + e.value else "-"
  }

  /** The fallback "-" is only the failure case: a successful range is
      longer than one character. */
  lemma DateRangeFallbackOnlyOnFailure(p: ReportParameters, fmt: string -> Option<string>)
    ensures FormatDateRange(p, fmt) == "-" <==> fmt(p.StartDate()).None? || fmt(p.EndDate()).None?
  {
    if fmt(p.StartDate()).Some? && fmt(p.EndDate()).Some? {
      assert |FormatDateRange(p, fmt)| >= 3;
    }
  }
}
