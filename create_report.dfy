/** The report-creation dialog (src/components/reports/create-report-dialog.tsx):
    its state, the reset when it opens, the range change, the automatic
    title, and the submit decision with the record it stores. Calendar dates
    are day numbers; `format(date, "yyyy-MM-dd")` and the title's
    `dd.MM.yyyy` formatter are parameters. */
module CreateReport {
  import opened Common
  import opened Database
  import opened ReportTitle

  /** The filters the dialog is opened with. */
  datatype InitialFilters = InitialFilters(
    startDate: Option<Day>,
    endDate: Option<Day>,
    categoryId: Option<string>,
    accountId: Option<string>)

  /** The dialog's state as the title effect and the submit handler see it. */
  datatype DialogState = DialogState(
    reportType: ReportType,
    title: string,
    startDate: Option<Day>,
    endDate: Option<Day>,
    categoryId: string,
    accountId: string,
    filterOption: FilterOption,
    isAllTime: bool)

  /** Why a submit is refused. */
  datatype SubmitError = NeedDateRange | NeedAccount | NeedTitle | NotAuthenticated

  /** The row inserted into `reports`. */
  datatype NewReport = NewReport(userId: string, reportType: ReportType, title: string, parameters: ReportParameters)

  /** The state the open effect resets to. */
  function OpenedState(initial: InitialFilters): (s: DialogState)
    ensures s.reportType == AccountStatementReport <==> Truthy(initial.accountId)
    ensures s.isAllTime <==> initial.startDate.None? && initial.endDate.None?
    ensures s.title == "" && s.filterOption == AllAccounts
    ensures s.startDate == initial.startDate && s.endDate == initial.endDate
    ensures s.categoryId == OrEmpty(initial.categoryId) && s.accountId == OrEmpty(initial.accountId)
  {
    DialogState(
      if Truthy(initial.accountId) then AccountStatementReport else AccountSummaryReport,
      "",
      initial.startDate,
      initial.endDate,
      OrEmpty(initial.categoryId),
      OrEmpty(initial.accountId),
      AllAccounts,
      initial.startDate.None? && initial.endDate.None?)
  }

  /** The range picker's callback: both dates are taken, and the range is
      "all time" exactly when neither is given. */
  function WithRange(s: DialogState, start: Option<Day>, end: Option<Day>): (r: DialogState)
    ensures r.isAllTime <==> start.None? && end.None?
    ensures r == s.(startDate := start, endDate := end, isAllTime := r.isAllTime)
  {
    s.(startDate := start, endDate := end, isAllTime := start.None? && end.None?)
  }

  /** The dates the title is computed from: the sentinels when all-time,
      otherwise the formatted date or "". */
  function EffectiveDate(isAllTime: bool, sentinel: string, d: Option<Day>, fmtIso: Day -> string): (r: string)
    ensures isAllTime ==> r == sentinel
    ensures !isAllTime && d.Some? ==> r == fmtIso(d.value)
    ensures !isAllTime && d.None? ==> r == ""
  {
    if isAllTime then sentinel else if d.Some? then fmtIso(d.value) else ""
  }

  /** The title the title effect sets. */
  function AutoTitle(s: DialogState, accounts: seq<AccountWithCategory>, categories: seq<Category>,
                     fmtIso: Day -> string, fmtDate: string -> string): (r: string)
    ensures |ReportName(s.reportType)| <= |r| && r[..|ReportName(s.reportType)|] == ReportName(s.reportType)
  {
    var start := EffectiveDate(s.isAllTime, AllTimeStart, s.startDate, fmtIso);
    var end := EffectiveDate(s.isAllTime, AllTimeEnd, s.endDate, fmtIso);
    if s.reportType == AccountStatementReport then
      var account := if s.accountId != "" then Find(accounts, (a: AccountWithCategory) => a.account.id == s.accountId) else None;
      GenerateReportTitle(AccountStatementReport, ForStatement(StatementParameters(start, end, s.accountId)), account, None, fmtDate)
    else
      var category := if s.categoryId != "" then Find(categories, (c: Category) => c.id == s.categoryId) else None;
      var categoryId := if s.categoryId != "" then Some(s.categoryId) else None;
      GenerateReportTitle(AccountSummaryReport, ForSummary(SummaryParameters(start, end, categoryId, s.filterOption)), None, category, fmtDate)
  }

  /** The dates are acceptable: all-time, or both ends chosen. */
  predicate DatesChosen(s: DialogState) {
    s.isAllTime || (s.startDate.Some? && s.endDate.Some?)
  }

  /** `handleSubmit` up to the insert: the guards in their order (dates,
      then the account of a statement, then the title, then the signed-in
      user), and the record built for the insert. */
  function SubmitDecision(s: DialogState, user: Option<string>, fmtIso: Day -> string): (r: Result<NewReport, SubmitError>)
    ensures r == Err(NeedDateRange) <==> !DatesChosen(s)
    ensures r == Err(NeedAccount) <==> DatesChosen(s) && s.reportType == AccountStatementReport && s.accountId == ""
    ensures r == Err(NeedTitle) <==>
      DatesChosen(s) && !(s.reportType == AccountStatementReport && s.accountId == "") && IsBlank(s.title)
    ensures r.Ok? <==>
      DatesChosen(s) && !(s.reportType == AccountStatementReport && s.accountId == "") && !IsBlank(s.title) && user.Some?
    ensures r.Ok? ==>
      && r.value.userId == user.value
      && r.value.reportType == s.reportType
      && r.value.title == Trim(s.title)
      && (s.isAllTime ==> r.value.parameters.StartDate() == AllTimeStart && r.value.parameters.EndDate() == AllTimeEnd)
      && (!s.isAllTime ==> r.value.parameters.StartDate() == fmtIso(s.startDate.value) && r.value.parameters.EndDate() == fmtIso(s.endDate.value))
      && (r.value.parameters.ForStatement? <==> s.reportType == AccountStatementReport)
      && (r.value.parameters.ForStatement? ==> r.value.parameters.statement.accountId == s.accountId)
      && (r.value.parameters.ForSummary? ==>
            && r.value.parameters.summary.filterOption == s.filterOption
            && (s.categoryId == "" ==> r.value.parameters.summary.categoryId.None?)
            && (s.categoryId != "" ==> r.value.parameters.summary.categoryId == Some(s.categoryId)))
  {
    if !DatesChosen(s) then Err(NeedDateRange)
    else if s.reportType == AccountStatementReport && s.accountId == "" then Err(NeedAccount)
    else if IsBlank(s.title) then Err(NeedTitle)
    else if user.None? then Err(NotAuthenticated)
    else
      var start := if s.isAllTime then AllTimeStart else fmtIso(s.startDate.value);
      var end := if s.isAllTime then AllTimeEnd else fmtIso(s.endDate.value);
      var parameters :=
        if s.reportType == AccountStatementReport then ForStatement(StatementParameters(start, end, s.accountId))
        else ForSummary(SummaryParameters(start, end, if s.categoryId != "" then Some(s.categoryId) else None, s.filterOption));
      Ok(NewReport(user.value, s.reportType, Trim(s.title), parameters))
  }

  /** After a range change the date guard refuses exactly when one end is
      chosen and the other is not. */
  lemma RangeChangeDateGuard(s: DialogState, start: Option<Day>, end: Option<Day>, user: Option<string>, fmtIso: Day -> string)
    ensures SubmitDecision(WithRange(s, start, end), user, fmtIso) == Err(NeedDateRange) <==> start.None? != end.None?
  {
  }

  /** The automatic title is never blank, so a dialog whose title was left
      as generated is never refused for its title. */
  lemma AutoTitleNeverRefused(s: DialogState, accounts: seq<AccountWithCategory>, categories: seq<Category>,
                              user: Option<string>, fmtIso: Day -> string, fmtDate: string -> string)
    ensures SubmitDecision(s.(title := AutoTitle(s, accounts, categories, fmtIso, fmtDate)), user, fmtIso) != Err(NeedTitle)
  {
    var start := EffectiveDate(s.isAllTime, AllTimeStart, s.startDate, fmtIso);
    var end := EffectiveDate(s.isAllTime, AllTimeEnd, s.endDate, fmtIso);
    if s.reportType == AccountStatementReport {
      var account := if s.accountId != "" then Find(accounts, (a: AccountWithCategory) => a.account.id == s.accountId) else None;
      TitleNeverBlank(AccountStatementReport, ForStatement(StatementParameters(start, end, s.accountId)), account, None, fmtDate);
    } else {
      var category := if s.categoryId != "" then Find(categories, (c: Category) => c.id == s.categoryId) else None;
      var categoryId := if s.categoryId != "" then Some(s.categoryId) else None;
      TitleNeverBlank(AccountSummaryReport, ForSummary(SummaryParameters(start, end, categoryId, s.filterOption)), None, category, fmtDate);
    }
  }

  /** An all-time summary over every category is titled "Hesap Özeti
      [Tüm Zamanlar]". */
  lemma AllTimeSummaryTitle(s: DialogState, accounts: seq<AccountWithCategory>, categories: seq<Category>,
                            fmtIso: Day -> string, fmtDate: string -> string)
    requires s.isAllTime && s.reportType == AccountSummaryReport && s.categoryId == ""
    ensures AutoTitle(s, accounts, categories, fmtIso, fmtDate) == SummaryTitlePrefix + " " + AllTimeLabel
  {
    var p := ForSummary(SummaryParameters(AllTimeStart, AllTimeEnd, None, s.filterOption));
    SummaryTitleShape(p, None, None, fmtDate);
  }

  /** A dialog opened without dates is an all-time one, and is never
      refused for its dates. */
  lemma OpenedWithoutDatesIsAllTime(initial: InitialFilters, user: Option<string>, fmtIso: Day -> string)
    requires initial.startDate.None? && initial.endDate.None?
    ensures SubmitDecision(OpenedState(initial), user, fmtIso) != Err(NeedDateRange)
  {
  }

  /** The dialog component. */
  class CreateReportDialog {
    var reportType: ReportType
    var title: string
    var startDate: Option<Day>
    var endDate: Option<Day>
    var categoryId: string
    var accountId: string
    var filterOption: FilterOption
    var isAllTime: bool
    var isSubmitting: bool

    function State(): DialogState
      reads this
    {
      DialogState(reportType, title, startDate, endDate, categoryId, accountId, filterOption, isAllTime)
    }

    /** The initial `useState` values. */
    constructor (initial: InitialFilters)
      ensures State() == DialogState(AccountSummaryReport, "", initial.startDate, initial.endDate,
                                     OrEmpty(initial.categoryId), OrEmpty(initial.accountId), AllAccounts, false)
      ensures !isSubmitting
    {
      reportType := AccountSummaryReport;
      title := "";
      startDate := initial.startDate;
      endDate := initial.endDate;
      categoryId := OrEmpty(initial.categoryId);
      accountId := OrEmpty(initial.accountId);
      filterOption := AllAccounts;
      isAllTime := false;
      isSubmitting := false;
    }

    /** The effect run when `open` changes: when the dialog opens, every
      field is reset from the initial filters. */
    method OnOpenChange(open: bool, initial: InitialFilters)
      modifies this
      ensures open ==> State() == OpenedState(initial) && !isSubmitting
      ensures !open ==> State() == old(State()) && isSubmitting == old(isSubmitting)
    {
      if open {
        var s := OpenedState(initial);
        reportType := s.reportType;
        title := s.title;
        startDate := s.startDate;
        endDate := s.endDate;
        categoryId := s.categoryId;
        accountId := s.accountId;
        filterOption := s.filterOption;
        isAllTime := s.isAllTime;
        isSubmitting := false;
      }
    }

    method OnRangeChange(start: Option<Day>, end: Option<Day>)
      modifies this
      ensures State() == WithRange(old(State()), start, end)
      ensures isSubmitting == old(isSubmitting)
    {
      startDate := start;
      endDate := end;
      isAllTime := start.None? && end.None?;
    }

    /** The title effect, run after any of its dependencies changed. */
    method RefreshTitle(accounts: seq<AccountWithCategory>, categories: seq<Category>,
                        fmtIso: Day -> string, fmtDate: string -> string)
      modifies this
      ensures State() == old(State()).(title := AutoTitle(old(State()), accounts, categories, fmtIso, fmtDate))
      ensures isSubmitting == old(isSubmitting)
    {
      title := AutoTitle(State(), accounts, categories, fmtIso, fmtDate);
    }

    /** The title input. */
    method SetTitle(t: string)
      modifies this
      ensures State() == old(State()).(title := t)
      ensures isSubmitting == old(isSubmitting)
    {
      title := t;
    }

    /** `handleSubmit` without the network: the decision on the current
      state. A refused guard returns at once; past the guards the dialog is
      busy for the call and idle again at the end. */
    method HandleSubmit(user: Option<string>, fmtIso: Day -> string) returns (r: Result<NewReport, SubmitError>)
      modifies this
      ensures r == SubmitDecision(old(State()), user, fmtIso)
      ensures State() == old(State())
      ensures r.Err? && r.error != NotAuthenticated ==> isSubmitting == old(isSubmitting)
      ensures r.Ok? || r == Err(NotAuthenticated) ==> !isSubmitting
    {
      r := SubmitDecision(State(), user, fmtIso);
      if r.Ok? || r == Err(NotAuthenticated) {
        isSubmitting := true;
        isSubmitting := false;
      }
    }
  }
}
