/** The records of the hosted database as the client sees them (the table
    rows and the joined "with relations" shapes). Calendar dates of ledger
    entries are day numbers: `yyyy-MM-dd` strings of four-digit years map
    one-to-one and in order onto them. Amounts are integers in minor units. */
module Database {
  import opened Common

  type Day = int

  datatype EntryType = DebtOnly | ReceivableOnly | Both

  datatype Category = Category(
    id: string,
    name: string,
    entryType: EntryType,
    advancePeriodDays: Option<int>,
    createdAt: string,
    updatedAt: string)

  datatype Account = Account(
    id: string,
    categoryId: string,
    name: string,
    description: Option<string>,
    createdAt: string,
    updatedAt: string)

  /** An account row joined with its category. */
  datatype AccountWithCategory = AccountWithCategory(account: Account, categories: Category)

  /** A ledger_entries row joined with its category and account. */
  datatype LedgerEntry = LedgerEntry(
    id: string,
    date: Day,
    categoryId: string,
    accountId: string,
    statement: Option<string>,
    receivable: int,
    debt: int,
    categories: Category,
    accounts: Account)

  datatype EntryKind = ReceivableEntry | DebtEntry

  /** One row of a multi-row draft as stored in the drafts' JSON column. */
  datatype LedgerDraftEntry = LedgerDraftEntry(
    id: string,
    accountId: string,
    categoryId: string,
    statement: string,
    kind: EntryKind,
    amount: string)

  datatype ReportType = AccountStatementReport | AccountSummaryReport

  datatype FilterOption = AllAccounts | OnlyDebtBalance | OnlyReceivableBalance | OnlyActive

  datatype StatementParameters = StatementParameters(startDate: string, endDate: string, accountId: string)

  datatype SummaryParameters = SummaryParameters(
    startDate: string,
    endDate: string,
    categoryId: Option<string>,
    filterOption: FilterOption)

  datatype ReportParameters =
    | ForStatement(statement: StatementParameters)
    | ForSummary(summary: SummaryParameters)
  {
    function StartDate(): string {
      match this
      case ForStatement(p) => p.startDate
      case ForSummary(p) => p.startDate
    }

    function EndDate(): string {
      match this
      case ForStatement(p) => p.endDate
      case ForSummary(p) => p.endDate
    }
  }

  /** A saved report row. */
  datatype Report = Report(
    id: string,
    userId: string,
    reportType: ReportType,
    title: string,
    parameters: ReportParameters,
    createdAt: string)

  /** The Postgres error code of a unique-key violation. */
  const UniqueViolation := "23505"

  /** How a create dialog ends. */
  datatype SaveOutcome = Saved | IncompleteForm | DuplicateCode | SaveFailed

  /** The outcome of an insert from the error code it returned, if any: a
      unique violation is reported as a duplicate code, any other error as
      a failure. */
  function InsertOutcome(error: Option<string>): (o: SaveOutcome)
    ensures o == Saved <==> error.None?
    ensures o == DuplicateCode <==> error == Some(UniqueViolation)
    ensures o != IncompleteForm
  {
    if error.None? then Saved
    else if error.value == UniqueViolation then DuplicateCode
    else SaveFailed
  }
}
