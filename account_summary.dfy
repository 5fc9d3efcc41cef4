/** The account summary report (src/lib/reports/account-summary.ts).
    Grouping and aggregation run in the database behind the
    `get_account_summary` procedure; the client rebuilds the category and
    account records from the slim shapes the procedure returns. */
module AccountSummary {
  import opened Common
  import opened Database

  /** One account's line in the summary. By the type's documentation
      `net` is `totalDebt - totalReceivable`: positive is a debt balance,
      negative a receivable balance. */
  datatype SummaryRow = SummaryRow(
    account: AccountWithCategory,
    totalDebt: int,
    totalReceivable: int,
    net: int,
    entryCount: int)

  datatype SummaryGroup = SummaryGroup(
    category: Category,
    accounts: seq<SummaryRow>,
    totalDebt: int,
    totalReceivable: int,
    net: int)

  datatype SummaryData = SummaryData(
    groups: seq<SummaryGroup>,
    totalDebt: int,
    totalReceivable: int,
    totalNet: int)

  /** The slim shapes of the procedure's result. */
  datatype RpcCategory = RpcCategory(id: string, name: string)

  datatype RpcAccountRef = RpcAccountRef(id: string, name: string, categoryId: string, categories: RpcCategory)

  datatype RpcAccount = RpcAccount(account: RpcAccountRef, totalDebt: int, totalReceivable: int, net: int, entryCount: int)

  datatype RpcGroup = RpcGroup(category: RpcCategory, accounts: Option<seq<RpcAccount>>, totalDebt: int, totalReceivable: int, net: int)

  datatype RpcPayload = RpcPayload(groups: Option<seq<RpcGroup>>, totalDebt: int, totalReceivable: int, totalNet: int)

  datatype RpcResponse = RpcSuccess(data: RpcPayload) | RpcFailure(message: string)

  /** The named arguments of the `get_account_summary` call. */
  datatype RpcArgs = RpcArgs(pStartDate: string, pEndDate: string, pCategoryId: Option<string>, pFilterOption: FilterOption)

  /** `categoryId ?? null`: an absent category is sent as null, a present one as is. */
  function SummaryRpcArgs(p: SummaryParameters): (a: RpcArgs)
    ensures a.pStartDate == p.startDate && a.pEndDate == p.endDate && a.pFilterOption == p.filterOption
    ensures a.pCategoryId.None? <==> p.categoryId.None?
    ensures p.categoryId.Some? ==> a.pCategoryId == p.categoryId
  {
    RpcArgs(p.startDate, p.endDate, p.categoryId, p.filterOption)
  }

  const SummaryErrorPrefix := "Failed to fetch account summary: "

  /** The category record rebuilt from a group's id and name. */
  function RebuildCategory(c: RpcCategory): (r: Category)
    ensures r.id == c.id && r.name == c.name
    ensures r.entryType == Both && r.advancePeriodDays == None
    ensures r.createdAt == "" && r.updatedAt == ""
  {
    Category(c.id, c.name, Both, None, "", "")
  }

  function MapAccount(a: RpcAccount, category: Category): SummaryRow {
    SummaryRow(
      AccountWithCategory(Account(a.account.id, a.account.categoryId, a.account.name, None, "", ""), category),
      a.totalDebt, a.totalReceivable, a.net, a.entryCount)
  }

  function AccountsOf(g: RpcGroup): seq<RpcAccount> {
    if g.accounts.Some? then g.accounts.value else []
  }

  function GroupsOf(raw: RpcPayload): seq<RpcGroup> {
    if raw.groups.Some? then raw.groups.value else []
  }

  function MapGroup(g: RpcGroup): SummaryGroup {
    var category := RebuildCategory(g.category);
    var rows := AccountsOf(g);
    SummaryGroup(
      category,
      seq(|rows|, i requires 0 <= i < |rows| => MapAccount(rows[i], category)),
      g.totalDebt, g.totalReceivable, g.net)
  }

  /** `fetchAccountSummary` after the call returned. */
  function FetchAccountSummary(resp: RpcResponse): (r: Result<SummaryData, string>)
    ensures resp.RpcFailure? <==> r.Err?
    ensures resp.RpcFailure? ==> r.error == SummaryErrorPrefix + resp.message
  {
    match resp
    case RpcFailure(msg) => Err(SummaryErrorPrefix + msg)
    case RpcSuccess(raw) =>
      var gs := GroupsOf(raw);
      Ok(SummaryData(
        seq(|gs|, i requires 0 <= i < |gs| => MapGroup(gs[i])),
        raw.totalDebt, raw.totalReceivable, raw.totalNet))
  }

  /** Group order and account order are the procedure's; each rebuilt
      category has entry type "both" and no advance period; every row's
      joined category is its own group's category; the account's id, name
      and category id are copied and its description is null; all figures,
      per row, per group and overall, are the procedure's own, not sums
      recomputed by the client. */
  lemma FetchShapesGroups(raw: RpcPayload)
    ensures var r := FetchAccountSummary(RpcSuccess(raw));
      var gs := GroupsOf(raw);
      && r.Ok?
      && |r.value.groups| == |gs|
      && r.value.totalDebt == raw.totalDebt
      && r.value.totalReceivable == raw.totalReceivable
      && r.value.totalNet == raw.totalNet
      && forall i :: 0 <= i < |gs| ==>
        var g := r.value.groups[i];
        var src := gs[i];
        && g.category.id == src.category.id && g.category.name == src.category.name
        && g.category.entryType == Both && g.category.advancePeriodDays == None
        && g.totalDebt == src.totalDebt && g.totalReceivable == src.totalReceivable && g.net == src.net
        && |g.accounts| == |AccountsOf(src)|
        && forall j :: 0 <= j < |g.accounts| ==>
          var row := g.accounts[j];
          var a := AccountsOf(src)[j];
          && row.account.categories == g.category
          && row.account.account.id == a.account.id
          && row.account.account.name == a.account.name
          && row.account.account.categoryId == a.account.categoryId
          && row.account.account.description == None
          && row.totalDebt == a.totalDebt && row.totalReceivable == a.totalReceivable
          && row.net == a.net && row.entryCount == a.entryCount
  {
  }

  /** Absent groups, or a group with absent accounts, give empty lists. */
  lemma MissingListsGiveEmpty(raw: RpcPayload, i: nat)
    ensures raw.groups.None? ==> FetchAccountSummary(RpcSuccess(raw)).value.groups == []
    ensures raw.groups.Some? && i < |raw.groups.value| && raw.groups.value[i].accounts.None? ==>
      FetchAccountSummary(RpcSuccess(raw)).value.groups[i].accounts == []
  {
  }

  // ---------------------------------------------------------------------
  // The sign convention of the row net

  datatype Balance = DebtBalance(amount: nat) | ReceivableBalance(amount: nat) | Settled

  /** What a net means, by its documented sign convention. */
  function BalanceOf(net: int): (b: Balance)
    ensures net > 0 <==> b.DebtBalance?
    ensures net < 0 <==> b.ReceivableBalance?
    ensures b.DebtBalance? ==> b.amount == net
    ensures b.ReceivableBalance? ==> b.amount == -net
  {
    if net > 0 then DebtBalance(net) else if net < 0 then ReceivableBalance(-net) else Settled
  }

  /** A row whose net follows the documentation reads as a debt balance
      exactly when its total debt exceeds its total receivable. */
  ghost predicate RowNetDocumented(r: SummaryRow) {
    r.net == r.totalDebt - r.totalReceivable
  }

  lemma RowBalanceSides(r: SummaryRow)
    requires RowNetDocumented(r)
    ensures BalanceOf(r.net).DebtBalance? <==> r.totalDebt > r.totalReceivable
    ensures BalanceOf(r.net).ReceivableBalance? <==> r.totalDebt < r.totalReceivable
    ensures BalanceOf(r.net).Settled? <==> r.totalDebt == r.totalReceivable
  {
  }

  /** The mapping keeps the sign convention of every row it is given. */
  lemma FetchKeepsRowNets(raw: RpcPayload)
    requires forall g :: g in GroupsOf(raw) ==> forall a :: a in AccountsOf(g) ==> a.net == a.totalDebt - a.totalReceivable
    ensures forall g :: g in FetchAccountSummary(RpcSuccess(raw)).value.groups ==>
      forall row :: row in g.accounts ==> RowNetDocumented(row)
  {
    var gs := GroupsOf(raw);
    forall g | g in FetchAccountSummary(RpcSuccess(raw)).value.groups
      ensures forall row :: row in g.accounts ==> RowNetDocumented(row)
    {
      var i :| 0 <= i < |gs| && g == MapGroup(gs[i]);
      assert gs[i] in gs;
      forall row | row in g.accounts ensures RowNetDocumented(row) {
        var j :| 0 <= j < |AccountsOf(gs[i])| && row == MapAccount(AccountsOf(gs[i])[j], g.category);
        assert AccountsOf(gs[i])[j] in AccountsOf(gs[i]);
      }
    }
  }
}
