/** The accounts page (src/app/accounting/accounts/page.tsx): the account
    filter, the per-account totals, the sort by a total, the sort toggle
    and the guards and payloads of the account form. The search
    normalizer is a parameter. */
module AccountsPage {
  import opened Common
  import opened Database

  // ---------------------------------------------------------------------
  // filter

  /** An account passes a non-empty query when the normalized query occurs
      in its normalized name, description (when it has a non-empty one) or
      category name. */
  predicate QueryMatches(a: AccountWithCategory, query: string, norm: string -> string) {
    var q := norm(query);
    || Includes(norm(a.account.name), q)
    || (Truthy(a.account.description) && Includes(norm(a.account.description.value), q))
    || Includes(norm(a.categories.name), q)
  }

  predicate AccountMatches(a: AccountWithCategory, categoryId: string, query: string, norm: string -> string) {
    && (categoryId == "" || a.account.categoryId == categoryId)
    && (query == "" || QueryMatches(a, query, norm))
  }

  /** `filteredAccounts`: a set category filter drops accounts of other
      categories, a non-empty query drops accounts it does not occur in;
      the rest stay in order. */
  function FilteredAccounts(s: seq<AccountWithCategory>, categoryId: string, query: string, norm: string -> string): (r: seq<AccountWithCategory>)
    ensures forall a :: a in r <==>
      && a in s
      && (categoryId == "" || a.account.categoryId == categoryId)
      && (query == "" || QueryMatches(a, query, norm))
    ensures |r| <= |s|
  {
    if s == [] then []
    else
      FilteredAccounts(s[..|s| - 1], categoryId, query, norm)
        + (if AccountMatches(s[|s| - 1], categoryId, query, norm) then [s[|s| - 1]] else [])
  }

  /** Without filters the list is unchanged. */
  lemma {:induction false} NoFilterKeepsAccounts(s: seq<AccountWithCategory>, norm: string -> string)
    ensures FilteredAccounts(s, "", "", norm) == s
  {
    if s != [] {
      NoFilterKeepsAccounts(s[..|s| - 1], norm);
      assert s[..|s| - 1] + [s[|s| - 1]] == s;
    }
  }

  // ---------------------------------------------------------------------
  // totals

  /** The ledger columns the page loads. */
  datatype LedgerRow = LedgerRow(accountId: string, receivable: int, debt: int)

  datatype AccountTotal = AccountTotal(totalReceivable: int, totalDebt: int)

  function ReceivableOf(rows: seq<LedgerRow>, id: string): int {
    if rows == [] then 0
    else ReceivableOf(rows[..|rows| - 1], id) + (if rows[|rows| - 1].accountId == id then rows[|rows| - 1].receivable else 0)
  }

  function DebtOf(rows: seq<LedgerRow>, id: string): int {
    if rows == [] then 0
    else DebtOf(rows[..|rows| - 1], id) + (if rows[|rows| - 1].accountId == id then rows[|rows| - 1].debt else 0)
  }

  /** The loop's state: a record for every account id seen, holding its
      sums so far. */
  ghost predicate TotalsSoFar(rows: seq<LedgerRow>, totals: map<string, AccountTotal>) {
    && (forall id :: id in totals <==> exists i :: 0 <= i < |rows| && rows[i].accountId == id)
    && forall id :: id in totals ==> totals[id] == AccountTotal(ReceivableOf(rows, id), DebtOf(rows, id))
  }

  /** The per-row update: a missing record starts at zero, then both legs
      are added. */
  function AddRow(totals: map<string, AccountTotal>, e: LedgerRow): map<string, AccountTotal> {
    var t := if e.accountId in totals then totals[e.accountId] else AccountTotal(0, 0);
    totals[e.accountId := AccountTotal(t.totalReceivable + e.receivable, t.totalDebt + e.debt)]
  }

  lemma TotalsStep(rows: seq<LedgerRow>, e: LedgerRow, totals: map<string, AccountTotal>)
    requires TotalsSoFar(rows, totals)
    ensures TotalsSoFar(rows + [e], AddRow(totals, e))
  {
    var t := rows + [e];
    assert t[..|rows|] == rows;
    var next := AddRow(totals, e);
    forall id | id in next ensures exists i :: 0 <= i < |t| && t[i].accountId == id {
      if id == e.accountId {
        assert t[|rows|].accountId == id;
      } else {
        assert id in totals;
        var i :| 0 <= i < |rows| && rows[i].accountId == id;
        assert t[i] == rows[i];
      }
    }
    forall id, i | 0 <= i < |t| && t[i].accountId == id ensures id in next {
      if i < |rows| {
        assert rows[i] == t[i];
      }
    }
    forall id | id in next ensures next[id] == AccountTotal(ReceivableOf(t, id), DebtOf(t, id)) {
      if id == e.accountId && id !in totals {
        NoRowsGiveZero(rows, id);
      }
    }
  }

  /** An id no row carries sums to zero. */
  lemma {:induction false} NoRowsGiveZero(rows: seq<LedgerRow>, id: string)
    requires forall i :: 0 <= i < |rows| ==> rows[i].accountId != id
    ensures ReceivableOf(rows, id) == 0 && DebtOf(rows, id) == 0
  {
    if rows != [] {
      NoRowsGiveZero(rows[..|rows| - 1], id);
    }
  }

  /** `accountTotals` as the source computes it: one pass over the rows. */
  method AccountTotals(rows: seq<LedgerRow>) returns (totals: map<string, AccountTotal>)
    ensures TotalsSoFar(rows, totals)
  {
    totals := map[];
    var i := 0;
    ghost var done: seq<LedgerRow> := [];
    while i < |rows|
      invariant 0 <= i <= |rows| && done == rows[..i]
      invariant TotalsSoFar(done, totals)
    {
      var e := rows[i];
      TotalsStep(done, e, totals);
      totals := AddRow(totals, e);
      done := done + [e];
      i := i + 1;
      assert done == rows[..i];
    }
    assert done == rows;
  }

  datatype SortColumn = ReceivableColumn | DebtColumn
  datatype SortDirection = Asc | Desc

  /** `accountTotals[id]?.total… ?? 0`. */
  function TotalValue(totals: map<string, AccountTotal>, col: SortColumn, id: string): int {
    if id !in totals then 0
    else if col == ReceivableColumn then totals[id].totalReceivable
    else totals[id].totalDebt
  }

  /** What the sort reads for an account: its sum over the rows, zero
      when it has none. */
  lemma TotalValueIsSum(rows: seq<LedgerRow>, totals: map<string, AccountTotal>, col: SortColumn, id: string)
    requires TotalsSoFar(rows, totals)
    ensures TotalValue(totals, col, id) == if col == ReceivableColumn then ReceivableOf(rows, id) else DebtOf(rows, id)
  {
    if id !in totals {
      NoRowsGiveZero(rows, id);
    }
  }

  function DirectionOrder(dir: SortDirection): (int, int) -> bool {
    if dir == Asc then IntLe else IntGe
  }

  /** `sortedAccounts`: the filtered list itself without a sort column,
      otherwise its stable sort by the column's total. */
  function SortedAccounts(filtered: seq<AccountWithCategory>, totals: map<string, AccountTotal>,
                          col: Option<SortColumn>, dir: SortDirection): (r: seq<AccountWithCategory>)
    ensures col.None? ==> r == filtered
    ensures |r| == |filtered|
  {
    if col.None? then filtered
    else SortBy(filtered, (a: AccountWithCategory) => TotalValue(totals, col.value, a.account.id), DirectionOrder(dir))
  }

  /** The sorted list is a permutation of the filtered list, ordered by the
      chosen total in the chosen direction. */
  lemma SortedAccountsOrdered(filtered: seq<AccountWithCategory>, totals: map<string, AccountTotal>,
                              col: SortColumn, dir: SortDirection)
    ensures var r := SortedAccounts(filtered, totals, Some(col), dir);
      && multiset(r) == multiset(filtered)
      && forall i, j :: 0 <= i < j < |r| ==>
           (if dir == Asc then TotalValue(totals, col, r[i].account.id) <= TotalValue(totals, col, r[j].account.id)
            else TotalValue(totals, col, r[i].account.id) >= TotalValue(totals, col, r[j].account.id))
  {
    var key := (a: AccountWithCategory) => TotalValue(totals, col, a.account.id);
    if dir == Asc {
      IntLeIsTotalPreorder();
      SortBySorted(filtered, key, IntLe);
    } else {
      IntGeIsTotalPreorder();
      SortBySorted(filtered, key, IntGe);
    }
  }

  // ---------------------------------------------------------------------
  // sort toggle and filters

  datatype SortState = SortState(column: Option<SortColumn>, direction: SortDirection)

  /** `toggleSort`: on the active column desc turns to asc and asc turns
      the sort off (direction back to desc); another column starts at
      desc. */
  function ToggleSort(st: SortState, col: SortColumn): (r: SortState)
    ensures st.column != Some(col) ==> r == SortState(Some(col), Desc)
    ensures st.column == Some(col) && st.direction == Desc ==> r == SortState(Some(col), Asc)
    ensures st.column == Some(col) && st.direction == Asc ==> r == SortState(None, Desc)
  {
    if st.column == Some(col) then
      if st.direction == Desc then st.(direction := Asc) else SortState(None, Desc)
    else SortState(Some(col), Desc)
  }

  /** Three clicks on a column cycle from no sort through desc and asc
      back to no sort. */
  lemma ToggleCycle(col: SortColumn, dir: SortDirection)
    ensures var s1 := ToggleSort(SortState(None, dir), col);
      var s2 := ToggleSort(s1, col);
      var s3 := ToggleSort(s2, col);
      s1 == SortState(Some(col), Desc) && s2 == SortState(Some(col), Asc) && s3 == SortState(None, Desc)
  {
  }

  // ---------------------------------------------------------------------
  // form

  datatype AccountForm = AccountForm(categoryId: string, name: string, description: string)

  datatype AccountPayload = AccountPayload(categoryId: string, name: string, description: Option<string>)

  /** The guards and payload of `handleCreate` (and, with a selection, of
      `handleEdit`): category and name are required; an empty description
      is stored as null. */
  function AccountPayloadOf(f: AccountForm): (r: Option<AccountPayload>)
    ensures r.None? <==> f.categoryId == "" || f.name == ""
    ensures r.Some? ==>
      && r.value.categoryId == f.categoryId && r.value.name == f.name
      && r.value.description == (if f.description == "" then None else Some(f.description))
  {
    if f.categoryId == "" || f.name == "" then None
    else Some(AccountPayload(f.categoryId, f.name, if f.description == "" then None else Some(f.description)))
  }

  /** `handleEdit`: no selection is refused like a missing field; the
      update targets the selected account's id. */
  function AccountEditOf(selected: Option<Account>, f: AccountForm): (r: Option<(string, AccountPayload)>)
    ensures selected.None? ==> r.None?
    ensures selected.Some? ==> (r.Some? <==> AccountPayloadOf(f).Some?)
    ensures r.Some? ==> r.value == (selected.value.id, AccountPayloadOf(f).value)
  {
    if selected.None? then None
    else
      var p := AccountPayloadOf(f);
      if p.None? then None else Some((selected.value.id, p.value))
  }

  /** `openEditDialog`'s form. */
  function AccountEditForm(a: Account): AccountForm {
    AccountForm(a.categoryId, a.name, OrEmpty(a.description))
  }

  /** Saving an account's edit form unchanged writes back its own fields,
      provided it has a category and a name and no empty description. */
  lemma EditAccountRoundTrip(a: Account)
    requires a.categoryId != "" && a.name != "" && a.description != Some("")
    ensures AccountEditOf(Some(a), AccountEditForm(a)) == Some((a.id, AccountPayload(a.categoryId, a.name, a.description)))
  {
  }

  /** The page's filter and sort controls. */
  class AccountsView {
    var filterCategoryId: string
    var searchQuery: string
    var sort: SortState

    constructor ()
      ensures filterCategoryId == "" && searchQuery == "" && sort == SortState(None, Desc)
    {
      filterCategoryId := "";
      searchQuery := "";
      sort := SortState(None, Desc);
    }

    method Toggle(col: SortColumn)
      modifies this
      ensures sort == ToggleSort(old(sort), col)
      ensures filterCategoryId == old(filterCategoryId) && searchQuery == old(searchQuery)
    {
      if sort.column == Some(col) {
        if sort.direction == Desc {
          sort := sort.(direction := Asc);
        } else {
          sort := SortState(None, Desc);
        }
      } else {
        sort := SortState(Some(col), Desc);
      }
    }

    /** `clearFilters`: category and query are reset, the sort is kept. */
    method ClearFilters()
      modifies this
      ensures filterCategoryId == "" && searchQuery == "" && sort == old(sort)
    {
      filterCategoryId := "";
      searchQuery := "";
    }

    function Shown(accounts: seq<AccountWithCategory>, totals: map<string, AccountTotal>, norm: string -> string): seq<AccountWithCategory>
      reads this
    {
      SortedAccounts(FilteredAccounts(accounts, filterCategoryId, searchQuery, norm), totals, sort.column, sort.direction)
    }
  }
}
