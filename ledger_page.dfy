/** The ledger page (src/app/accounting/ledger/page.tsx): the filters over
    the loaded entries, the statement suggestions, the all-time totals and
    the page's copy of the entries as the table reports writes to it. The
    filter's start is the start of its day and its end the end of its day,
    so the date comparison is a comparison of days. */
module LedgerPage {
  import opened Common
  import opened Database
  import opened LedgerList
  import AccountStatement

  /** The filter bar: ids ("" when unset) and an optional day range. */
  datatype Filters = Filters(categoryId: string, accountId: string, startDate: Option<Day>, endDate: Option<Day>)

  /** One entry passes the filters. */
  predicate Matches(f: Filters, e: LedgerEntry) {
    && (f.categoryId == "" || e.categoryId == f.categoryId)
    && (f.accountId == "" || e.accountId == f.accountId)
    && (f.startDate.None? || e.date >= f.startDate.value)
    && (f.endDate.None? || e.date <= f.endDate.value)
  }

  /** `filteredEntries`: an entry stays exactly when every set filter
      matches it; the kept entries stay in list order. */
  function FilteredEntries(s: seq<LedgerEntry>, f: Filters): (r: seq<LedgerEntry>)
    ensures |r| <= |s|
  {
    if s == [] then []
    else FilteredEntries(s[..|s| - 1], f) + (if Matches(f, s[|s| - 1]) then [s[|s| - 1]] else [])
  }

  /** An entry is shown exactly when it is loaded and every set filter
      matches it. */
  lemma {:induction false} FilteredMembers(s: seq<LedgerEntry>, f: Filters)
    ensures forall e :: e in FilteredEntries(s, f) <==>
      && e in s
      && (f.categoryId == "" || e.categoryId == f.categoryId)
      && (f.accountId == "" || e.accountId == f.accountId)
      && (f.startDate.None? || e.date >= f.startDate.value)
      && (f.endDate.None? || e.date <= f.endDate.value)
  {
    if s != [] {
      var init := s[..|s| - 1];
      FilteredMembers(init, f);
      assert s == init + [s[|s| - 1]];
    }
  }

  /** With no filter set, every entry is shown, in order. */
  lemma {:induction false} NoFiltersKeepAll(s: seq<LedgerEntry>)
    ensures FilteredEntries(s, Filters("", "", None, None)) == s
  {
    if s != [] {
      NoFiltersKeepAll(s[..|s| - 1]);
      assert s[..|s| - 1] + [s[|s| - 1]] == s;
    }
  }

  lemma FilterSnoc(s: seq<LedgerEntry>, e: LedgerEntry, f: Filters)
    ensures FilteredEntries(s + [e], f) == FilteredEntries(s, f) + (if Matches(f, e) then [e] else [])
  {
    assert (s + [e])[..|s|] == s;
  }

  /** Filtering twice with the same filters changes nothing the second time. */
  lemma {:induction false} FilterIdempotent(s: seq<LedgerEntry>, f: Filters)
    ensures FilteredEntries(FilteredEntries(s, f), f) == FilteredEntries(s, f)
  {
    if s != [] {
      var init := s[..|s| - 1];
      FilterIdempotent(init, f);
      var last := s[|s| - 1];
      var r := FilteredEntries(init, f);
      assert s == init + [last];
      FilterSnoc(init, last, f);
      if Matches(f, last) {
        FilterSnoc(r, last, f);
        assert FilteredEntries(r + [last], f) == r + [last];
      } else {
        assert r + [] == r;
      }
    }
  }

  // ---------------------------------------------------------------------
  // suggestions

  /** A statement counts for suggestions when it is present and not blank. */
  predicate Suggestible(s: Option<string>) {
    s.Some? && |Trim(s.value)| > 0
  }

  /** The suggestible statements of the entries, in list order. */
  function Statements(s: seq<LedgerEntry>): seq<string> {
    if s == [] then []
    else Statements(s[..|s| - 1]) + (if Suggestible(s[|s| - 1].statement) then [s[|s| - 1].statement.value] else [])
  }

  /** The statements are exactly the present, non-blank ones of the entries. */
  lemma {:induction false} StatementsMembers(s: seq<LedgerEntry>)
    ensures forall x :: x in Statements(s) <==>
      exists i :: 0 <= i < |s| && Suggestible(s[i].statement) && s[i].statement.value == x
  {
    if s != [] {
      var init := s[..|s| - 1];
      var last := s[|s| - 1];
      StatementsMembers(init);
      forall x ensures x in Statements(s) <==>
        exists i :: 0 <= i < |s| && Suggestible(s[i].statement) && s[i].statement.value == x
      {
        if exists i :: 0 <= i < |s| && Suggestible(s[i].statement) && s[i].statement.value == x {
          var i :| 0 <= i < |s| && Suggestible(s[i].statement) && s[i].statement.value == x;
          if i < |init| {
            assert init[i] == s[i];
          }
        }
        if x in Statements(init) {
          var i :| 0 <= i < |init| && Suggestible(init[i].statement) && init[i].statement.value == x;
          assert s[i] == init[i];
        }
      }
    }
  }

  /** How often `x` occurs in `ss`. */
  function Occurrences(ss: seq<string>, x: string): nat {
    if ss == [] then 0 else Occurrences(ss[..|ss| - 1], x) + (if ss[|ss| - 1] == x then 1 else 0)
  }

  /** The distinct strings in order of first occurrence: the key order of a
      Map filled in list order. */
  function Distinct(ss: seq<string>): (r: seq<string>)
    ensures forall x :: x in r <==> x in ss
  {
    if ss == [] then []
    else
      var init := ss[..|ss| - 1];
      var d := Distinct(init);
      assert forall x :: x in init ==> x in ss;
      d + (if ss[|ss| - 1] in d then [] else [ss[|ss| - 1]])
  }

  lemma {:induction false} DistinctHasNoRepeats(ss: seq<string>)
    ensures forall i, j :: 0 <= i < j < |Distinct(ss)| ==> Distinct(ss)[i] != Distinct(ss)[j]
  {
    if ss != [] {
      DistinctHasNoRepeats(ss[..|ss| - 1]);
    }
  }

  /** `Array.from(count.entries())`: each distinct statement with its count. */
  function CountPairs(ss: seq<string>): (r: seq<(string, nat)>)
    ensures |r| == |Distinct(ss)|
  {
    var d := Distinct(ss);
    seq(|d|, j requires 0 <= j < |d| => (d[j], Occurrences(ss, d[j])))
  }

  function PairCount(p: (string, nat)): int {
    p.1
  }

  function PairKeys(ps: seq<(string, nat)>): (r: seq<string>)
    ensures |r| == |ps| && forall j :: 0 <= j < |ps| ==> r[j] == ps[j].0
  {
    seq(|ps|, j requires 0 <= j < |ps| => ps[j].0)
  }

  /** `statementSuggestions`: the distinct suggestible statements, ordered
      by descending count, ties in order of first occurrence. */
  function Suggestions(s: seq<LedgerEntry>): (r: seq<string>)
    ensures |r| == |Distinct(Statements(s))|
  {
    PairKeys(SortBy(CountPairs(Statements(s)), PairCount, IntGe))
  }

  lemma OccurrencesSnoc(ss: seq<string>, x: string, y: string)
    ensures Occurrences(ss + [x], y) == Occurrences(ss, y) + (if x == y then 1 else 0)
  {
    assert (ss + [x])[..|ss|] == ss;
  }

  lemma DistinctSnoc(ss: seq<string>, x: string)
    ensures Distinct(ss + [x]) == Distinct(ss) + (if x in Distinct(ss) then [] else [x])
  {
    assert (ss + [x])[..|ss|] == ss;
  }

  /** The loop's state after the first statements. */
  ghost predicate CountsSoFar(ss: seq<string>, keys: seq<string>, count: map<string, nat>) {
    && keys == Distinct(ss)
    && (forall k :: k in count <==> k in keys)
    && forall k :: k in keys ==> count[k] == Occurrences(ss, k)
  }

  /** `count.set(s, (count.get(s) || 0) + 1)`. */
  function Bump(count: map<string, nat>, x: string): map<string, nat> {
    count[x := (if x in count then count[x] else 0) + 1]
  }

  function BumpKeys(keys: seq<string>, count: map<string, nat>, x: string): seq<string> {
    if x in count then keys else keys + [x]
  }

  lemma CountStep(ss: seq<string>, x: string, keys: seq<string>, count: map<string, nat>)
    requires CountsSoFar(ss, keys, count)
    ensures CountsSoFar(ss + [x], BumpKeys(keys, count, x), Bump(count, x))
  {
    DistinctSnoc(ss, x);
    var keys' := BumpKeys(keys, count, x);
    var count' := Bump(count, x);
    assert keys' == Distinct(ss + [x]);
    forall k | k in keys' ensures count'[k] == Occurrences(ss + [x], k) {
      OccurrencesSnoc(ss, x, k);
      if k !in keys {
        assert k == x;
        if Occurrences(ss, x) != 0 {
          OccurrenceMember(ss, x);
        }
      }
    }
  }

  /** A string that occurs is a member. */
  lemma {:induction false} OccurrenceMember(ss: seq<string>, x: string)
    requires Occurrences(ss, x) > 0
    ensures x in ss
  {
    var init := ss[..|ss| - 1];
    if ss[|ss| - 1] != x {
      OccurrenceMember(init, x);
      var i :| 0 <= i < |init| && init[i] == x;
      assert ss[i] == x;
    }
  }

  /** `statementSuggestions` as the source computes it: a count Map filled
      statement by statement, its pairs sorted by descending count, then
      their keys. */
  method StatementSuggestions(s: seq<LedgerEntry>) returns (r: seq<string>)
    ensures r == Suggestions(s)
  {
    var statements := Statements(s);
    var keys: seq<string> := [];
    var count: map<string, nat> := map[];
    var i := 0;
    while i < |statements|
      invariant 0 <= i <= |statements|
      invariant CountsSoFar(statements[..i], keys, count)
    {
      var x := statements[i];
      ghost var keys0, count0 := keys, count;
      CountStep(statements[..i], x, keys, count);
      if x !in count {
        keys := keys + [x];
      }
      count := count[x := (if x in count then count[x] else 0) + 1];
      assert keys == BumpKeys(keys0, count0, x) && count == Bump(count0, x);
      assert statements[..i + 1] == statements[..i] + [x];
      i := i + 1;
    }
    assert statements[..i] == statements;
    var pairs := seq(|keys|, j requires 0 <= j < |keys| => (keys[j], count[keys[j]]));
    assert pairs == CountPairs(statements);
    r := PairKeys(SortBy(pairs, PairCount, IntGe));
  }

  /** The suggestions list every suggestible statement once and nothing
      else. */
  lemma SuggestionsAreDistinctStatements(s: seq<LedgerEntry>)
    ensures forall x :: x in Suggestions(s) <==>
      exists i :: 0 <= i < |s| && Suggestible(s[i].statement) && s[i].statement.value == x
    ensures forall i, j :: 0 <= i < j < |Suggestions(s)| ==> Suggestions(s)[i] != Suggestions(s)[j]
  {
    var ss := Statements(s);
    var pairs := CountPairs(ss);
    var sorted := SortBy(pairs, PairCount, IntGe);
    var r := PairKeys(sorted);
    StatementsMembers(s);
    DistinctHasNoRepeats(ss);
    forall x ensures x in r <==> x in Distinct(ss) {
      if x in r {
        var j :| 0 <= j < |r| && r[j] == x;
        assert sorted[j] in multiset(pairs);
        var k :| 0 <= k < |pairs| && pairs[k] == sorted[j];
        assert Distinct(ss)[k] == x;
      }
      if x in Distinct(ss) {
        var k :| 0 <= k < |Distinct(ss)| && Distinct(ss)[k] == x;
        assert pairs[k] in multiset(sorted);
        var j :| 0 <= j < |sorted| && sorted[j] == pairs[k];
        assert r[j] == x;
      }
    }
    forall i, j | 0 <= i < j < |r| ensures r[i] != r[j] {
      PairsDistinct(ss, sorted, i, j);
    }
  }

  /** Two places of the sorted pairs hold different statements. */
  lemma PairsDistinct(ss: seq<string>, sorted: seq<(string, nat)>, i: nat, j: nat)
    requires sorted == SortBy(CountPairs(ss), PairCount, IntGe)
    requires i < j < |sorted|
    ensures sorted[i].0 != sorted[j].0
  {
    var pairs := CountPairs(ss);
    DistinctHasNoRepeats(ss);
    assert sorted[i] in multiset(pairs) && sorted[j] in multiset(pairs);
    var a :| 0 <= a < |pairs| && pairs[a] == sorted[i];
    var b :| 0 <= b < |pairs| && pairs[b] == sorted[j];
    TwiceListed(sorted, i, j);
    UniqueMultiplicity(pairs, sorted[i]);
    assert a != b;
  }

  /** An element at two places is counted at least twice. */
  lemma TwiceListed<T>(s: seq<T>, i: nat, j: nat)
    requires i < j < |s|
    ensures s[i] == s[j] ==> multiset(s)[s[i]] >= 2
  {
    var p := s[i];
    assert s == s[..i] + [p] + s[i + 1..];
    assert multiset(s)[p] == multiset(s[..i])[p] + 1 + multiset(s[i + 1..])[p];
    assert s[i + 1..][j - i - 1] == s[j];
  }

  /** Each pair of `CountPairs` is there once. */
  lemma {:induction false} UniqueMultiplicity(pairs: seq<(string, nat)>, p: (string, nat))
    requires forall a, b :: 0 <= a < b < |pairs| ==> pairs[a].0 != pairs[b].0
    ensures multiset(pairs)[p] <= 1
  {
    if pairs != [] {
      var tail := pairs[1..];
      assert pairs == [pairs[0]] + tail;
      assert forall a, b :: 0 <= a < b < |tail| ==> tail[a].0 != tail[b].0 by {
        forall a, b | 0 <= a < b < |tail| ensures tail[a].0 != tail[b].0 {
          assert tail[a] == pairs[a + 1] && tail[b] == pairs[b + 1];
        }
      }
      UniqueMultiplicity(tail, p);
      if pairs[0] == p {
        forall k | 0 <= k < |tail| ensures tail[k] != p {
          assert pairs[k + 1] == tail[k];
        }
        assert p !in tail;
      }
    }
  }

  /** The suggestions come in descending order of count. */
  lemma SuggestionsByCount(s: seq<LedgerEntry>)
    ensures var ss := Statements(s); var r := Suggestions(s);
      forall i, j :: 0 <= i < j < |r| ==> Occurrences(ss, r[i]) >= Occurrences(ss, r[j])
  {
    var ss := Statements(s);
    var pairs := CountPairs(ss);
    IntGeIsTotalPreorder();
    SortBySorted(pairs, PairCount, IntGe);
    var sorted := SortBy(pairs, PairCount, IntGe);
    forall j | 0 <= j < |sorted| ensures sorted[j].1 == Occurrences(ss, sorted[j].0) {
      assert sorted[j] in multiset(pairs);
      var k :| 0 <= k < |pairs| && pairs[k] == sorted[j];
    }
  }

  // ---------------------------------------------------------------------
  // totals

  datatype Totals = Totals(totalReceivable: int, totalDebt: int, balance: int)

  /** `totals`: over every loaded entry, whatever the filters. */
  function PageTotals(s: seq<LedgerEntry>): (t: Totals)
    ensures t.totalReceivable == TotalReceivable(s) && t.totalDebt == TotalDebt(s)
    ensures t.balance == t.totalReceivable - t.totalDebt
  {
    Totals(TotalReceivable(s), TotalDebt(s), TotalReceivable(s) - TotalDebt(s))
  }

  /** An entry as a posting of the statement model. */
  function PostingOf(e: LedgerEntry): AccountStatement.Posting {
    AccountStatement.Posting(e.id, e.date, e.statement, e.debt, e.receivable)
  }

  function PostingsOf(s: seq<LedgerEntry>): (r: seq<AccountStatement.Posting>)
    ensures |r| == |s| && forall i :: 0 <= i < |s| ==> r[i] == PostingOf(s[i])
  {
    seq(|s|, i requires 0 <= i < |s| => PostingOf(s[i]))
  }

  /** The page's balance has the opposite sign of a statement's net: it is
      receivable over debt, where a statement counts debt over receivable. */
  lemma {:induction false} BalanceIsNegatedNet(s: seq<LedgerEntry>)
    ensures var ps := PostingsOf(s);
      PageTotals(s).balance == -(AccountStatement.PostingDebt(ps) - AccountStatement.PostingReceivable(ps))
  {
    if s != [] {
      var init := s[..|s| - 1];
      BalanceIsNegatedNet(init);
      assert PostingsOf(s)[..|s| - 1] == PostingsOf(init);
    }
  }

  // ---------------------------------------------------------------------
  // the page

  /** The effect run when the category filter, the accounts or the account
      filter change: with both filters set, an account listed under another
      category clears the account filter; anything else keeps it. */
  function SyncedAccountFilter(f: Filters, accounts: seq<AccountWithCategory>): (r: Filters)
    ensures r.categoryId == f.categoryId && r.startDate == f.startDate && r.endDate == f.endDate
    ensures r.accountId == "" || r.accountId == f.accountId
    ensures r.accountId != f.accountId <==>
      && f.categoryId != "" && f.accountId != ""
      && exists i :: 0 <= i < |accounts| && accounts[i].account.id == f.accountId
           && (forall j :: 0 <= j < i ==> accounts[j].account.id != f.accountId)
           && accounts[i].account.categoryId != f.categoryId
  {
    if f.categoryId != "" && f.accountId != "" then
      var a := Find(accounts, (a: AccountWithCategory) => a.account.id == f.accountId);
      if a.Some? && a.value.account.categoryId != f.categoryId then
        FirstIndexUnique(accounts, f.accountId);
        f.(accountId := "")
      else
        FirstIndexUnique(accounts, f.accountId);
        f
    else f
  }

  /** At most one index is the first with a given id. */
  lemma FirstIndexUnique(accounts: seq<AccountWithCategory>, id: string)
    ensures forall i, i' ::
      0 <= i < |accounts| && accounts[i].account.id == id && (forall j :: 0 <= j < i ==> accounts[j].account.id != id) &&
      0 <= i' < |accounts| && accounts[i'].account.id == id && (forall j :: 0 <= j < i' ==> accounts[j].account.id != id)
      ==> i == i'
  {
  }

  /** After the effect, the filters never name an account of another
      listed category. */
  lemma SyncedFilterConsistent(f: Filters, accounts: seq<AccountWithCategory>)
    requires f.categoryId != "" && f.accountId != ""
    ensures var r := SyncedAccountFilter(f, accounts);
      var a := Find(accounts, (a: AccountWithCategory) => a.account.id == f.accountId);
      r.accountId != "" && a.Some? ==> a.value.account.categoryId == r.categoryId
  {
  }

  /** The page's entries and filters. */
  class LedgerPage {
    var entries: seq<LedgerEntry>
    var filters: Filters

    constructor (loaded: seq<LedgerEntry>, range: (Option<Day>, Option<Day>))
      ensures entries == loaded && filters == Filters("", "", range.0, range.1)
    {
      entries := loaded;
      filters := Filters("", "", range.0, range.1);
    }

    function Shown(): seq<LedgerEntry>
      reads this
    {
      FilteredEntries(entries, filters)
    }

    method SetCategoryFilter(id: string, accounts: seq<AccountWithCategory>)
      modifies this
      ensures filters == SyncedAccountFilter(old(filters).(categoryId := id), accounts)
      ensures entries == old(entries)
    {
      filters := filters.(categoryId := id);
      filters := SyncedAccountFilter(filters, accounts);
    }

    method SetAccountFilter(id: string, accounts: seq<AccountWithCategory>)
      modifies this
      ensures filters == SyncedAccountFilter(old(filters).(accountId := id), accounts)
      ensures entries == old(entries)
    {
      filters := filters.(accountId := id);
      filters := SyncedAccountFilter(filters, accounts);
    }

    method SetRange(start: Option<Day>, end: Option<Day>)
      modifies this
      ensures filters == old(filters).(startDate := start, endDate := end)
      ensures entries == old(entries)
    {
      filters := filters.(startDate := start, endDate := end);
    }

    /** `clearFilters`: the ids are reset, the dates are kept. */
    method ClearFilters()
      modifies this
      ensures filters == Filters("", "", old(filters).startDate, old(filters).endDate)
      ensures entries == old(entries)
    {
      filters := filters.(categoryId := "", accountId := "");
    }

    /** `handleEntryAdded`. */
    method HandleEntryAdded(e: LedgerEntry)
      modifies this
      ensures entries == Upsert(old(entries), e)
      ensures filters == old(filters)
    {
      if HasId(entries, e.id) {
        entries := ReplaceById(entries, e.id, e);
      } else {
        entries := [e] + entries;
      }
    }

    /** `handleEntryDeleted`. */
    method HandleEntryDeleted(id: string)
      modifies this
      ensures entries == RemoveById(old(entries), id)
      ensures filters == old(filters)
    {
      entries := RemoveById(entries, id);
    }
  }

  /** With only the dates set, clearing the filters leaves the date filter
      in force: the shown entries are those in the date range. */
  lemma ClearedFiltersKeepDateRange(s: seq<LedgerEntry>, f: Filters, e: LedgerEntry)
    requires e in s
    ensures e in FilteredEntries(s, Filters("", "", f.startDate, f.endDate)) <==>
      (f.startDate.None? || e.date >= f.startDate.value) && (f.endDate.None? || e.date <= f.endDate.value)
  {
    FilteredMembers(s, Filters("", "", f.startDate, f.endDate));
  }
}
