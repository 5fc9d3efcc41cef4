/** The ledger table (src/components/ledger-data-table.tsx): the entry
    form's validation and payload, the edit dialog's form, the account
    picker, the local entry list and the grouped-by-category view. Parsing
    and printing an amount are parameters; amounts are whole minor units. */
module LedgerTable {
  import opened Common
  import opened Database
  import opened LedgerList

  /** The create/edit form. */
  datatype EntryForm = EntryForm(
    date: Option<Day>,
    categoryId: string,
    accountId: string,
    statement: string,
    kind: EntryKind,
    amount: string)

  /** `initialFormData`. Its date is evaluated once, when the module loads,
      so `today` stands for that load-time day and every reset reuses it. A
      fresh form lacks its category, account and amount, so it cannot be
      submitted as it is. */
  function InitialForm(today: Day): (r: EntryForm)
    ensures r.date == Some(today) && r.kind == ReceivableEntry
    ensures !HasRequiredFields(r)
  {
    EntryForm(Some(today), "", "", "", ReceivableEntry, "")
  }

  /** The two refusals, each with its own message. */
  datatype FormError = MissingFields | InvalidAmount

  /** The row written by an insert or an update. */
  datatype EntryPayload = EntryPayload(
    date: Day,
    categoryId: string,
    accountId: string,
    statement: Option<string>,
    receivable: int,
    debt: int)

  predicate HasRequiredFields(f: EntryForm) {
    f.date.Some? && f.categoryId != "" && f.accountId != "" && f.amount != ""
  }

  /** The shared guards and payload of `handleCreate` and `handleEdit`: a
      missing field is refused first, then an amount that does not parse to
      a positive number; an accepted form puts the amount in the leg its
      kind names and zero in the other, and stores an empty statement as
      null. */
  function ValidateEntry(f: EntryForm, parse: string -> Option<int>): (r: Result<EntryPayload, FormError>)
    ensures r == Err(MissingFields) <==> !HasRequiredFields(f)
    ensures r == Err(InvalidAmount) <==> HasRequiredFields(f) && (parse(f.amount).None? || parse(f.amount).value <= 0)
    ensures r.Ok? ==>
      && parse(f.amount).Some? && parse(f.amount).value > 0
      && r.value.date == f.date.value
      && r.value.categoryId == f.categoryId && r.value.accountId == f.accountId
      && r.value.statement == (if f.statement == "" then None else Some(f.statement))
      && (r.value.receivable == parse(f.amount).value <==> f.kind == ReceivableEntry)
      && (r.value.debt == parse(f.amount).value <==> f.kind == DebtEntry)
      && r.value.receivable + r.value.debt == parse(f.amount).value
      && (r.value.receivable == 0 || r.value.debt == 0)
  {
    if !HasRequiredFields(f) then Err(MissingFields)
    else
      var amount := parse(f.amount);
      if amount.None? || amount.value <= 0 then Err(InvalidAmount)
      else
        Ok(EntryPayload(
          f.date.value, f.categoryId, f.accountId,
          if f.statement == "" then None else Some(f.statement),
          if f.kind == ReceivableEntry then amount.value else 0,
          if f.kind == DebtEntry then amount.value else 0))
  }

  /** `handleEdit`'s guards: no selected entry is refused like a missing
      field; otherwise the form is validated and the update targets the
      selected entry's id. */
  function ValidateEdit(selected: Option<LedgerEntry>, f: EntryForm, parse: string -> Option<int>): (r: Result<(string, EntryPayload), FormError>)
    ensures selected.None? ==> r == Err(MissingFields)
    ensures selected.Some? && ValidateEntry(f, parse).Err? ==> r == Err(ValidateEntry(f, parse).error)
    ensures selected.Some? && ValidateEntry(f, parse).Ok? ==> r == Ok((selected.value.id, ValidateEntry(f, parse).value))
  {
    if selected.None? then Err(MissingFields)
    else
      match ValidateEntry(f, parse)
      case Err(e) => Err(e)
      case Ok(p) => Ok((selected.value.id, p))
  }

  /** `openEditDialog`'s form: the kind is receivable exactly when the
      receivable leg is positive, and the amount is that leg, or the debt
      leg otherwise. */
  function OpenEditForm(e: LedgerEntry, show: int -> string): (f: EntryForm)
    ensures f.date == Some(e.date) && f.categoryId == e.categoryId && f.accountId == e.accountId
    ensures f.statement == OrEmpty(e.statement)
    ensures f.kind == ReceivableEntry <==> e.receivable > 0
    ensures f.amount == show(if e.receivable > 0 then e.receivable else e.debt)
  {
    EntryForm(Some(e.date), e.categoryId, e.accountId, OrEmpty(e.statement),
              if e.receivable > 0 then ReceivableEntry else DebtEntry,
              show(if e.receivable > 0 then e.receivable else e.debt))
  }

  /** The row an entry was written from, as a payload. */
  function PayloadOf(e: LedgerEntry): EntryPayload {
    EntryPayload(e.date, e.categoryId, e.accountId, e.statement, e.receivable, e.debt)
  }

  /** What a written entry looks like: exactly one positive leg, the other
      zero, and no empty statement. */
  predicate WellFormedEntry(e: LedgerEntry) {
    && ((e.receivable > 0 && e.debt == 0) || (e.receivable == 0 && e.debt > 0))
    && e.statement != Some("")
    && e.categoryId != "" && e.accountId != ""
  }

  /** Opening a written entry for edit and saving it unchanged writes the
      same row, provided parsing reads back a printed amount. */
  lemma EditFormRoundTrip(e: LedgerEntry, show: int -> string, parse: string -> Option<int>)
    requires WellFormedEntry(e)
    requires forall x :: x > 0 ==> parse(show(x)) == Some(x)
    requires forall x :: x > 0 ==> show(x) != ""
    ensures ValidateEntry(OpenEditForm(e, show), parse) == Ok(PayloadOf(e))
  {
    var f := OpenEditForm(e, show);
    var x := if e.receivable > 0 then e.receivable else e.debt;
    assert parse(show(x)) == Some(x) && show(x) != "";
    assert f.statement == "" <==> e.statement.None?;
  }

  /** The other way round: an entry stored from an accepted form opens for
      edit with the form's kind, statement and fields. */
  lemma SavedEntryReopens(f: EntryForm, parse: string -> Option<int>, show: int -> string, e: LedgerEntry)
    requires ValidateEntry(f, parse).Ok? && PayloadOf(e) == ValidateEntry(f, parse).value
    ensures var g := OpenEditForm(e, show);
      && g.kind == f.kind && g.statement == f.statement
      && g.date == f.date && g.categoryId == f.categoryId && g.accountId == f.accountId
      && g.amount == show(parse(f.amount).value)
  {
  }

  /** An entry without a positive leg cannot be saved back unchanged: its
      form shows the debt kind with amount zero, which is refused. */
  lemma ZeroEntryNotResaved(e: LedgerEntry, show: int -> string, parse: string -> Option<int>)
    requires e.receivable <= 0 && e.debt <= 0
    requires e.categoryId != "" && e.accountId != ""
    requires show(e.debt) != "" && parse(show(e.debt)) == Some(e.debt)
    ensures ValidateEntry(OpenEditForm(e, show), parse) == Err(InvalidAmount)
  {
  }

  /** `handleAccountChange`: choosing a listed account sets it and copies
      its category; an unknown id leaves the form as it was. */
  function AccountChanged(f: EntryForm, accounts: seq<AccountWithCategory>, accountId: string): (r: EntryForm)
    ensures (forall i :: 0 <= i < |accounts| ==> accounts[i].account.id != accountId) ==> r == f
    ensures (exists i :: 0 <= i < |accounts| && accounts[i].account.id == accountId) ==>
      exists i :: 0 <= i < |accounts| && accounts[i].account.id == accountId
        && (forall j :: 0 <= j < i ==> accounts[j].account.id != accountId)
        && r == f.(accountId := accountId, categoryId := accounts[i].account.categoryId)
  {
    var a := Find(accounts, (a: AccountWithCategory) => a.account.id == accountId);
    if a.Some? then f.(accountId := accountId, categoryId := a.value.account.categoryId) else f
  }

  // ---------------------------------------------------------------------
  // grouped view

  /** One group of the grouped view. */
  datatype EntryGroup = EntryGroup(category: Category, entries: seq<LedgerEntry>, totalReceivable: int, totalDebt: int)

  /** The entries of one category, in list order. */
  function EntriesOf(s: seq<LedgerEntry>, k: string): seq<LedgerEntry> {
    if s == [] then []
    else EntriesOf(s[..|s| - 1], k) + (if s[|s| - 1].categoryId == k then [s[|s| - 1]] else [])
  }

  /** A category's entries are exactly the entries carrying its id. */
  lemma {:induction false} EntriesOfMembers(s: seq<LedgerEntry>, k: string)
    ensures forall e :: e in EntriesOf(s, k) <==> e in s && e.categoryId == k
  {
    if s != [] {
      var init := s[..|s| - 1];
      EntriesOfMembers(init, k);
      assert s == init + [s[|s| - 1]];
    }
  }

  /** The distinct category ids in order of first appearance: the key
      order of a Map filled in list order. */
  function CategoryKeys(s: seq<LedgerEntry>): seq<string> {
    if s == [] then []
    else
      var keys := CategoryKeys(s[..|s| - 1]);
      keys + (if s[|s| - 1].categoryId in keys then [] else [s[|s| - 1].categoryId])
  }

  /** The keys are exactly the category ids some entry carries. */
  lemma {:induction false} KeysAreCategoryIds(s: seq<LedgerEntry>)
    ensures forall k :: k in CategoryKeys(s) <==> exists i :: 0 <= i < |s| && s[i].categoryId == k
  {
    if s != [] {
      var init := s[..|s| - 1];
      KeysAreCategoryIds(init);
      assert forall i :: 0 <= i < |init| ==> init[i] == s[i];
    }
  }

  /** A key that some entry carries has entries. */
  lemma KeyHasEntries(s: seq<LedgerEntry>, k: string)
    requires k in CategoryKeys(s)
    ensures EntriesOf(s, k) != []
  {
    KeysAreCategoryIds(s);
    EntriesOfMembers(s, k);
    var i :| 0 <= i < |s| && s[i].categoryId == k;
    assert s[i] in EntriesOf(s, k);
  }

  /** The group of a key that some entry carries: the category joined to
      its first entry, its entries in order and their sums. */
  function GroupOf(s: seq<LedgerEntry>, k: string): (r: EntryGroup)
    requires k in CategoryKeys(s)
    ensures r.entries == EntriesOf(s, k) && r.entries != []
    ensures r.category == r.entries[0].categories
  {
    KeyHasEntries(s, k);
    GroupFrom(EntriesOf(s, k))
  }

  /** The group of a non-empty run of entries of one category. */
  function GroupFrom(es: seq<LedgerEntry>): EntryGroup
    requires es != []
  {
    EntryGroup(es[0].categories, es, TotalReceivable(es), TotalDebt(es))
  }

  /** The groups in Map insertion order. */
  function GroupsInOrder(s: seq<LedgerEntry>): (r: seq<EntryGroup>)
    ensures |r| == |CategoryKeys(s)|
  {
    var keys := CategoryKeys(s);
    seq(|keys|, j requires 0 <= j < |keys| => GroupOf(s, keys[j]))
  }

  function GroupCategoryId(g: EntryGroup): string {
    g.category.id
  }

  /** `groupedEntries`: the groups sorted by category id. */
  function ReferenceGroups(s: seq<LedgerEntry>): seq<EntryGroup> {
    SortBy(GroupsInOrder(s), GroupCategoryId, StrLe)
  }

  lemma {:induction false} KeysDistinct(s: seq<LedgerEntry>)
    ensures forall i, j :: 0 <= i < j < |CategoryKeys(s)| ==> CategoryKeys(s)[i] != CategoryKeys(s)[j]
  {
    if s != [] {
      KeysDistinct(s[..|s| - 1]);
    }
  }

  /** One entry added at the end: its own group grows by it (or is
      created), every other group is unchanged. */
  lemma EntriesOfSnoc(s: seq<LedgerEntry>, e: LedgerEntry, k: string)
    ensures EntriesOf(s + [e], k) == EntriesOf(s, k) + (if e.categoryId == k then [e] else [])
  {
    assert (s + [e])[..|s|] == s;
  }

  lemma KeysSnoc(s: seq<LedgerEntry>, e: LedgerEntry)
    ensures CategoryKeys(s + [e]) == CategoryKeys(s) + (if e.categoryId in CategoryKeys(s) then [] else [e.categoryId])
  {
    assert (s + [e])[..|s|] == s;
  }

  /** The group a new key opens holds exactly the new entry. */
  lemma {:induction false} NewKeyGroup(s: seq<LedgerEntry>, k: string)
    requires k !in CategoryKeys(s)
    ensures EntriesOf(s, k) == []
  {
    if s != [] {
      var init := s[..|s| - 1];
      assert forall i :: 0 <= i < |init| ==> init[i] == s[i];
      NewKeyGroup(init, k);
    }
  }

  /** The Map entry a new key starts with. */
  function OpenedGroup(e: LedgerEntry): EntryGroup {
    EntryGroup(e.categories, [], 0, 0)
  }

  /** `group.entries.push(entry)` and the two `+=`. */
  function Extend(g: EntryGroup, e: LedgerEntry): EntryGroup {
    g.(entries := g.entries + [e], totalReceivable := g.totalReceivable + e.receivable, totalDebt := g.totalDebt + e.debt)
  }

  /** One entry added at the end leaves the groups of other keys alone. */
  lemma GroupOfSnocOther(s: seq<LedgerEntry>, e: LedgerEntry, k: string)
    requires k in CategoryKeys(s + [e]) && k != e.categoryId
    ensures k in CategoryKeys(s) && GroupOf(s + [e], k) == GroupOf(s, k)
  {
    KeysSnoc(s, e);
    EntriesOfSnoc(s, e, k);
    assert EntriesOf(s, k) + [] == EntriesOf(s, k);
  }

  /** An entry of a key already seen extends that key's group. */
  lemma GroupOfSnocOwn(s: seq<LedgerEntry>, e: LedgerEntry)
    requires e.categoryId in CategoryKeys(s)
    ensures e.categoryId in CategoryKeys(s + [e])
    ensures GroupOf(s + [e], e.categoryId) == Extend(GroupOf(s, e.categoryId), e)
  {
    var k := e.categoryId;
    KeysSnoc(s, e);
    EntriesOfSnoc(s, e, k);
    var es := EntriesOf(s, k);
    TotalsSnoc(es, e);
    KeyHasEntries(s, k);
    assert (es + [e])[0] == es[0];
  }

  /** An entry of a new key opens a group holding just that entry. */
  lemma GroupOfSnocNew(s: seq<LedgerEntry>, e: LedgerEntry)
    requires e.categoryId !in CategoryKeys(s)
    ensures e.categoryId in CategoryKeys(s + [e])
    ensures GroupOf(s + [e], e.categoryId) == Extend(OpenedGroup(e), e)
  {
    var k := e.categoryId;
    KeysSnoc(s, e);
    EntriesOfSnoc(s, e, k);
    NewKeyGroup(s, k);
    TotalsSnoc([], e);
    assert EntriesOf(s + [e], k) == [e];
  }

  /** Once every entry is in, the Map's values in key order are the
      groups in first-appearance order. */
  lemma ValuesAreGroups(s: seq<LedgerEntry>, keys: seq<string>, groups: map<string, EntryGroup>)
    requires GroupsSoFar(s, keys, groups)
    ensures forall k :: k in keys ==> k in groups
    ensures ValuesInOrder(keys, groups) == GroupsInOrder(s)
  {
  }

  /** All values of a JS Map filled with the loop below, in key order. */
  function ValuesInOrder(keys: seq<string>, groups: map<string, EntryGroup>): seq<EntryGroup>
    requires forall k :: k in keys ==> k in groups
  {
    seq(|keys|, j requires 0 <= j < |keys| => groups[keys[j]])
  }

  /** The loop's state after the first entries: the Map holds, for each
      key seen, its group so far. */
  ghost predicate GroupsSoFar(s: seq<LedgerEntry>, keys: seq<string>, groups: map<string, EntryGroup>) {
    && keys == CategoryKeys(s)
    && (forall k :: k in groups <==> k in keys)
    && forall k :: k in keys ==> groups[k] == GroupOf(s, k)
  }

  /** The Map after one more entry: a new key is opened, then the key's
      group is extended. */
  function NextKeys(keys: seq<string>, groups: map<string, EntryGroup>, e: LedgerEntry): seq<string> {
    if e.categoryId in groups then keys else keys + [e.categoryId]
  }

  function NextGroups(groups: map<string, EntryGroup>, e: LedgerEntry): map<string, EntryGroup> {
    var k := e.categoryId;
    groups[k := Extend(if k in groups then groups[k] else OpenedGroup(e), e)]
  }

  /** The Map step for one entry keeps the loop's state. */
  lemma GroupStep(s: seq<LedgerEntry>, e: LedgerEntry, keys: seq<string>, groups: map<string, EntryGroup>)
    requires GroupsSoFar(s, keys, groups)
    ensures GroupsSoFar(s + [e], NextKeys(keys, groups, e), NextGroups(groups, e))
  {
    var keys' := NextKeys(keys, groups, e);
    var groups' := NextGroups(groups, e);
    KeysSnoc(s, e);
    assert keys' == CategoryKeys(s + [e]);
    assert forall k :: k in groups' <==> k in keys';
    forall k | k in keys' ensures groups'[k] == GroupOf(s + [e], k) {
      if k != e.categoryId {
        GroupOfSnocOther(s, e, k);
      } else if k in CategoryKeys(s) {
        GroupOfSnocOwn(s, e);
      } else {
        GroupOfSnocNew(s, e);
      }
    }
  }

  /** The loop body: the entry's group is created when its category id is
      new, then the entry is pushed and its amounts added. */
  method AddEntry(keys: seq<string>, groups: map<string, EntryGroup>, e: LedgerEntry)
    returns (keys': seq<string>, groups': map<string, EntryGroup>)
    ensures keys' == NextKeys(keys, groups, e) && groups' == NextGroups(groups, e)
  {
    var k := e.categoryId;
    keys' := keys;
    if k !in groups {
      keys' := keys + [k];
    }
    var group := if k in groups then groups[k] else OpenedGroup(e);
    groups' := groups[k := Extend(group, e)];
  }

  /** `groupedEntries` as the source computes it: a Map filled entry by
      entry, its values then sorted by category id. */
  method GroupEntries(data: seq<LedgerEntry>) returns (r: seq<EntryGroup>)
    ensures r == ReferenceGroups(data)
  {
    var keys: seq<string> := [];
    var groups: map<string, EntryGroup> := map[];
    var i := 0;
    while i < |data|
      invariant 0 <= i <= |data|
      invariant GroupsSoFar(data[..i], keys, groups)
    {
      var e := data[i];
      GroupStep(data[..i], e, keys, groups);
      keys, groups := AddEntry(keys, groups, e);
      PrefixSnoc(data, i);
      i := i + 1;
    }
    assert data[..i] == data;
    ValuesAreGroups(data, keys, groups);
    var values := ValuesInOrder(keys, groups);
    r := SortBy(values, GroupCategoryId, StrLe);
  }

  /** The group view has one group per distinct category id, each holding
      exactly that category's entries in list order, with their sums. */
  lemma GroupsAreByCategory(s: seq<LedgerEntry>)
    ensures var gs := GroupsInOrder(s); var keys := CategoryKeys(s);
      && (forall j :: 0 <= j < |gs| ==>
            gs[j].entries == EntriesOf(s, keys[j])
            && gs[j].totalReceivable == TotalReceivable(gs[j].entries)
            && gs[j].totalDebt == TotalDebt(gs[j].entries))
      && (forall i, j :: 0 <= i < j < |keys| ==> keys[i] != keys[j])
  {
    KeysDistinct(s);
  }

  /** Every entry is in exactly one group: the one of its category id. */
  lemma EntryInExactlyOneGroup(s: seq<LedgerEntry>, i: nat)
    requires i < |s|
    ensures var gs := GroupsInOrder(s);
      && (exists j :: 0 <= j < |gs| && s[i] in gs[j].entries)
      && forall j, j' :: 0 <= j < |gs| && 0 <= j' < |gs| && s[i] in gs[j].entries && s[i] in gs[j'].entries ==> j == j'
  {
    var gs := GroupsInOrder(s);
    var keys := CategoryKeys(s);
    KeysDistinct(s);
    KeysAreCategoryIds(s);
    assert s[i].categoryId in keys;
    var j :| 0 <= j < |keys| && keys[j] == s[i].categoryId;
    EntriesOfMembers(s, keys[j]);
    assert s[i] in gs[j].entries;
    forall j1, j2 | 0 <= j1 < |gs| && 0 <= j2 < |gs| && s[i] in gs[j1].entries && s[i] in gs[j2].entries
      ensures j1 == j2
    {
      EntriesOfMembers(s, keys[j1]);
      EntriesOfMembers(s, keys[j2]);
      assert keys[j1] == s[i].categoryId == keys[j2];
    }
  }

  /** The sorted view is ordered by category id and holds the same groups. */
  lemma GroupsSorted(s: seq<LedgerEntry>)
    ensures SortedBy(ReferenceGroups(s), GroupCategoryId, StrLe)
    ensures multiset(ReferenceGroups(s)) == multiset(GroupsInOrder(s))
  {
    StrLeIsTotalPreorder();
    SortBySorted(GroupsInOrder(s), GroupCategoryId, StrLe);
  }

  /** The group's "Bakiye" row. */
  function GroupBalance(g: EntryGroup): int {
    g.totalReceivable - g.totalDebt
  }

  /** Net of receivable over debt, entry by entry. */
  function NetReceivable(s: seq<LedgerEntry>): int {
    if s == [] then 0 else NetReceivable(s[..|s| - 1]) + (s[|s| - 1].receivable - s[|s| - 1].debt)
  }

  lemma {:induction false} NetIsTotalsDifference(s: seq<LedgerEntry>)
    ensures NetReceivable(s) == TotalReceivable(s) - TotalDebt(s)
  {
    if s != [] {
      NetIsTotalsDifference(s[..|s| - 1]);
    }
  }

  /** A group's balance is the net of receivable over debt of its entries. */
  lemma GroupBalanceIsNet(s: seq<LedgerEntry>, j: nat)
    requires j < |GroupsInOrder(s)|
    ensures GroupBalance(GroupsInOrder(s)[j]) == NetReceivable(GroupsInOrder(s)[j].entries)
  {
    NetIsTotalsDifference(GroupsInOrder(s)[j].entries);
  }

  // ---------------------------------------------------------------------
  // the component

  /** The table's local state: its copy of the entries, the form and the
      entry chosen for edit or delete. */
  class LedgerDataTable {
    var data: seq<LedgerEntry>
    var form: EntryForm
    var selected: Option<LedgerEntry>

    constructor (initialData: seq<LedgerEntry>, today: Day)
      ensures data == initialData && form == InitialForm(today) && selected.None?
    {
      data := initialData;
      form := InitialForm(today);
      selected := None;
    }

    /** The effect that copies new `initialData` in. */
    method SyncInitialData(initialData: seq<LedgerEntry>)
      modifies this
      ensures data == initialData && form == old(form) && selected == old(selected)
    {
      data := initialData;
    }

    method HandleAccountChange(accounts: seq<AccountWithCategory>, accountId: string)
      modifies this
      ensures form == AccountChanged(old(form), accounts, accountId)
      ensures data == old(data) && selected == old(selected)
    {
      form := AccountChanged(form, accounts, accountId);
    }

    method OpenEditDialog(e: LedgerEntry, show: int -> string)
      modifies this
      ensures selected == Some(e) && form == OpenEditForm(e, show) && data == old(data)
    {
      selected := Some(e);
      form := OpenEditForm(e, show);
    }

    /** `handleCreate`: `saved` is the row the insert returned, or None
      when the insert failed. A refused form changes nothing; a saved row
      goes in front and the form is reset; a failed insert leaves the list
      to the parent's refresh. */
    method HandleCreate(parse: string -> Option<int>, today: Day, saved: Option<LedgerEntry>)
      returns (r: Result<EntryPayload, FormError>)
      modifies this
      ensures r == ValidateEntry(old(form), parse)
      ensures selected == old(selected)
      ensures r.Ok? && saved.Some? ==> data == Prepend(old(data), saved.value) && form == InitialForm(today)
      ensures r.Err? || saved.None? ==> data == old(data) && form == old(form)
    {
      r := ValidateEntry(form, parse);
      if r.Ok? && saved.Some? {
        data := Prepend(data, saved.value);
        form := InitialForm(today);
      }
    }

    /** `handleEdit`: a saved row replaces the entry with the selected id,
      in place, and the selection and form are cleared. */
    method HandleEdit(parse: string -> Option<int>, today: Day, saved: Option<LedgerEntry>)
      returns (r: Result<(string, EntryPayload), FormError>)
      modifies this
      ensures r == ValidateEdit(old(selected), old(form), parse)
      ensures r.Ok? && saved.Some? ==>
        data == ReplaceById(old(data), r.value.0, saved.value) && form == InitialForm(today) && selected.None?
      ensures r.Err? || saved.None? ==> data == old(data) && form == old(form) && selected == old(selected)
    {
      r := ValidateEdit(selected, form, parse);
      if r.Ok? && saved.Some? {
        data := ReplaceById(data, r.value.0, saved.value);
        form := InitialForm(today);
        selected := None;
      }
    }

    /** `handleDelete`: the entry is removed from the list before the
      delete is sent, so it stays removed even when the delete fails; only
      a successful delete clears the selection. Nothing happens without a
      selection. */
    method HandleDelete(succeeded: bool) returns (deletedId: Option<string>)
      modifies this
      ensures old(selected).None? ==> deletedId.None? && data == old(data) && selected.None?
      ensures old(selected).Some? ==>
        && data == RemoveById(old(data), old(selected).value.id)
        && (succeeded ==> deletedId == Some(old(selected).value.id) && selected.None?)
        && (!succeeded ==> deletedId.None? && selected == old(selected))
      ensures form == old(form)
    {
      deletedId := None;
      if selected.Some? {
        var target := selected.value;
        data := RemoveById(data, target.id);
        if succeeded {
          deletedId := Some(target.id);
          selected := None;
        }
      }
    }
  }
}
