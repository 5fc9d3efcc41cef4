/** The categories page (src/app/accounting/categories/page.tsx): the
    search filter, the conversion between the form's advance period in
    weeks and the stored period in days, the create and edit guards, the
    edit payload and the edit form. */
module CategoriesPage {
  import opened Common
  import opened Database

  /** A category row as the page holds it: the entry type column may be
      absent from a loaded row, which the edit handler checks for. */
  datatype CategoryRow = CategoryRow(id: string, name: string, entryType: Option<EntryType>, advancePeriodDays: Option<int>)

  predicate CategoryMatches(c: CategoryRow, query: string, norm: string -> string) {
    Includes(norm(c.id), norm(query)) || Includes(norm(c.name), norm(query))
  }

  /** `filteredCategories`: all categories for an empty query, otherwise
      those whose normalized id or name contains the normalized query, in
      order. */
  function FilteredCategories(s: seq<CategoryRow>, query: string, norm: string -> string): (r: seq<CategoryRow>)
    ensures query == "" ==> r == s
    ensures query != "" ==> forall c :: c in r <==> c in s && CategoryMatches(c, query, norm)
    ensures |r| <= |s|
  {
    if query == "" || s == [] then s
    else
      FilteredCategories(s[..|s| - 1], query, norm)
        + (if CategoryMatches(s[|s| - 1], query, norm) then [s[|s| - 1]] else [])
  }

  // ---------------------------------------------------------------------
  // advance period

  /** The form's weeks field: "" or a whole number of weeks. */
  type WeeksField = Option<int>

  /** The days sent to the database: null for "", else weeks × 7. */
  function WeeksToDays(weeks: WeeksField): (days: Option<int>)
    ensures days.None? <==> weeks.None?
    ensures days.Some? ==> days.value == 7 * weeks.value
  {
    if weeks.None? then None else Some(weeks.value * 7)
  }

  /** `Math.round(days / 7)`, JavaScript rounding halves upward, for an
      integer day count. */
  function RoundDiv7(d: int): (r: int)
    ensures 7 * r - 3 <= d <= 7 * r + 3
  {
    (2 * d + 7) / 14
  }

  /** The weeks shown when a category is edited: "" for null days,
      otherwise the whole number of weeks nearest to the days. */
  function WeeksOfDays(days: Option<int>): (weeks: WeeksField)
    ensures weeks.None? <==> days.None?
    ensures weeks.Some? ==> 7 * weeks.value - 3 <= days.value <= 7 * weeks.value + 3
  {
    if days.None? then None else Some(RoundDiv7(days.value))
  }

  /** The nearest whole week is unique. */
  lemma NearestWeekUnique(d: int, w: int)
    requires 7 * w - 3 <= d <= 7 * w + 3
    ensures WeeksOfDays(Some(d)) == Some(w)
  {
    var q := WeeksOfDays(Some(d)).value;
    assert 7 * q - 3 <= d <= 7 * q + 3;
    assert -6 <= 7 * (q - w) <= 6;
  }

  /** Weeks entered, stored as days and loaded back give the same weeks. */
  lemma WeeksRoundTrip(weeks: WeeksField)
    ensures WeeksOfDays(WeeksToDays(weeks)) == weeks
  {
    if weeks.Some? {
      NearestWeekUnique(7 * weeks.value, weeks.value);
    }
  }

  /** A stored period of whole weeks survives an unchanged edit; any other
      period moves to the nearest multiple of seven, by at most three days. */
  lemma DaysRoundTrip(days: Option<int>)
    ensures days.Some? && days.value % 7 == 0 ==> WeeksToDays(WeeksOfDays(days)) == days
    ensures days.Some? ==> -3 <= WeeksToDays(WeeksOfDays(days)).value - days.value <= 3
  {
    if days.Some? && days.value % 7 == 0 {
      NearestWeekUnique(days.value, days.value / 7);
    }
  }

  // ---------------------------------------------------------------------
  // create and edit

  datatype CategoryForm = CategoryForm(id: string, name: string, entryType: EntryType, weeks: WeeksField)

  /** The form after a successful save, and before any edit. */
  const EmptyForm := CategoryForm("", "", Both, None)

  datatype InsertPayload = InsertPayload(id: string, name: string, entryType: EntryType, advancePeriodDays: Option<int>)

  /** `handleCreate`'s insert: refused without an id or a name. */
  function CreatePayload(f: CategoryForm): (r: Option<InsertPayload>)
    ensures r.None? <==> f.id == "" || f.name == ""
    ensures r.Some? ==> r.value == InsertPayload(f.id, f.name, f.entryType, WeeksToDays(f.weeks))
  {
    if f.id == "" || f.name == "" then None
    else Some(InsertPayload(f.id, f.name, f.entryType, WeeksToDays(f.weeks)))
  }

  /** How `handleCreate` ends, given the insert's error code. */
  function CreateOutcome(f: CategoryForm, insertError: Option<string>): (o: SaveOutcome)
    ensures o == IncompleteForm <==> CreatePayload(f).None?
    ensures o == DuplicateCode <==> CreatePayload(f).Some? && insertError == Some(UniqueViolation)
    ensures o == Saved <==> CreatePayload(f).Some? && insertError.None?
  {
    if CreatePayload(f).None? then IncompleteForm else InsertOutcome(insertError)
  }

  /** `updatePayload`: the name and the days, and the entry type only when
      the selected row carries one. It has no id field. */
  datatype UpdatePayload = UpdatePayload(name: string, entryType: Option<EntryType>, advancePeriodDays: Option<int>)

  /** `handleEdit`'s update: refused without a selection or a name; it
      targets the selected row's id. */
  function EditPayload(selected: Option<CategoryRow>, f: CategoryForm): (r: Option<(string, UpdatePayload)>)
    ensures r.None? <==> selected.None? || f.name == ""
    ensures r.Some? ==> r.value.0 == selected.value.id
    ensures r.Some? ==> r.value.1.name == f.name && r.value.1.advancePeriodDays == WeeksToDays(f.weeks)
    ensures r.Some? ==> (r.value.1.entryType.Some? <==> selected.value.entryType.Some?)
    ensures r.Some? && r.value.1.entryType.Some? ==> r.value.1.entryType.value == f.entryType
  {
    if selected.None? || f.name == "" then None
    else
      var payload := UpdatePayload(f.name, None, WeeksToDays(f.weeks));
      Some((selected.value.id, if selected.value.entryType.Some? then payload.(entryType := Some(f.entryType)) else payload))
  }

  /** `openEditDialog`'s form: a missing entry type shows as "both". */
  function EditForm(c: CategoryRow): (f: CategoryForm)
    ensures f.id == c.id && f.name == c.name
    ensures f.entryType == (if c.entryType.Some? then c.entryType.value else Both)
    ensures f.weeks == WeeksOfDays(c.advancePeriodDays)
  {
    CategoryForm(c.id, c.name, if c.entryType.Some? then c.entryType.value else Both, WeeksOfDays(c.advancePeriodDays))
  }

  /** Saving the edit form of a named category unchanged writes back its
      own name, entry type and period when the period is whole weeks. */
  lemma EditRoundTrip(c: CategoryRow)
    requires c.name != ""
    requires c.advancePeriodDays.Some? ==> c.advancePeriodDays.value % 7 == 0
    ensures EditPayload(Some(c), EditForm(c)) == Some((c.id, UpdatePayload(c.name, c.entryType, c.advancePeriodDays)))
  {
    DaysRoundTrip(c.advancePeriodDays);
  }

  /** The page's dialog state. */
  class CategoryDialogs {
    var searchQuery: string
    var formData: CategoryForm
    var selectedCategory: Option<CategoryRow>
    var isCreateOpen: bool
    var isEditOpen: bool

    constructor ()
      ensures searchQuery == "" && formData == EmptyForm && selectedCategory.None? && !isCreateOpen && !isEditOpen
    {
      searchQuery := "";
      formData := EmptyForm;
      selectedCategory := None;
      isCreateOpen := false;
      isEditOpen := false;
    }

    method ClearFilters()
      modifies this
      ensures searchQuery == "" && formData == old(formData) && selectedCategory == old(selectedCategory)
      ensures isCreateOpen == old(isCreateOpen) && isEditOpen == old(isEditOpen)
    {
      searchQuery := "";
    }

    method OpenEditDialog(c: CategoryRow)
      modifies this
      ensures selectedCategory == Some(c) && formData == EditForm(c) && isEditOpen
      ensures searchQuery == old(searchQuery) && isCreateOpen == old(isCreateOpen)
    {
      selectedCategory := Some(c);
      formData := CategoryForm(c.id, c.name, if c.entryType.Some? then c.entryType.value else Both, WeeksOfDays(c.advancePeriodDays));
      isEditOpen := true;
    }

    /** `handleCreate` given the insert's error code: a save closes the
      dialog and clears the form; every other outcome keeps both. */
    method HandleCreate(insertError: Option<string>) returns (o: SaveOutcome, sent: Option<InsertPayload>)
      modifies this
      ensures sent == CreatePayload(old(formData))
      ensures o == CreateOutcome(old(formData), insertError)
      ensures o == Saved ==> !isCreateOpen && formData == EmptyForm
      ensures o != Saved ==> isCreateOpen == old(isCreateOpen) && formData == old(formData)
      ensures searchQuery == old(searchQuery) && selectedCategory == old(selectedCategory) && isEditOpen == old(isEditOpen)
    {
      sent := CreatePayload(formData);
      if sent.None? {
        return IncompleteForm, sent;
      }
      o := InsertOutcome(insertError);
      if o == Saved {
        isCreateOpen := false;
        formData := EmptyForm;
      }
    }

    /** `handleEdit` given whether the update succeeded: success closes
      the dialog, drops the selection and clears the form. */
    method HandleEdit(succeeded: bool) returns (sent: Option<(string, UpdatePayload)>)
      modifies this
      ensures sent == EditPayload(old(selectedCategory), old(formData))
      ensures sent.Some? && succeeded ==> !isEditOpen && selectedCategory.None? && formData == EmptyForm
      ensures sent.None? || !succeeded ==> isEditOpen == old(isEditOpen) && selectedCategory == old(selectedCategory) && formData == old(formData)
      ensures searchQuery == old(searchQuery) && isCreateOpen == old(isCreateOpen)
    {
      sent := EditPayload(selectedCategory, formData);
      if sent.Some? && succeeded {
        isEditOpen := false;
        selectedCategory := None;
        formData := EmptyForm;
      }
    }
  }
}
