/** The older categories page (src/app/muhasebe/kategoriler/page.tsx): a
    lower-case search filter, the create guard and an edit that changes
    only the name. `toLowerCase` is a parameter. */
module KategorilerPage {
  import opened Common
  import opened Database

  predicate CategoryMatches(c: Category, query: string, lower: string -> string) {
    Includes(lower(c.id), lower(query)) || Includes(lower(c.name), lower(query))
  }

  /** `filteredCategories`: all categories for an empty query, otherwise
      those whose lower-cased id or name contains the lower-cased query, in
      order. */
  function FilteredCategories(s: seq<Category>, query: string, lower: string -> string): (r: seq<Category>)
    ensures query == "" ==> r == s
    ensures query != "" ==> forall c :: c in r <==> c in s && CategoryMatches(c, query, lower)
    ensures |r| <= |s|
  {
    if query == "" || s == [] then s
    else
      FilteredCategories(s[..|s| - 1], query, lower)
        + (if CategoryMatches(s[|s| - 1], query, lower) then [s[|s| - 1]] else [])
  }

  /** Filtering with the same query twice changes nothing. */
  lemma {:induction false} FilterIdempotent(s: seq<Category>, query: string, lower: string -> string)
    ensures FilteredCategories(FilteredCategories(s, query, lower), query, lower) == FilteredCategories(s, query, lower)
  {
    if query != "" && s != [] {
      var init := s[..|s| - 1];
      var last := s[|s| - 1];
      var f := FilteredCategories(init, query, lower);
      FilterIdempotent(init, query, lower);
      if CategoryMatches(last, query, lower) {
        assert (f + [last])[..|f + [last]| - 1] == f;
      } else {
        assert FilteredCategories(s, query, lower) == f;
      }
    }
  }

  datatype CategoryForm = CategoryForm(id: string, name: string)

  /** `handleCreate`'s insert: the id and the name, refused unless both
      are given. */
  function CreatePayload(f: CategoryForm): (r: Option<(string, string)>)
    ensures r.None? <==> f.id == "" || f.name == ""
    ensures r.Some? ==> r.value == (f.id, f.name)
  {
    if f.id == "" || f.name == "" then None else Some((f.id, f.name))
  }

  /** How `handleCreate` ends, given the insert's error code. */
  function CreateOutcome(f: CategoryForm, insertError: Option<string>): (o: SaveOutcome)
    ensures o == IncompleteForm <==> f.id == "" || f.name == ""
    ensures o == DuplicateCode <==> f.id != "" && f.name != "" && insertError == Some(UniqueViolation)
    ensures o == Saved <==> f.id != "" && f.name != "" && insertError.None?
  {
    if CreatePayload(f).None? then IncompleteForm else InsertOutcome(insertError)
  }

  /** `handleEdit`'s update: the selected category's id and the new name,
      and nothing else; refused without a selection or a name. */
  function EditPayload(selected: Option<Category>, f: CategoryForm): (r: Option<(string, string)>)
    ensures r.None? <==> selected.None? || f.name == ""
    ensures r.Some? ==> r.value == (selected.value.id, f.name)
  {
    if selected.None? || f.name == "" then None else Some((selected.value.id, f.name))
  }

  /** The row an update leaves behind: only the name changes. */
  function ApplyEdit(c: Category, name: string): (r: Category)
    ensures r.name == name
    ensures r.(name := c.name) == c
  {
    c.(name := name)
  }

  /** Editing a category to its own name leaves it as it was. */
  lemma EditOwnNameKeepsRow(c: Category)
    requires c.name != ""
    ensures EditPayload(Some(c), CategoryForm(c.id, c.name)) == Some((c.id, c.name))
    ensures ApplyEdit(c, EditPayload(Some(c), CategoryForm(c.id, c.name)).value.1) == c
  {
  }
}
