/** The in-memory updates of a ledger entry list that the ledger table
    (src/components/ledger-data-table.tsx) and the ledger page
    (src/app/accounting/ledger/page.tsx) make after a successful write:
    prepend, replace by id, remove by id, and the page's upsert. */
module LedgerList {
  import opened Common
  import opened Database

  /** No two entries share an id. */
  ghost predicate UniqueIds(s: seq<LedgerEntry>) {
    forall i, j :: 0 <= i < j < |s| ==> s[i].id != s[j].id
  }

  predicate HasId(s: seq<LedgerEntry>, id: string) {
    exists i :: 0 <= i < |s| && s[i].id == id
  }

  /** Receivable and debt summed over a list, from the back. */
  function TotalReceivable(s: seq<LedgerEntry>): int {
    if s == [] then 0 else TotalReceivable(s[..|s| - 1]) + s[|s| - 1].receivable
  }

  function TotalDebt(s: seq<LedgerEntry>): int {
    if s == [] then 0 else TotalDebt(s[..|s| - 1]) + s[|s| - 1].debt
  }

  lemma TotalsSnoc(s: seq<LedgerEntry>, e: LedgerEntry)
    ensures TotalReceivable(s + [e]) == TotalReceivable(s) + e.receivable
    ensures TotalDebt(s + [e]) == TotalDebt(s) + e.debt
  {
    assert (s + [e])[..|s|] == s;
  }

  /** `[entry, ...prev]`. */
  function Prepend(s: seq<LedgerEntry>, e: LedgerEntry): (r: seq<LedgerEntry>)
    ensures |r| == |s| + 1 && r[0] == e && r[1..] == s
  {
    [e] + s
  }

  /** `prev.map(x => x.id === id ? e : x)`: every entry with that id is
      replaced, every other one is kept, and length and order are unchanged. */
  function ReplaceById(s: seq<LedgerEntry>, id: string, e: LedgerEntry): (r: seq<LedgerEntry>)
    ensures |r| == |s|
    ensures forall i :: 0 <= i < |s| ==> r[i] == (if s[i].id == id then e else s[i])
  {
    if s == [] then [] else [if s[0].id == id then e else s[0]] + ReplaceById(s[1..], id, e)
  }

  /** `prev.filter(x => x.id !== id)`. */
  function RemoveById(s: seq<LedgerEntry>, id: string): (r: seq<LedgerEntry>)
    ensures |r| <= |s|
    ensures forall x :: x in r <==> x in s && x.id != id
    ensures !HasId(s, id) ==> r == s
  {
    if s == [] then []
    else if s[0].id == id then RemoveById(s[1..], id)
    else [s[0]] + RemoveById(s[1..], id)
  }

  /** The filter works entry by entry and keeps the list's order: removing
      from a concatenation is the concatenation of the removals. */
  lemma {:induction false} RemoveByIdAppend(a: seq<LedgerEntry>, b: seq<LedgerEntry>, id: string)
    ensures RemoveById(a + b, id) == RemoveById(a, id) + RemoveById(b, id)
    decreases |a|
  {
    if a == [] {
      assert a + b == b;
      assert RemoveById(a, id) + RemoveById(b, id) == RemoveById(b, id);
    } else {
      var ab := a + b;
      assert ab[0] == a[0];
      assert ab[1..] == a[1..] + b;
      RemoveByIdAppend(a[1..], b, id);
      if a[0].id == id {
        assert RemoveById(ab, id) == RemoveById(a[1..] + b, id);
      } else {
        assert RemoveById(ab, id) == [a[0]] + RemoveById(a[1..] + b, id);
        assert RemoveById(a, id) == [a[0]] + RemoveById(a[1..], id);
      }
    }
  }

  /** A single entry with the id goes; one with another id stays. */
  lemma RemoveByIdSingle(x: LedgerEntry, id: string)
    ensures RemoveById([x], id) == (if x.id == id then [] else [x])
  {
    assert [x][1..] == [];
  }

  /** The page's `handleEntryAdded`: an entry whose id is already listed
      replaces it in place, otherwise it goes in front. */
  function Upsert(s: seq<LedgerEntry>, e: LedgerEntry): seq<LedgerEntry> {
    if HasId(s, e.id) then ReplaceById(s, e.id, e) else Prepend(s, e)
  }

  /** An entry whose id the rest does not use keeps ids unique in front. */
  lemma ConsUnique(x: LedgerEntry, rest: seq<LedgerEntry>)
    requires UniqueIds(rest)
    requires forall y :: y in rest ==> y.id != x.id
    ensures UniqueIds([x] + rest)
  {
    var r := [x] + rest;
    forall i, j | 0 <= i < j < |r| ensures r[i].id != r[j].id {
      assert r[j] == rest[j - 1];
      if i > 0 {
        assert r[i] == rest[i - 1];
      }
    }
  }

  /** Removing leaves no entry with that id, and keeps ids unique. */
  lemma {:induction false} RemoveKeepsUnique(s: seq<LedgerEntry>, id: string)
    requires UniqueIds(s)
    ensures UniqueIds(RemoveById(s, id))
    ensures !HasId(RemoveById(s, id), id)
    decreases |s|
  {
    var r := RemoveById(s, id);
    if s != [] {
      var tail := s[1..];
      assert UniqueIds(tail) by {
        forall i, j | 0 <= i < j < |tail| ensures tail[i].id != tail[j].id {
          assert tail[i] == s[i + 1] && tail[j] == s[j + 1];
        }
      }
      RemoveKeepsUnique(tail, id);
      var rest := RemoveById(tail, id);
      if s[0].id != id {
        forall y | y in rest ensures y.id != s[0].id {
          var k :| 0 <= k < |tail| && tail[k] == y;
          assert s[k + 1] == y;
        }
        ConsUnique(s[0], rest);
      }
    }
    forall k | 0 <= k < |r| ensures r[k].id != id {
      assert r[k] in r;
    }
  }

  /** An upsert keeps ids unique, lists the new entry, and either keeps
      the length (the id was listed) or grows by one in front. */
  lemma UpsertKeepsUnique(s: seq<LedgerEntry>, e: LedgerEntry)
    requires UniqueIds(s)
    ensures UniqueIds(Upsert(s, e))
    ensures e in Upsert(s, e)
    ensures HasId(s, e.id) ==> |Upsert(s, e)| == |s|
    ensures !HasId(s, e.id) ==> Upsert(s, e) == [e] + s
  {
    var r := Upsert(s, e);
    if HasId(s, e.id) {
      var k :| 0 <= k < |s| && s[k].id == e.id;
      assert r[k] == e;
      forall i, j | 0 <= i < j < |r| ensures r[i].id != r[j].id {
        assert r[i].id == s[i].id && r[j].id == s[j].id;
      }
    } else {
      assert r[0] == e;
      forall i, j | 0 <= i < j < |r| ensures r[i].id != r[j].id {
        if i == 0 {
          assert r[j] == s[j - 1];
        } else {
          assert r[i] == s[i - 1] && r[j] == s[j - 1];
        }
      }
    }
  }

  /** An upsert of an already listed id changes only the entry carrying it. */
  lemma UpsertReplacesInPlace(s: seq<LedgerEntry>, e: LedgerEntry, i: nat)
    requires i < |s| && s[i].id == e.id
    ensures Upsert(s, e)[i] == e
    ensures forall j :: 0 <= j < |s| && s[j].id != e.id ==> Upsert(s, e)[j] == s[j]
  {
  }

  /** Deleting what was just upserted into a list without that id gives
      back the list. */
  lemma RemoveUndoesNewUpsert(s: seq<LedgerEntry>, e: LedgerEntry)
    requires !HasId(s, e.id)
    ensures RemoveById(Upsert(s, e), e.id) == s
  {
    assert Upsert(s, e) == [e] + s;
    assert ([e] + s)[1..] == s;
  }
}
