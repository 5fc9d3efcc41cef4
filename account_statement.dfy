/** The account statement report (src/lib/reports/account-statement.ts).
    The aggregation runs in the database behind the `get_account_statement`
    remote procedure; the client only maps its result. The documented
    meaning of that result is stated here as a reference specification over
    an account's postings, with the invariants every statement satisfies. */
module AccountStatement {
  import opened Common
  import opened Database

  /** One entry of a statement, as the client exposes it. */
  datatype StatementEntry = StatementEntry(
    id: string,
    date: string,
    statement: Option<string>,
    debt: int,
    receivable: int,
    net: int,
    runningNet: int)

  datatype StatementData = StatementData(
    openingNet: int,
    entries: seq<StatementEntry>,
    totalDebt: int,
    totalReceivable: int,
    closingNet: int)

  /** One entry as the remote procedure returns it. */
  datatype RpcRow = RpcRow(
    id: string,
    date: string,
    statement: Option<string>,
    debt: int,
    receivable: int,
    runningNet: int)

  /** The procedure's result; `entries` may be absent. */
  datatype RpcPayload = RpcPayload(
    openingNet: int,
    entries: Option<seq<RpcRow>>,
    totalDebt: int,
    totalReceivable: int,
    closingNet: int)

  /** What the SDK hands back: the payload, or an error message. */
  datatype RpcResponse = RpcSuccess(data: RpcPayload) | RpcFailure(message: string)

  /** The named arguments of the `get_account_statement` call. */
  datatype RpcArgs = RpcArgs(pAccountId: string, pStartDate: string, pEndDate: string)

  function StatementRpcArgs(p: StatementParameters): (a: RpcArgs)
    ensures a.pAccountId == p.accountId && a.pStartDate == p.startDate && a.pEndDate == p.endDate
  {
    RpcArgs(p.accountId, p.startDate, p.endDate)
  }

  const StatementErrorPrefix := "Failed to fetch account statement: "

  /** The per-entry mapping: fields are copied, `net` is derived. */
  function MapEntry(e: RpcRow): StatementEntry {
    StatementEntry(e.id, e.date, e.statement, e.debt, e.receivable, e.debt - e.receivable, e.runningNet)
  }

  function MapRows(rows: seq<RpcRow>): (r: seq<StatementEntry>)
    ensures |r| == |rows| && forall i :: 0 <= i < |rows| ==> r[i] == MapEntry(rows[i])
  {
    seq(|rows|, i requires 0 <= i < |rows| => MapEntry(rows[i]))
  }

  /** `raw.entries || []`. */
  function RowsOf(raw: RpcPayload): seq<RpcRow> {
    if raw.entries.Some? then raw.entries.value else []
  }

  /** `fetchAccountStatement` after the call returned: an error becomes a
      failure with the prefixed message; otherwise the entries keep the
      procedure's order and count, id, date, statement, both legs and the
      running net are copied, net is debt minus receivable, a missing
      entries array gives no entries, and every total is taken as it is. */
  function FetchAccountStatement(resp: RpcResponse): (r: Result<StatementData, string>)
    ensures resp.RpcFailure? <==> r.Err?
    ensures resp.RpcFailure? ==> r.error == StatementErrorPrefix + resp.message
    ensures resp.RpcSuccess? ==>
      var raw := resp.data;
      var rows := RowsOf(raw);
      && |r.value.entries| == |rows|
      && (forall i :: 0 <= i < |rows| ==>
            && r.value.entries[i].id == rows[i].id
            && r.value.entries[i].date == rows[i].date
            && r.value.entries[i].statement == rows[i].statement
            && r.value.entries[i].debt == rows[i].debt
            && r.value.entries[i].receivable == rows[i].receivable
            && r.value.entries[i].net == rows[i].debt - rows[i].receivable
            && r.value.entries[i].runningNet == rows[i].runningNet)
      && (raw.entries.None? ==> r.value.entries == [])
      && r.value.openingNet == raw.openingNet
      && r.value.totalDebt == raw.totalDebt
      && r.value.totalReceivable == raw.totalReceivable
      && r.value.closingNet == raw.closingNet
  {
    match resp
    case RpcFailure(msg) => Err(StatementErrorPrefix + msg)
    case RpcSuccess(raw) =>
      Ok(StatementData(raw.openingNet, MapRows(RowsOf(raw)), raw.totalDebt, raw.totalReceivable, raw.closingNet))
  }

  // ---------------------------------------------------------------------
  // The documented invariants of a statement

  function SumNet(es: seq<StatementEntry>): int {
    if es == [] then 0 else SumNet(es[..|es| - 1]) + es[|es| - 1].net
  }

  function SumDebt(es: seq<StatementEntry>): int {
    if es == [] then 0 else SumDebt(es[..|es| - 1]) + es[|es| - 1].debt
  }

  function SumReceivable(es: seq<StatementEntry>): int {
    if es == [] then 0 else SumReceivable(es[..|es| - 1]) + es[|es| - 1].receivable
  }

  /** The invariants the type's comments promise: each net is debt minus
      receivable, each running net is the opening net plus the nets up to and
      including that entry, the closing net is the last running net (the
      opening net when there are none), and the totals are column sums. */
  ghost predicate Consistent(d: StatementData) {
    && (forall i :: 0 <= i < |d.entries| ==> d.entries[i].net == d.entries[i].debt - d.entries[i].receivable)
    && (forall i :: 0 <= i < |d.entries| ==> d.entries[i].runningNet == d.openingNet + SumNet(d.entries[..i + 1]))
    && d.closingNet == (if d.entries == [] then d.openingNet else d.entries[|d.entries| - 1].runningNet)
    && d.totalDebt == SumDebt(d.entries)
    && d.totalReceivable == SumReceivable(d.entries)
  }

  lemma {:induction false} SumNetIsDebtMinusReceivable(es: seq<StatementEntry>)
    requires forall i :: 0 <= i < |es| ==> es[i].net == es[i].debt - es[i].receivable
    ensures SumNet(es) == SumDebt(es) - SumReceivable(es)
  {
    if es != [] {
      SumNetIsDebtMinusReceivable(es[..|es| - 1]);
    }
  }

  /** In a consistent statement the closing net is the opening net plus the
      total debt minus the total receivable. */
  lemma ClosingNetBalances(d: StatementData)
    requires Consistent(d)
    ensures d.closingNet == d.openingNet + d.totalDebt - d.totalReceivable
  {
    SumNetIsDebtMinusReceivable(d.entries);
    if d.entries != [] {
      assert d.entries[..|d.entries|] == d.entries;
    }
  }

  lemma SumNetSnoc(es: seq<StatementEntry>, i: nat)
    requires i < |es|
    ensures SumNet(es[..i + 1]) == SumNet(es[..i]) + es[i].net
  {
    assert es[..i + 1][..i] == es[..i];
  }

  /** Each running net is its predecessor's (the opening net for the first)
      plus the entry's own net. */
  lemma RunningNetSteps(d: StatementData, i: nat)
    requires Consistent(d)
    requires i < |d.entries|
    ensures d.entries[i].runningNet == (if i == 0 then d.openingNet else d.entries[i - 1].runningNet) + d.entries[i].net
  {
    SumNetSnoc(d.entries, i);
    if i > 0 {
      assert d.entries[i - 1].runningNet == d.openingNet + SumNet(d.entries[..i - 1 + 1]);
    } else {
      assert d.entries[..0] == [];
    }
  }

  /** A procedure result whose rows already obey the documented invariants
      is mapped to a consistent statement: the client's copy keeps them. */
  ghost predicate PayloadConsistent(raw: RpcPayload) {
    var rows := RowsOf(raw);
    && (forall i :: 0 <= i < |rows| ==> rows[i].runningNet == raw.openingNet + SumNet(MapRows(rows[..i + 1])))
    && raw.closingNet == (if rows == [] then raw.openingNet else rows[|rows| - 1].runningNet)
    && raw.totalDebt == SumDebt(MapRows(rows))
    && raw.totalReceivable == SumReceivable(MapRows(rows))
  }

  lemma MapRowsPrefix(rows: seq<RpcRow>, k: nat)
    requires k <= |rows|
    ensures MapRows(rows)[..k] == MapRows(rows[..k])
  {
  }

  lemma FetchKeepsConsistency(raw: RpcPayload)
    requires PayloadConsistent(raw)
    ensures Consistent(FetchAccountStatement(RpcSuccess(raw)).value)
  {
    var rows := RowsOf(raw);
    var es := MapRows(rows);
    var d := StatementData(raw.openingNet, es, raw.totalDebt, raw.totalReceivable, raw.closingNet);
    assert FetchAccountStatement(RpcSuccess(raw)) == Ok(d);
    forall i | 0 <= i < |es| ensures es[i].runningNet == raw.openingNet + SumNet(es[..i + 1]) {
      MapRowsPrefix(rows, i + 1);
    }
  }

  // ---------------------------------------------------------------------
  // Reference specification over an account's postings

  /** A posting of one account: its day, its memo and its two legs. */
  datatype Posting = Posting(id: string, day: Day, statement: Option<string>, debt: int, receivable: int)

  function PostingDebt(ps: seq<Posting>): int {
    if ps == [] then 0 else PostingDebt(ps[..|ps| - 1]) + ps[|ps| - 1].debt
  }

  function PostingReceivable(ps: seq<Posting>): int {
    if ps == [] then 0 else PostingReceivable(ps[..|ps| - 1]) + ps[|ps| - 1].receivable
  }

  function Before(ps: seq<Posting>, start: Day): (r: seq<Posting>)
    ensures forall p :: p in r <==> p in ps && p.day < start
  {
    if ps == [] then []
    else Before(ps[..|ps| - 1], start) + (if ps[|ps| - 1].day < start then [ps[|ps| - 1]] else [])
  }

  function Within(ps: seq<Posting>, start: Day, end: Day): (r: seq<Posting>)
    ensures forall p :: p in r <==> p in ps && start <= p.day <= end
  {
    if ps == [] then []
    else Within(ps[..|ps| - 1], start, end) + (if start <= ps[|ps| - 1].day <= end then [ps[|ps| - 1]] else [])
  }

  /** The opening net: debts before the window minus receivables before it. */
  function OpeningNet(ps: seq<Posting>, start: Day): int {
    PostingDebt(Before(ps, start)) - PostingReceivable(Before(ps, start))
  }

  /** The statement entries of the postings, in their given order, with the
      running net carried from `opening`. */
  function Entries(opening: int, ps: seq<Posting>, fmtDay: Day -> string): (r: seq<StatementEntry>)
    ensures |r| == |ps|
    ensures forall i :: 0 <= i < |r| ==> r[i].net == r[i].debt - r[i].receivable
  {
    if ps == [] then []
    else
      var prev := Entries(opening, ps[..|ps| - 1], fmtDay);
      var last := ps[|ps| - 1];
      var running := (if prev == [] then opening else prev[|prev| - 1].runningNet) + last.debt - last.receivable;
      prev + [StatementEntry(last.id, fmtDay(last.day), last.statement, last.debt, last.receivable, last.debt - last.receivable, running)]
  }

  /** What the procedure is documented to compute for the window
      [start, end], with postings listed in chronological order. */
  function ReferenceStatement(ps: seq<Posting>, start: Day, end: Day, fmtDay: Day -> string): (r: StatementData)
    ensures r.openingNet == OpeningNet(ps, start)
    ensures |r.entries| == |Within(ps, start, end)|
    ensures r.totalDebt == PostingDebt(Within(ps, start, end))
    ensures r.totalReceivable == PostingReceivable(Within(ps, start, end))
  {
    var opening := OpeningNet(ps, start);
    var es := Entries(opening, Within(ps, start, end), fmtDay);
    EntriesSums(opening, Within(ps, start, end), fmtDay);
    StatementData(opening, es, SumDebt(es), SumReceivable(es), if es == [] then opening else es[|es| - 1].runningNet)
  }

  lemma {:induction false} EntriesSums(opening: int, ps: seq<Posting>, fmtDay: Day -> string)
    ensures SumDebt(Entries(opening, ps, fmtDay)) == PostingDebt(ps)
    ensures SumReceivable(Entries(opening, ps, fmtDay)) == PostingReceivable(ps)
  {
    if ps != [] {
      var es := Entries(opening, ps, fmtDay);
      EntriesSums(opening, ps[..|ps| - 1], fmtDay);
      assert es[..|es| - 1] == Entries(opening, ps[..|ps| - 1], fmtDay);
    }
  }

  /** Every running net is `opening` plus the nets up to that entry. */
  ghost predicate RunningFrom(opening: int, es: seq<StatementEntry>) {
    forall i :: 0 <= i < |es| ==> es[i].runningNet == opening + SumNet(es[..i + 1])
  }

  lemma {:induction false} EntriesRunning(opening: int, ps: seq<Posting>, fmtDay: Day -> string)
    ensures RunningFrom(opening, Entries(opening, ps, fmtDay))
  {
    if ps != [] {
      var ps' := ps[..|ps| - 1];
      EntriesRunning(opening, ps', fmtDay);
      var es := Entries(opening, ps, fmtDay);
      var prev := Entries(opening, ps', fmtDay);
      assert es[..|es| - 1] == prev;
      forall i | 0 <= i < |es| ensures es[i].runningNet == opening + SumNet(es[..i + 1]) {
        if i < |es| - 1 {
          assert es[i] == prev[i];
          assert es[..i + 1] == prev[..i + 1];
        } else {
          SumNetSnoc(es, i);
          assert es[..i] == prev;
          if prev != [] {
            var j := |prev| - 1;
            assert prev[j].runningNet == opening + SumNet(prev[..j + 1]);
            assert prev[..j + 1] == prev;
          } else {
            assert es[..i] == [];
          }
        }
      }
    }
  }

  /** Postings listed in chronological order: days never decrease. */
  ghost predicate Chronological(ps: seq<Posting>) {
    forall i, j :: 0 <= i < j < |ps| ==> ps[i].day <= ps[j].day
  }

  /** Entry `i` is the statement line of posting `i`: same id, memo and
      legs, and the posting's day as its date. */
  ghost predicate EntriesFollow(es: seq<StatementEntry>, ps: seq<Posting>, fmtDay: Day -> string) {
    && |es| == |ps|
    && forall i :: 0 <= i < |es| ==>
         && es[i].id == ps[i].id
         && es[i].date == fmtDay(ps[i].day)
         && es[i].statement == ps[i].statement
         && es[i].debt == ps[i].debt
         && es[i].receivable == ps[i].receivable
  }

  lemma {:induction false} EntriesFollowPostings(opening: int, ps: seq<Posting>, fmtDay: Day -> string)
    ensures EntriesFollow(Entries(opening, ps, fmtDay), ps, fmtDay)
  {
    if ps != [] {
      var ps' := ps[..|ps| - 1];
      EntriesFollowPostings(opening, ps', fmtDay);
      var es := Entries(opening, ps, fmtDay);
      assert es[..|es| - 1] == Entries(opening, ps', fmtDay);
      forall i | 0 <= i < |es| - 1 ensures es[i] == Entries(opening, ps', fmtDay)[i] && ps[i] == ps'[i] {
      }
    }
  }

  /** The window keeps the chronological order of the postings. */
  lemma {:induction false} WithinKeepsOrder(ps: seq<Posting>, start: Day, end: Day)
    requires Chronological(ps)
    ensures Chronological(Within(ps, start, end))
  {
    if ps != [] {
      var ps' := ps[..|ps| - 1];
      var last := ps[|ps| - 1];
      assert Chronological(ps') by {
        forall i, j | 0 <= i < j < |ps'| ensures ps'[i].day <= ps'[j].day {
          assert ps'[i] == ps[i] && ps'[j] == ps[j];
        }
      }
      WithinKeepsOrder(ps', start, end);
      var w' := Within(ps', start, end);
      if start <= last.day <= end {
        var w := w' + [last];
        assert Within(ps, start, end) == w;
        forall i, j | 0 <= i < j < |w| ensures w[i].day <= w[j].day {
          if j < |w'| {
            assert w[i] == w'[i] && w[j] == w'[j];
          } else {
            assert w[i] == w'[i];
            assert w'[i] in ps';
            var k :| 0 <= k < |ps'| && ps'[k] == w'[i];
            assert ps[k] == w'[i] && ps[|ps| - 1] == last;
          }
        }
      } else {
        assert Within(ps, start, end) == w' + [];
        assert w' + [] == w';
      }
    }
  }

  /** The reference statement satisfies every documented invariant: the
      running, closing and total identities of `Consistent`, one entry per
      posting of the window in the window's order, and, when the postings
      are listed chronologically, entries sorted chronologically. */
  lemma ReferenceIsConsistent(ps: seq<Posting>, start: Day, end: Day, fmtDay: Day -> string)
    ensures Consistent(ReferenceStatement(ps, start, end, fmtDay))
    ensures EntriesFollow(ReferenceStatement(ps, start, end, fmtDay).entries, Within(ps, start, end), fmtDay)
    ensures Chronological(ps) ==> Chronological(Within(ps, start, end))
  {
    EntriesRunning(OpeningNet(ps, start), Within(ps, start, end), fmtDay);
    EntriesFollowPostings(OpeningNet(ps, start), Within(ps, start, end), fmtDay);
    if Chronological(ps) {
      WithinKeepsOrder(ps, start, end);
    }
  }

  /** With chronologically listed postings and a date formatter that keeps
      the order of days (as ISO `yyyy-MM-dd` text does), the dates of the
      reference statement's entries never decrease. */
  lemma ReferenceDatesAscend(ps: seq<Posting>, start: Day, end: Day, fmtDay: Day -> string)
    requires Chronological(ps)
    requires forall a: Day, b: Day :: a <= b ==> StrLe(fmtDay(a), fmtDay(b))
    ensures var es := ReferenceStatement(ps, start, end, fmtDay).entries;
      forall i, j :: 0 <= i < j < |es| ==> StrLe(es[i].date, es[j].date)
  {
    ReferenceIsConsistent(ps, start, end, fmtDay);
    var w := Within(ps, start, end);
    var es := ReferenceStatement(ps, start, end, fmtDay).entries;
    forall i, j | 0 <= i < j < |es| ensures StrLe(es[i].date, es[j].date) {
      assert es[i].date == fmtDay(w[i].day) && es[j].date == fmtDay(w[j].day);
      assert w[i].day <= w[j].day;
    }
  }

  /** The closing net of the reference statement is the opening net plus the
      window's debts minus its receivables. */
  lemma ReferenceClosing(ps: seq<Posting>, start: Day, end: Day, fmtDay: Day -> string)
    ensures var d := ReferenceStatement(ps, start, end, fmtDay);
      d.closingNet == OpeningNet(ps, start) + PostingDebt(Within(ps, start, end)) - PostingReceivable(Within(ps, start, end))
  {
    ReferenceIsConsistent(ps, start, end, fmtDay);
    ClosingNetBalances(ReferenceStatement(ps, start, end, fmtDay));
    EntriesSums(OpeningNet(ps, start), Within(ps, start, end), fmtDay);
  }

  /** With no posting before `lo`, the postings before `start` are exactly
      those of the window [lo, start - 1], and none lies before `lo`. */
  lemma {:induction false} BeforeIsWindow(ps: seq<Posting>, lo: Day, start: Day)
    requires forall i :: 0 <= i < |ps| ==> lo <= ps[i].day
    ensures Before(ps, start) == Within(ps, lo, start - 1)
    ensures Before(ps, lo) == []
  {
    if ps != [] {
      BeforeIsWindow(ps[..|ps| - 1], lo, start);
    }
  }

  /** Continuity: with no postings before `lo`, the opening net of the window
      starting at `start` equals the closing net of the window [lo, start - 1]. */
  lemma OpeningIsEarlierClosing(ps: seq<Posting>, lo: Day, start: Day, end: Day, fmtDay: Day -> string)
    requires forall i :: 0 <= i < |ps| ==> lo <= ps[i].day
    ensures ReferenceStatement(ps, start, end, fmtDay).openingNet == ReferenceStatement(ps, lo, start - 1, fmtDay).closingNet
  {
    ReferenceClosing(ps, lo, start - 1, fmtDay);
    BeforeIsWindow(ps, lo, start);
  }
}
