/** The draft auto-save hook (src/hooks/use-draft-auto-save.ts). The
    debounce timer is a pending save that is either absent or armed with the
    values of the render that armed it; the environment decides when it
    fires. Each database write the hook would send is returned as a value.
    The 1.5 s delay itself, and promise interleaving, are not modelled. */
module DraftAutoSave {
  import opened Common
  import opened Database

  /** `hasData`: some row has an account chosen. */
  predicate HasData(rows: seq<LedgerDraftEntry>) {
    exists i :: 0 <= i < |rows| && rows[i].accountId != ""
  }

  /** The save a timer will run, with the values its closure captured. */
  datatype PendingSave = PendingSave(rows: seq<LedgerDraftEntry>, date: Option<Day>, draftId: Option<string>)

  /** A write to the drafts table. */
  datatype DraftWrite =
    | NoWrite
    | InsertDraft(date: Option<Day>, entries: seq<LedgerDraftEntry>)
    | UpdateDraft(id: string, date: Option<Day>, entries: seq<LedgerDraftEntry>)
    | DeleteDraft(id: string)

  /** The hook's state: the latest props (what its refs hold), the draft id
      and the pending timer. */
  datatype DraftState = DraftState(
    rows: seq<LedgerDraftEntry>,
    date: Option<Day>,
    isOpen: bool,
    draftId: Option<string>,
    timer: Option<PendingSave>)

  /** No timer is armed unless the dialog is open and the armed rows hold
      data. */
  predicate Valid(st: DraftState) {
    st.timer.Some? ==> st.isOpen && HasData(st.timer.value.rows)
  }

  predicate SomeId(id: Option<string>) {
    id.Some? && id.value != ""
  }

  /** The debounce effect after a render whose dependencies changed: the
      previous run's cleanup cancels its timer, and a new one is armed
      exactly when the dialog is open and the rows hold data. */
  function AfterRender(st: DraftState, rows: seq<LedgerDraftEntry>, date: Option<Day>, isOpen: bool): (r: DraftState)
    ensures r.rows == rows && r.date == date && r.isOpen == isOpen && r.draftId == st.draftId
    ensures r.timer.Some? <==> isOpen && HasData(rows)
    ensures r.timer.Some? ==> r.timer.value == PendingSave(rows, date, st.draftId)
  {
    var cleaned := st.(rows := rows, date := date, isOpen := isOpen, timer := None);
    if !isOpen || !HasData(rows) then cleaned
    else cleaned.(timer := Some(PendingSave(rows, date, st.draftId)))
  }

  /** The write a firing timer sends: an update of the captured draft, or an
      insert when it had none. */
  function TimerWrite(p: PendingSave): (w: DraftWrite)
    ensures SomeId(p.draftId) ==> w == UpdateDraft(p.draftId.value, p.date, p.rows)
    ensures !SomeId(p.draftId) ==> w == InsertDraft(p.date, p.rows)
  {
    if SomeId(p.draftId) then UpdateDraft(p.draftId.value, p.date, p.rows) else InsertDraft(p.date, p.rows)
  }

  /** The state after the timer fired: an insert records the id the
      database returned, if any. */
  function AfterFire(st: DraftState, returnedId: Option<string>): (r: DraftState)
    requires st.timer.Some?
    ensures r.timer.None? && r.rows == st.rows && r.date == st.date && r.isOpen == st.isOpen
    ensures TimerWrite(st.timer.value).InsertDraft? && returnedId.Some? ==> r.draftId == returnedId
    ensures TimerWrite(st.timer.value).UpdateDraft? || returnedId.None? ==> r.draftId == st.draftId
  {
    var fired := st.(timer := None);
    if TimerWrite(st.timer.value).InsertDraft? && returnedId.Some? then fired.(draftId := returnedId) else fired
  }

  /** `flushSave`'s write: nothing without data, else an update of the
      current draft or an insert. */
  function FlushWrite(st: DraftState): (w: DraftWrite)
    ensures !HasData(st.rows) ==> w == NoWrite
    ensures HasData(st.rows) && SomeId(st.draftId) ==> w == UpdateDraft(st.draftId.value, st.date, st.rows)
    ensures HasData(st.rows) && !SomeId(st.draftId) ==> w == InsertDraft(st.date, st.rows)
  {
    if !HasData(st.rows) then NoWrite
    else if SomeId(st.draftId) then UpdateDraft(st.draftId.value, st.date, st.rows)
    else InsertDraft(st.date, st.rows)
  }

  /** `deleteDraft`'s write: nothing without a draft id, else the delete. */
  function DeleteWrite(st: DraftState): (w: DraftWrite)
    ensures !SomeId(st.draftId) <==> w == NoWrite
    ensures SomeId(st.draftId) ==> w == DeleteDraft(st.draftId.value)
  {
    if SomeId(st.draftId) then DeleteDraft(st.draftId.value) else NoWrite
  }

  /** Every transition keeps `Valid`. */
  lemma TransitionsKeepValid(st: DraftState, rows: seq<LedgerDraftEntry>, date: Option<Day>, isOpen: bool, id: Option<string>)
    requires Valid(st)
    ensures Valid(AfterRender(st, rows, date, isOpen))
    ensures st.timer.Some? ==> Valid(AfterFire(st, id))
    ensures Valid(st.(timer := None))
    ensures Valid(st.(draftId := id))
  {
  }

  /** Rendering twice arms only the second render's save: the first timer
      is gone. */
  lemma SingleTimer(st: DraftState, r1: seq<LedgerDraftEntry>, d1: Option<Day>, r2: seq<LedgerDraftEntry>, d2: Option<Day>)
    requires HasData(r2)
    ensures AfterRender(AfterRender(st, r1, d1, true), r2, d2, true).timer == Some(PendingSave(r2, d2, st.draftId))
  {
  }

  /** A closed dialog never arms a save, whatever its rows. */
  lemma ClosedNeverArms(st: DraftState, rows: seq<LedgerDraftEntry>, date: Option<Day>)
    ensures AfterRender(st, rows, date, false).timer.None?
  {
  }

  /** After a first insert whose id came back, the next save of the same
      open dialog is an update of that draft. */
  lemma InsertThenUpdate(st: DraftState, id: string)
    requires st.timer.Some? && !SomeId(st.timer.value.draftId) && id != ""
    requires st.isOpen && HasData(st.rows)
    ensures var after := AfterFire(st, Some(id));
      var next := AfterRender(after, after.rows, after.date, after.isOpen);
      next.timer.Some? && TimerWrite(next.timer.value) == UpdateDraft(id, st.date, st.rows)
  {
  }

  /** The hook as a stateful object; every operation leaves it `Valid`. */
  class DraftAutoSaver {
    var rows: seq<LedgerDraftEntry>
    var date: Option<Day>
    var isOpen: bool
    var draftId: Option<string>
    var timer: Option<PendingSave>

    function State(): DraftState
      reads this
    {
      DraftState(rows, date, isOpen, draftId, timer)
    }

    constructor (rows0: seq<LedgerDraftEntry>, date0: Option<Day>, isOpen0: bool)
      ensures State() == DraftState(rows0, date0, isOpen0, None, None)
      ensures Valid(State())
    {
      rows, date, isOpen := rows0, date0, isOpen0;
      draftId := None;
      timer := None;
    }

    /** A render with new props: the debounce effect's cleanup and rerun. */
    method Render(newRows: seq<LedgerDraftEntry>, newDate: Option<Day>, newOpen: bool)
      modifies this
      ensures State() == AfterRender(old(State()), newRows, newDate, newOpen)
      ensures Valid(State())
    {
      rows, date, isOpen := newRows, newDate, newOpen;
      timer := None;
      if isOpen && HasData(rows) {
        timer := Some(PendingSave(rows, date, draftId));
      }
    }

    /** The timer fires: its write is sent and an inserted draft's id kept. */
    method Fire(returnedId: Option<string>) returns (w: DraftWrite)
      requires timer.Some?
      modifies this
      ensures w == TimerWrite(old(timer).value)
      ensures State() == AfterFire(old(State()), returnedId)
      ensures Valid(State())
    {
      var p := timer.value;
      timer := None;
      if SomeId(p.draftId) {
        w := UpdateDraft(p.draftId.value, p.date, p.rows);
      } else {
        w := InsertDraft(p.date, p.rows);
        if returnedId.Some? {
          draftId := returnedId;
        }
      }
    }

    /** The close effect: the timer is cancelled and the draft id forgotten;
      nothing is written. */
    method Close()
      modifies this
      ensures State() == old(State()).(isOpen := false, timer := None, draftId := None)
      ensures Valid(State())
    {
      isOpen := false;
      timer := None;
      draftId := None;
    }

    /** `flushSave`: cancels the timer, then writes the current rows. An
      insert here does not record an id. */
    method FlushSave() returns (w: DraftWrite)
      modifies this
      ensures w == FlushWrite(old(State()))
      ensures State() == old(State()).(timer := None)
      ensures Valid(State())
    {
      timer := None;
      if !HasData(rows) {
        return NoWrite;
      }
      if SomeId(draftId) {
        w := UpdateDraft(draftId.value, date, rows);
      } else {
        w := InsertDraft(date, rows);
      }
    }

    /** `deleteDraft`: cancels the timer; with a draft id, deletes it and
      forgets the id. */
    method Delete() returns (w: DraftWrite)
      modifies this
      ensures w == DeleteWrite(old(State()))
      ensures State() == old(State()).(timer := None, draftId := if SomeId(old(draftId)) then None else old(draftId))
      ensures Valid(State())
    {
      timer := None;
      if !SomeId(draftId) {
        return NoWrite;
      }
      w := DeleteDraft(draftId.value);
      draftId := None;
    }

    method SetDraftId(id: Option<string>)
      requires Valid(State())
      modifies this
      ensures State() == old(State()).(draftId := id)
      ensures Valid(State())
    {
      draftId := id;
    }
  }
}
