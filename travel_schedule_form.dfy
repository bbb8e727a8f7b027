/** The travel schedule editor (components/TravelScheduleForm.tsx): a draft checked by
    an ordered validation chain, a list of at most 10 added entries with remove-at-index,
    and a save that deletes the creator's stored rows and then inserts the list. */
module TravelScheduleForm {
  import opened Wrappers
  import opened Text
  import opened Seqs

  /** A `creator_travel_schedule` row, or a draft of one. `id` and `creatorId` are ""
      until the store has assigned them; dates are the `YYYY-MM-DD` (or ISO date-time)
      text the store and the date inputs use, "" when not entered. */
  datatype TravelSchedule = TravelSchedule(
    id: string,
    creatorId: string,
    location: string,
    startDate: string,
    endDate: string)

  /** The messages the form can show. */
  datatype FormError =
    | LocationRequired
    | StartDateRequired
    | EndDateRequired
    | EndBeforeStart
    | TooManySchedules
    | NoSchedules
    | LoadFailed
    | SaveFailed

  /** The cap on schedules added through the form. */
  const MaxSchedules: nat := 10

  /** The empty draft the form starts with and is reset to. */
  const EmptyDraft := TravelSchedule("", "", "", "", "")

  /** `new Date(a) > new Date(b)` for date texts of one `YYYY-MM-DD` format: such texts
      order as dates exactly when they order as strings. */
  predicate StartsAfter(start: string, end: string)
  {
    LexLess(end, start)
  }

  /** What a valid schedule is: a non-blank location, both dates, and a start not after the end. */
  predicate ValidSchedule(s: TravelSchedule)
  {
    !IsBlank(s.location) && s.startDate != "" && s.endDate != "" && !StartsAfter(s.startDate, s.endDate)
  }

  /** `validateSchedule`: the first failing check, in the order location, start date,
      end date, date order; `None` when the schedule passes. */
  function ValidateSchedule(s: TravelSchedule): (r: Option<FormError>)
    ensures r.None? <==> ValidSchedule(s)
    ensures r == Some(LocationRequired) <==> IsBlank(s.location)
    ensures r == Some(StartDateRequired) <==> !IsBlank(s.location) && s.startDate == ""
    ensures r == Some(EndDateRequired) <==> !IsBlank(s.location) && s.startDate != "" && s.endDate == ""
    ensures r == Some(EndBeforeStart) <==>
              !IsBlank(s.location) && s.startDate != "" && s.endDate != "" && StartsAfter(s.startDate, s.endDate)
  {
    if IsBlank(s.location) then Some(LocationRequired)
    else if s.startDate == "" then Some(StartDateRequired)
    else if s.endDate == "" then Some(EndDateRequired)
    else if StartsAfter(s.startDate, s.endDate) then Some(EndBeforeStart)
    else None
  }

  /** A trip of a single day passes the date check. */
  lemma SameDayAccepted(s: TravelSchedule)
    requires !IsBlank(s.location) && s.startDate != "" && s.startDate == s.endDate
    ensures ValidateSchedule(s).None?
  {
    LexIrreflexive(s.startDate);
  }

  /** Of two different dates, exactly one order is rejected. */
  lemma OneOrderRejected(s: TravelSchedule)
    requires !IsBlank(s.location) && s.startDate != "" && s.endDate != "" && s.startDate != s.endDate
    ensures ValidateSchedule(s).None? != ValidateSchedule(s.(startDate := s.endDate, endDate := s.startDate)).None?
  {
    LexTotal(s.startDate, s.endDate);
    if LexLess(s.startDate, s.endDate) {
      LexAsymmetric(s.startDate, s.endDate);
    } else {
      LexAsymmetric(s.endDate, s.startDate);
    }
  }

  /** `date.split('T')[0]`: the text before the first 'T', all of it when there is none. */
  function FormatDateForInput(date: string): (r: string)
    ensures 'T' !in r
    ensures |r| <= |date| && r == date[..|r|]
    ensures |r| < |date| ==> date[|r|] == 'T'
  {
    if date == [] || date[0] == 'T' then []
    else
      var rest := FormatDateForInput(date[1..]);
      assert date[1..][..|rest|] == date[1..|rest| + 1];
      [date[0]] + rest
  }

  /** A date without a time part is shown as it is. */
  lemma FormatWithoutTime(date: string)
    requires 'T' !in date
    ensures FormatDateForInput(date) == date
  {
  }

  /** Formatting twice is formatting once. */
  lemma FormatIdempotent(date: string)
    ensures FormatDateForInput(FormatDateForInput(date)) == FormatDateForInput(date)
  {
    FormatWithoutTime(FormatDateForInput(date));
  }

  /** `schedules.map((schedule) => ({ ...schedule, creator_id: creatorId }))`. */
  function Stamp(schedules: seq<TravelSchedule>, creatorId: string): (r: seq<TravelSchedule>)
    ensures |r| == |schedules|
    ensures forall i :: 0 <= i < |r| ==> r[i] == schedules[i].(creatorId := creatorId)
  {
    if schedules == [] then []
    else [schedules[0].(creatorId := creatorId)] + Stamp(schedules[1..], creatorId)
  }

  function OwnedBy(creatorId: string): TravelSchedule -> bool
  {
    (row: TravelSchedule) => row.creatorId == creatorId
  }

  function NotOwnedBy(creatorId: string): TravelSchedule -> bool
  {
    (row: TravelSchedule) => row.creatorId != creatorId
  }

  /** The table after `delete().eq('creator_id', c)` and then `insert` of the stamped list. */
  function Replaced(rows: seq<TravelSchedule>, creatorId: string, schedules: seq<TravelSchedule>): seq<TravelSchedule>
  {
    Filter(NotOwnedBy(creatorId), rows) + Stamp(schedules, creatorId)
  }

  /** After a full save the creator's stored rows are exactly the list, stamped. */
  lemma ReplacedOwnRows(rows: seq<TravelSchedule>, creatorId: string, schedules: seq<TravelSchedule>)
    ensures Filter(OwnedBy(creatorId), Replaced(rows, creatorId, schedules)) == Stamp(schedules, creatorId)
  {
    var kept := Filter(NotOwnedBy(creatorId), rows);
    FilterAppend(OwnedBy(creatorId), kept, Stamp(schedules, creatorId));
    FilterKeepsNone(OwnedBy(creatorId), kept);
    FilterKeepsAll(OwnedBy(creatorId), Stamp(schedules, creatorId));
  }

  /** A save never touches another creator's rows. */
  lemma ReplacedOtherRows(rows: seq<TravelSchedule>, creatorId: string, schedules: seq<TravelSchedule>)
    ensures Filter(NotOwnedBy(creatorId), Replaced(rows, creatorId, schedules)) == Filter(NotOwnedBy(creatorId), rows)
  {
    var kept := Filter(NotOwnedBy(creatorId), rows);
    FilterAppend(NotOwnedBy(creatorId), kept, Stamp(schedules, creatorId));
    FilterKeepsAll(NotOwnedBy(creatorId), kept);
    FilterKeepsNone(NotOwnedBy(creatorId), Stamp(schedules, creatorId));
  }

  /** A delete that went through followed by a failed insert leaves the creator with no rows. */
  lemma DeletedOwnRows(rows: seq<TravelSchedule>, creatorId: string)
    ensures Filter(OwnedBy(creatorId), Filter(NotOwnedBy(creatorId), rows)) == []
  {
    FilterKeepsNone(OwnedBy(creatorId), Filter(NotOwnedBy(creatorId), rows));
  }

  /** The `creator_travel_schedule` table. */
  class ScheduleTable {
    var rows: seq<TravelSchedule>

    constructor(rows0: seq<TravelSchedule>)
      ensures rows == rows0
    {
      rows := rows0;
    }
  }

  /** The form component's state. `closed` records that `onCancel` was called. */
  class TravelScheduleEditor {
    const creatorId: string
    var schedules: seq<TravelSchedule>
    var isLoading: bool
    var isSaving: bool
    var error: Option<FormError>
    var draft: TravelSchedule
    var closed: bool

    constructor(creatorId0: string)
      ensures creatorId == creatorId0
      ensures schedules == [] && isLoading && !isSaving && error.None? && draft == EmptyDraft && !closed
    {
      creatorId := creatorId0;
      schedules := [];
      isLoading := true;
      isSaving := false;
      error := None;
      draft := EmptyDraft;
      closed := false;
    }

    /** Whether the "Add New Schedule" form is rendered (line 209). */
    predicate AddFormShown()
      reads this
    {
      |schedules| < MaxSchedules
    }

    /** `fetchSchedules`: `data` is the creator's rows in start-date order as the store
        returns them (`None` for a null result); `fails` stands for a store error. */
    method Load(data: Option<seq<TravelSchedule>>, fails: bool)
      modifies this`schedules, this`error, this`isLoading
      ensures !isLoading
      ensures fails ==> schedules == old(schedules) && error == Some(LoadFailed)
      ensures !fails ==> schedules == data.GetOr([]) && error == old(error)
    {
      isLoading := true;
      if fails {
        error := Some(LoadFailed);
      } else {
        schedules := data.GetOr([]);
      }
      isLoading := false;
    }

    /** `handleAddSchedule`. */
    method AddSchedule()
      modifies this`schedules, this`draft, this`error
      ensures ValidateSchedule(old(draft)).Some? ==>
                schedules == old(schedules) && draft == old(draft) && error == ValidateSchedule(old(draft))
      ensures ValidateSchedule(old(draft)).None? && |old(schedules)| >= MaxSchedules ==>
                schedules == old(schedules) && draft == old(draft) && error == Some(TooManySchedules)
      ensures ValidateSchedule(old(draft)).None? && |old(schedules)| < MaxSchedules ==>
                schedules == old(schedules) + [old(draft)] && draft == EmptyDraft && error.None?
      ensures |schedules| <= MaxSchedules || schedules == old(schedules)
    {
      var check := ValidateSchedule(draft);
      if check.Some? {
        error := check;
        return;
      }
      if |schedules| >= MaxSchedules {
        error := Some(TooManySchedules);
        return;
      }
      schedules := schedules + [draft];
      draft := EmptyDraft;
      error := None;
    }

    /** `handleRemoveSchedule`: `splice(index, 1)` on a copy. */
    method RemoveSchedule(index: int)
      modifies this`schedules
      ensures schedules == SpliceOut(old(schedules), index)
      ensures 0 <= index < |old(schedules)| ==> |schedules| == |old(schedules)| - 1
    {
      schedules := SpliceOut(schedules, index);
    }

    /** `handleSubmit` against `table`; `deleteFails` and `insertFails` stand for the two
        store errors. */
    method Submit(table: ScheduleTable, deleteFails: bool, insertFails: bool)
      modifies this`isSaving, this`error, this`closed, table
      ensures schedules == [] ==>
                error == Some(NoSchedules) && table.rows == old(table.rows)
                && isSaving == old(isSaving) && closed == old(closed)
      ensures schedules != [] ==> !isSaving
      ensures schedules != [] && deleteFails ==>
                table.rows == old(table.rows) && error == Some(SaveFailed) && closed == old(closed)
      ensures schedules != [] && !deleteFails && insertFails ==>
                table.rows == Filter(NotOwnedBy(creatorId), old(table.rows))
                && error == Some(SaveFailed) && closed == old(closed)
      ensures schedules != [] && !deleteFails && !insertFails ==>
                table.rows == Replaced(old(table.rows), creatorId, schedules)
                && error == old(error) && closed
    {
      if |schedules| == 0 {
        error := Some(NoSchedules);
        return;
      }
      isSaving := true;
      if deleteFails {
        error := Some(SaveFailed);
      } else {
        table.rows := Filter(NotOwnedBy(creatorId), table.rows);
        if insertFails {
          error := Some(SaveFailed);
        } else {
          table.rows := table.rows + Stamp(schedules, creatorId);
          closed := true;
        }
      }
      isSaving := false;
    }
  }
}
