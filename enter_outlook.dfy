/**
 * The test-slot page: the parent picks a date (days before today are
 * disabled) and a time, and the choice is written to their admission row.
 * The date picker hands over the chosen instant and its `toISOString`
 * text; the clock's start of today is an input.
 */
module EnterOutlookPage {
  import opened Base
  import Backend

  const DateMissing: string := "Please choose your exam date."
  const TimeMissing: string := "Please choose your exam time."
  const SaveFailed: string := "Could not save your test slot. Please try again."
  const SlotBooked: string := "Test Slot Booked"

  /** A day chosen in the picker: its instant in milliseconds and its ISO text. */
  datatype CalendarDate = CalendarDate(time: int, iso: string)

  /** `iso.split("T")[0]`: the text before the first 'T', or all of it when there is none. */
  function BeforeT(iso: string): (d: string)
    ensures |d| <= |iso| && d == iso[..|d|]
    ensures forall i :: 0 <= i < |d| ==> d[i] != 'T'
    ensures |d| < |iso| ==> iso[|d|] == 'T'
  {
    if iso == [] || iso[0] == 'T' then [] else [iso[0]] + BeforeT(iso[1..])
  }

  /** For text shaped like `toISOString`'s, with its 'T' at index 10, the date part is the first ten characters. */
  lemma IsoDatePart(iso: string)
    requires |iso| > 10 && iso[10] == 'T'
    requires forall i :: 0 <= i < 10 ==> iso[i] != 'T'
    ensures BeforeT(iso) == iso[..10]
  {
  }

  /** The update the page sends: exactly the test date, the test time and the status. */
  function SlotChanges(iso: string, time: string): (m: map<Backend.Column, string>)
    ensures m.Keys == {Backend.TestDate, Backend.TestTime, Backend.Status}
    ensures m[Backend.TestDate] == BeforeT(iso) && m[Backend.TestTime] == time && m[Backend.Status] == SlotBooked
  {
    map[Backend.TestDate := BeforeT(iso), Backend.TestTime := time, Backend.Status := SlotBooked]
  }

  /** The picker's rule: a day is disabled when it lies before the start of today. */
  predicate Disabled(time: int, startOfToday: int) {
    time < startOfToday
  }

  /**
   * A booking by `user` applied to the rows: only that user's rows change,
   * and in them only the three slot columns, to the chosen values.
   */
  lemma BookingTouchesOnlySlotColumns(rows: seq<Backend.AdmissionRow>, user: Backend.User, iso: string, time: string)
    ensures var r := Backend.Updated(rows, Some(user.id), SlotChanges(iso, time));
      && |r| == |rows|
      && (forall i :: 0 <= i < |rows| && rows[i].userId != user.id ==> r[i] == rows[i])
      && (forall i :: 0 <= i < |rows| && rows[i].userId == user.id ==>
            && r[i].id == rows[i].id && r[i].userId == user.id
            && Backend.Col(r[i], Backend.TestDate) == Some(BeforeT(iso))
            && Backend.Col(r[i], Backend.TestTime) == Some(time)
            && Backend.Col(r[i], Backend.Status) == Some(SlotBooked)
            && (forall c :: c !in {Backend.TestDate, Backend.TestTime, Backend.Status} ==>
                  Backend.Col(r[i], c) == Backend.Col(rows[i], c)))
  {
  }

  /** An update filtered by an absent user id books nothing, and, when the update reports no error, the page still moves on. */
  lemma WithoutUserNothingBooked(rows: seq<Backend.AdmissionRow>, iso: string, time: string)
    ensures Backend.Updated(rows, Backend.IdOf(None), SlotChanges(iso, time)) == rows
  {
  }

  class EnterOutlook {
    const table: Backend.Table
    var selectedDate: Option<CalendarDate>
    var selectedTime: string
    var error: Option<string>
    var submitting: bool
    var navigations: seq<string>

    constructor (table: Backend.Table)
      ensures this.table == table
      ensures selectedDate == None && selectedTime == "" && error == None && !submitting && navigations == []
    {
      this.table := table;
      selectedDate := None;
      selectedTime := "";
      error := None;
      submitting := false;
      navigations := [];
    }

    /** Without a user once loading is over, the page moves to "/auth". */
    method AuthEffect(user: Option<Backend.User>, loading: bool)
      modifies this
      ensures navigations == old(navigations) + (if !loading && user.None? then ["/auth"] else [])
      ensures selectedDate == old(selectedDate) && selectedTime == old(selectedTime)
      ensures error == old(error) && submitting == old(submitting)
    {
      if !loading && user.None? {
        navigations := navigations + ["/auth"];
      }
    }

    /** A click in the picker: a disabled day is ignored; otherwise the day (or none, when deselected) is taken. */
    method SelectDate(date: Option<CalendarDate>, startOfToday: int)
      modifies this
      ensures date.Some? && Disabled(date.value.time, startOfToday) ==> selectedDate == old(selectedDate)
      ensures !(date.Some? && Disabled(date.value.time, startOfToday)) ==> selectedDate == date
      ensures selectedDate != old(selectedDate) && selectedDate.Some? ==> selectedDate.value.time >= startOfToday
      ensures selectedTime == old(selectedTime) && error == old(error)
      ensures submitting == old(submitting) && navigations == old(navigations)
    {
      if !(date.Some? && Disabled(date.value.time, startOfToday)) {
        selectedDate := date;
      }
    }

    /** The time input. */
    method SelectTime(time: string)
      modifies this
      ensures selectedTime == time && selectedDate == old(selectedDate)
      ensures error == old(error) && submitting == old(submitting) && navigations == old(navigations)
    {
      selectedTime := time;
    }

    /**
     * `handleSubmit`. A missing date is reported before a missing time, and
     * either stops the submission without a request. Otherwise the slot is
     * written to the rows of `user?.id`; submitting is off afterwards, a
     * failed update is reported, and a successful one moves to "/pay-fees".
     */
    method HandleSubmit(user: Option<Backend.User>, updateFails: bool)
      modifies this, table
      ensures selectedDate == old(selectedDate) && selectedTime == old(selectedTime)
      ensures selectedDate.None? ==>
        && error == Some(DateMissing) && table.rows == old(table.rows)
        && submitting == old(submitting) && navigations == old(navigations)
      ensures selectedDate.Some? && selectedTime == "" ==>
        && error == Some(TimeMissing) && table.rows == old(table.rows)
        && submitting == old(submitting) && navigations == old(navigations)
      ensures selectedDate.Some? && selectedTime != "" ==>
        && !submitting
        && (updateFails ==>
              error == Some(SaveFailed) && table.rows == old(table.rows) && navigations == old(navigations))
        && (!updateFails ==>
              && error == None && navigations == old(navigations) + ["/pay-fees"]
              && table.rows == Backend.Updated(
                   old(table.rows), Backend.IdOf(user), SlotChanges(selectedDate.value.iso, selectedTime)))
    {
      error := None;
      if selectedDate.None? {
        error := Some(DateMissing);
        return;
      }
      if selectedTime == "" {
        error := Some(TimeMissing);
        return;
      }
      submitting := true;
      var ok := table.Update(Backend.IdOf(user), SlotChanges(selectedDate.value.iso, selectedTime), updateFails);
      submitting := false;
      if !ok {
        error := Some(SaveFailed);
        return;
      }
      navigations := navigations + ["/pay-fees"];
    }
  }
}
