/**
 * The "export all" filter dialog: a date range and a set of customers,
 * checked before the export is started, and cleared when the dialog closes.
 */
module ExportAllFilterModal {
  import opened Wrappers
  import opened Lists
  import opened Dates

  const DATES_REQUIRED := "Please select both start and end dates."
  const START_AFTER_END := "Start date cannot be after end date."

  /** `new Date(a) > new Date(b)` for two date-input values: a is a later day than b. */
  predicate Later(a: Date, b: Date) {
    a.year > b.year || (a.year == b.year && (a.month > b.month || (a.month == b.month && a.day > b.day)))
  }

  /** Exactly one of: a is later, b is later, they are the same day. */
  lemma LaterTrichotomy(a: Date, b: Date)
    ensures Later(a, b) || Later(b, a) || a == b
    ensures !(Later(a, b) && Later(b, a))
    ensures !Later(a, a)
  {
  }

  lemma LaterTransitive(a: Date, b: Date, c: Date)
    requires Later(a, b) && Later(b, c)
    ensures Later(a, c)
  {
  }

  /** What `handleConfirm` does. */
  datatype Outcome =
    | Alert(message: string)
    | Confirmed(startDate: string, endDate: string, userIds: seq<int>)

  class Dialog {
    /** The date inputs; an empty input is None. */
    var startDate: Option<Date>
    var endDate: Option<Date>
    var selectedUserIds: seq<int>

    ghost predicate Valid()
      reads this
    {
      NoDup(selectedUserIds) &&
      (startDate.Some? ==> InIsoRange(startDate.value)) && (endDate.Some? ==> InIsoRange(endDate.value))
    }

    constructor ()
      ensures startDate == None && endDate == None && selectedUserIds == [] && Valid()
    {
      startDate := None;
      endDate := None;
      selectedUserIds := [];
    }

    method SetStartDate(d: Option<Date>)
      requires Valid() && (d.Some? ==> InIsoRange(d.value))
      modifies this`startDate
      ensures startDate == d && Valid()
    {
      startDate := d;
    }

    method SetEndDate(d: Option<Date>)
      requires Valid() && (d.Some? ==> InIsoRange(d.value))
      modifies this`endDate
      ensures endDate == d && Valid()
    {
      endDate := d;
    }

    /** `toggleUserSelection`: the id is selected after exactly when it was not before. */
    method ToggleUserSelection(userId: int)
      requires Valid()
      modifies this`selectedUserIds
      ensures selectedUserIds == Toggle(old(selectedUserIds), userId) && Valid()
      ensures userId in selectedUserIds <==> userId !in old(selectedUserIds)
      ensures forall x :: x != userId ==> (x in selectedUserIds <==> x in old(selectedUserIds))
    {
      selectedUserIds := Toggle(selectedUserIds, userId);
    }

    /** The dialog closing clears both dates and the selection. */
    method Close()
      modifies this`startDate, this`endDate, this`selectedUserIds
      ensures startDate == None && endDate == None && selectedUserIds == [] && Valid()
    {
      startDate := None;
      endDate := None;
      selectedUserIds := [];
    }

    /** `handleConfirm`: both dates, then their order; equal dates pass. */
    method HandleConfirm() returns (outcome: Outcome)
      requires Valid()
      ensures startDate.None? || endDate.None? ==> outcome == Alert(DATES_REQUIRED)
      ensures startDate.Some? && endDate.Some? && Later(startDate.value, endDate.value) ==> outcome == Alert(START_AFTER_END)
      ensures outcome.Confirmed? <==> startDate.Some? && endDate.Some? && !Later(startDate.value, endDate.value)
      ensures outcome.Confirmed? ==>
        outcome == Confirmed(IsoDate(startDate.value), IsoDate(endDate.value), selectedUserIds)
    {
      if startDate.None? || endDate.None? {
        return Alert(DATES_REQUIRED);
      }
      if Later(startDate.value, endDate.value) {
        return Alert(START_AFTER_END);
      }
      return Confirmed(IsoDate(startDate.value), IsoDate(endDate.value), selectedUserIds);
    }
  }
}
