/**
 * The history screen: a month calendar of check-ins, month navigation that never
 * goes past the present month, and a detail view for a clicked day.
 *
 * A month is its index `12 * year + month`; a calendar cell's date is taken as
 * its `YYYY-MM-DD` key, so the time-zone conversion of the key is not modelled.
 */
module History {
  import opened Wrappers
  import opened Dates
  import opened Types
  import opened EntryOrder

  /**
   * The calendar grid: `startPadding` blank cells (the weekday of the 1st), then the
   * days 1 to `daysInMonth` in order.
   */
  method MonthDays(startPadding: nat, daysInMonth: nat) returns (days: seq<Option<nat>>)
    ensures |days| == startPadding + daysInMonth
    ensures forall i :: 0 <= i < startPadding ==> days[i] == None
    ensures forall i :: startPadding <= i < |days| ==> days[i] == Some(i - startPadding + 1)
  {
    days := [];
    var i := 0;
    while i < startPadding
      invariant i <= startPadding && |days| == i
      invariant forall k :: 0 <= k < i ==> days[k] == None
    {
      days := days + [None];
      i := i + 1;
    }
    var day := 1;
    while day <= daysInMonth
      invariant 1 <= day <= daysInMonth + 1
      invariant |days| == startPadding + day - 1
      invariant forall k :: 0 <= k < startPadding ==> days[k] == None
      invariant forall k :: startPadding <= k < |days| ==> days[k] == Some(k - startPadding + 1)
    {
      days := days + [Some(day)];
      day := day + 1;
    }
  }

  /**
   * The entry shown for a cell: none for a blank cell, otherwise the first entry
   * with the cell's date, if any.
   */
  function EntryForDate(entries: seq<MoodEntry>, key: Option<Date>): (r: Option<MoodEntry>)
    ensures key.None? ==> r.None?
    ensures r.Some? ==> r.value in entries && r.value.date == key.value
    ensures r.Some? ==> exists i :: 0 <= i < |entries| && entries[i] == r.value &&
                                    forall j :: 0 <= j < i ==> entries[j].date != key.value
    ensures key.Some? && r.None? ==> forall x :: x in entries ==> x.date != key.value
  {
    if key.None? then None
    else
      var i := IndexOfDate(entries, key.value);
      if 0 <= i then Some(entries[i]) else None
  }

  /** The label of a stored state string: "Unknown" exactly when it is no state's key. */
  function MoodLabel(state: string): (name: string)
    ensures name == "Unknown" <==> forall s: MoodState :: MoodStateKey(s) != state
  {
    assert MoodStateKey(Elevated) == "elevated" && MoodStateKey(Depressed) == "depressed";
    assert MoodStateKey(Mixed) == "mixed" && MoodStateKey(Baseline) == "baseline";
    assert MoodStateKey(SafetyAlert) == "safety-alert";
    if state == "elevated" then "Elevated"
    else if state == "depressed" then "Depressed"
    else if state == "mixed" then "Mixed"
    else if state == "baseline" then "Baseline"
    else if state == "safety-alert" then "Safety Alert"
    else "Unknown"
  }

  /** Every mood state has its own label, and no label of a state reads "Unknown". */
  lemma MoodLabelsAreDistinct(s: MoodState, t: MoodState)
    ensures MoodLabel(MoodStateKey(s)) != "Unknown"
    ensures s != t ==> MoodLabel(MoodStateKey(s)) != MoodLabel(MoodStateKey(t))
  {
  }

  class HistoryScreen {
    var entries: seq<MoodEntry>
    /** The month on show, as `12 * year + month`. */
    var currentMonth: int
    var selectedEntry: Option<MoodEntry>
    var showDetail: bool

    /** Opens on the present month, `now`. */
    constructor (now: int)
      ensures entries == [] && currentMonth == now && selectedEntry == None && !showDetail
    {
      entries, currentMonth, selectedEntry, showDetail := [], now, None, false;
    }

    /** `loaded` is what the mood read returned. */
    method LoadEntries(loaded: seq<MoodEntry>)
      modifies this`entries
      ensures entries == loaded
    {
      entries := loaded;
    }

    /** The 1st of the previous month, always. */
    method PrevMonth()
      modifies this`currentMonth
      ensures currentMonth == old(currentMonth) - 1
    {
      currentMonth := currentMonth - 1;
    }

    /** The 1st of the next month, unless that month has not begun at `now`. */
    method NextMonth(now: int)
      modifies this`currentMonth
      ensures currentMonth == if old(currentMonth) + 1 <= now then old(currentMonth) + 1 else old(currentMonth)
      ensures old(currentMonth) <= now ==> currentMonth <= now
    {
      var next := currentMonth + 1;
      if next <= now {
        currentMonth := next;
      }
    }

    method Today(now: int)
      modifies this`currentMonth
      ensures currentMonth == now
    {
      currentMonth := now;
    }

    /** Opens the detail view only for a day that has an entry. */
    method DayClick(key: Option<Date>)
      modifies this`selectedEntry, this`showDetail
      ensures var e := EntryForDate(entries, key);
              if e.Some? then selectedEntry == e && showDetail
              else selectedEntry == old(selectedEntry) && showDetail == old(showDetail)
    {
      var e := EntryForDate(entries, key);
      if e.Some? {
        selectedEntry := e;
        showDetail := true;
      }
    }
  }
}
