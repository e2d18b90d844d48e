// components/HistoryLog.tsx: the log shown newest first, the optional day
// filter chosen in the calendar pop-up, the sentence each entry shows, and
// the pop-up's own state.  The UTC calendar day of a timestamp
// (`toISOString().split('T')[0]`) is a function passed in.

module HistoryLog {
  import opened Types
  import opened Util
  import opened Inventory

  // ---- sortedLogs -----------------------------------------------------------

  /** Each record is at least as recent as the next. */
  predicate NewestFirst(s: seq<HistoryRecord>) {
    |s| <= 1 || (s[0].timestamp >= s[1].timestamp && NewestFirst(s[1..]))
  }

  /** Newest first means every record is at least as recent as every later
      one. */
  lemma {:induction false} NewestFirstPairwise(s: seq<HistoryRecord>)
    requires NewestFirst(s)
    ensures forall i, j :: 0 <= i < j < |s| ==> s[i].timestamp >= s[j].timestamp
  {
    if |s| > 1 {
      NewestFirstPairwise(s[1..]);
      forall i, j | 0 <= i < j < |s|
        ensures s[i].timestamp >= s[j].timestamp
      {
        if i == 0 && j > 1 {
          assert s[1..][0] == s[1] && s[1..][j - 1] == s[j];
        }
      }
    }
  }

  /** `x` placed before the first record that is not newer than it; records
      of equal time already in `s` therefore come after `x`. */
  function InsertByTime(x: HistoryRecord, s: seq<HistoryRecord>): (r: seq<HistoryRecord>)
    ensures multiset(r) == multiset(s) + multiset{x}
    ensures r[0] == x || r[0] == s[0]
    ensures NewestFirst(s) ==> NewestFirst(r)
  {
    if s == [] || x.timestamp >= s[0].timestamp then
      assert ([x] + s)[1..] == s;
      [x] + s
    else
      assert s == [s[0]] + s[1..];
      var rest := InsertByTime(x, s[1..]);
      assert ([s[0]] + rest)[1..] == rest;
      [s[0]] + rest
  }

  /** sortedLogs: a copy of the log sorted by descending timestamp, with the
      stable order of `Array.prototype.sort` for equal timestamps. */
  function SortedLogs(logs: seq<HistoryRecord>): (r: seq<HistoryRecord>)
    ensures multiset(r) == multiset(logs)
    ensures NewestFirst(r)
  {
    if logs == [] then []
    else
      assert logs == [logs[0]] + logs[1..];
      InsertByTime(logs[0], SortedLogs(logs[1..]))
  }

  /** The records logged at time `t`. */
  function AtTime(t: nat): HistoryRecord -> bool {
    (h: HistoryRecord) => h.timestamp == t
  }

  lemma FilterSingleton<T>(y: T, p: T -> bool)
    ensures Filter([y], p) == if p(y) then [y] else []
  {
    assert [y][1..] == [];
  }

  /** Inserting keeps the order among records of any one timestamp, with the
      inserted record first. */
  lemma {:induction false} InsertIsStable(x: HistoryRecord, s: seq<HistoryRecord>, t: nat)
    ensures Filter(InsertByTime(x, s), AtTime(t)) == Filter([x] + s, AtTime(t))
  {
    if !(s == [] || x.timestamp >= s[0].timestamp) {
      var p, tail := AtTime(t), s[1..];
      var rest := InsertByTime(x, tail);
      InsertIsStable(x, tail, t);
      var fx, f0, ft := Filter([x], p), Filter([s[0]], p), Filter(tail, p);
      assert Filter(rest, p) == fx + ft by {
        FilterAppend([x], tail, p);
      }
      assert Filter(InsertByTime(x, s), p) == f0 + (fx + ft) by {
        assert InsertByTime(x, s) == [s[0]] + rest;
        FilterAppend([s[0]], rest, p);
      }
      assert Filter([x] + s, p) == fx + (f0 + ft) by {
        assert s == [s[0]] + tail;
        FilterAppend([s[0]], tail, p);
        FilterAppend([x], s, p);
      }
      if fx == [] {
        assert f0 + (fx + ft) == f0 + ft;
      } else {
        assert f0 == [] by {
          assert x.timestamp == t;
        }
        assert f0 + (fx + ft) == fx + ft;
      }
    }
  }

  /** The sort is stable: records with the same timestamp keep the order
      they have in the log. */
  lemma {:induction false} SortIsStable(logs: seq<HistoryRecord>, t: nat)
    ensures Filter(SortedLogs(logs), AtTime(t)) == Filter(logs, AtTime(t))
  {
    if logs != [] {
      var p, tail := AtTime(t), logs[1..];
      calc {
        Filter(SortedLogs(logs), p);
        { InsertIsStable(logs[0], SortedLogs(tail), t); }
        Filter([logs[0]] + SortedLogs(tail), p);
        { FilterAppend([logs[0]], SortedLogs(tail), p); }
        Filter([logs[0]], p) + Filter(SortedLogs(tail), p);
        { SortIsStable(tail, t); }
        Filter([logs[0]], p) + Filter(tail, p);
        { FilterAppend([logs[0]], tail, p); assert logs == [logs[0]] + tail; }
        Filter(logs, p);
      }
    }
  }

  // ---- filteredLogs ---------------------------------------------------------

  /** The records whose UTC day is `day`. */
  function OnDay(day: string, utcDay: nat -> string): HistoryRecord -> bool {
    (h: HistoryRecord) => utcDay(h.timestamp) == day
  }

  /** filteredLogs: the sorted log, narrowed to one UTC day when a day is
      selected. */
  function FilteredLogs(sorted: seq<HistoryRecord>, selectedDate: string, utcDay: nat -> string): (r: seq<HistoryRecord>)
    ensures selectedDate == "" ==> r == sorted
    ensures selectedDate != "" ==> forall i :: 0 <= i < |r| ==> utcDay(r[i].timestamp) == selectedDate
  {
    if selectedDate == "" then sorted else Filter(sorted, OnDay(selectedDate, utcDay))
  }

  /** Narrowing to a day keeps, in their order, exactly the records of that
      day, each as often as it occurs. */
  lemma FilteredLogsExact(sorted: seq<HistoryRecord>, selectedDate: string, utcDay: nat -> string, h: HistoryRecord)
    requires selectedDate != ""
    ensures IsSubsequence(FilteredLogs(sorted, selectedDate, utcDay), sorted)
    ensures multiset(FilteredLogs(sorted, selectedDate, utcDay))[h]
         == if utcDay(h.timestamp) == selectedDate then multiset(sorted)[h] else 0
  {
    FilterIsSubsequence(sorted, OnDay(selectedDate, utcDay));
    FilterCount(sorted, OnDay(selectedDate, utcDay), h);
  }

  /** Leaving records out of a newest-first log keeps it newest first. */
  lemma {:induction false} FilterKeepsNewestFirst(s: seq<HistoryRecord>, p: HistoryRecord -> bool)
    requires NewestFirst(s)
    ensures NewestFirst(Filter(s, p))
  {
    if |s| > 1 {
      var tail := s[1..];
      FilterKeepsNewestFirst(tail, p);
      var rest := Filter(tail, p);
      if p(s[0]) && rest != [] {
        NewestFirstPairwise(s);
        FilterMembership(tail, p, rest[0]);
        var k :| 0 <= k < |tail| && tail[k] == rest[0];
        assert s[k + 1] == rest[0];
        assert Filter(s, p) == [s[0]] + rest;
        assert ([s[0]] + rest)[1..] == rest;
      } else if !p(s[0]) {
        assert Filter(s, p) == rest;
      }
    } else if |s| == 1 {
      FilterSingleton(s[0], p);
    }
  }

  /** What the panel lists is newest first whatever day is selected. */
  lemma ShownNewestFirst(logs: seq<HistoryRecord>, selectedDate: string, utcDay: nat -> string)
    ensures NewestFirst(FilteredLogs(SortedLogs(logs), selectedDate, utcDay))
  {
    if selectedDate != "" {
      FilterKeepsNewestFirst(SortedLogs(logs), OnDay(selectedDate, utcDay));
    }
  }

  // ---- getActionText ----------------------------------------------------------

  /** getActionText.  The borrower is interpolated into the template, so a
      missing one reads "undefined". */
  function ActionText(h: HistoryRecord): (text: string)
    ensures h.action == Borrow ==> StartsWith(text, "Borrowed by ")
    ensures h.action == Return ==> StartsWith(text, "Returned from ")
  {
    match h.action
    case Borrow => "Borrowed by " + Interpolated(h.borrower)
    case Return => "Returned from " + Interpolated(h.borrower)
    case Add => "Device added to inventory"
    case Delete => "Device removed from inventory"
  }

  /** Two entries read the same only for the same action and, for borrow
      and return, the same interpolated borrower. */
  lemma ActionTextIdentifiesAction(a: HistoryRecord, b: HistoryRecord)
    requires ActionText(a) == ActionText(b)
    ensures a.action == b.action
    ensures a.action == Borrow || a.action == Return ==> Interpolated(a.borrower) == Interpolated(b.borrower)
  {
    var ta, tb := ActionText(a), ActionText(b);
    assert ta[0] == tb[0] && ta[7] == tb[7];
    if a.action == b.action && (a.action == Borrow || a.action == Return) {
      var n := if a.action == Borrow then 12 else 14;
      assert ta[n..] == Interpolated(a.borrower) && tb[n..] == Interpolated(b.borrower);
    }
  }

  /** The entry a borrow logs names the borrower that was typed. */
  lemma BorrowEntryText(data: AppData, selected: Option<string>, borrowerName: string,
                        recordId: string, updatedAt: nat, loggedAt: nat)
    requires BorrowDevice(data, selected, borrowerName, recordId, updatedAt, loggedAt).Some?
    ensures ActionText(BorrowDevice(data, selected, borrowerName, recordId, updatedAt, loggedAt).value.history[0])
         == "Borrowed by " + borrowerName
  {
  }

  /** The entry a return logs names the device's borrower when it had one,
      and reads "Returned from undefined" for a device that was available,
      since nothing stops that return. */
  lemma ReturnEntryText(data: AppData, selected: Option<string>, recordId: string, updatedAt: nat, loggedAt: nat)
    requires ReturnDevice(data, selected, recordId, updatedAt, loggedAt).Some?
    requires AllWellFormed(data.devices)
    ensures var d := data.devices[FindIndex(data.devices, selected.value).value];
      ActionText(ReturnDevice(data, selected, recordId, updatedAt, loggedAt).value.history[0])
        == if d.status == Borrowed then "Returned from " + d.borrower.value else "Returned from undefined"
  {
    var i := FindIndex(data.devices, selected.value).value;
    assert WellFormed(data.devices[i]);
  }

  // ---- The calendar pop-up ----------------------------------------------------

  /** The month the calendar shows: full year and 0-based month. */
  datatype CalendarMonth = CalendarMonth(year: int, month: int)

  /** `new Date(y, ...)` reads a year argument from 0 to 99 as 1900 + y. */
  function FullYear(y: int): int {
    if 0 <= y <= 99 then 1900 + y else y
  }

  /** `new Date(y, m + delta, 1)`: months beyond either end of the year carry
      into the year. */
  function MonthAfter(v: CalendarMonth, delta: int): (r: CalendarMonth)
    ensures 0 <= r.month < 12
    ensures r.year * 12 + r.month == FullYear(v.year) * 12 + v.month + delta
  {
    var index := FullYear(v.year) * 12 + v.month + delta;
    CalendarMonth(index / 12, index % 12)
  }

  /** Stepping forward and back again returns to the month shown, outside
      the years 0 to 99 that the Date constructor reinterprets. */
  lemma MonthAfterInverse(v: CalendarMonth, delta: int)
    requires 0 <= v.month < 12
    requires !(0 <= v.year <= 99) && !(0 <= MonthAfter(v, delta).year <= 99)
    ensures MonthAfter(MonthAfter(v, delta), -delta) == v
  {
    var w := MonthAfter(v, delta);
    var u := MonthAfter(w, -delta);
    assert u.year * 12 + u.month == v.year * 12 + v.month;
  }

  /** The panel's state cells. */
  class HistoryView {
    var selectedDate: string
    var isCalendarOpen: bool
    var viewDate: CalendarMonth
    var tempDate: string

    /** Nothing selected, pop-up closed, showing the current month. */
    constructor (now: CalendarMonth)
      ensures selectedDate == "" && !isCalendarOpen && viewDate == now && tempDate == ""
    {
      selectedDate := "";
      isCalendarOpen := false;
      viewDate := now;
      tempDate := "";
    }

    /** The entries listed for `logs`. */
    function Shown(logs: seq<HistoryRecord>, utcDay: nat -> string): (r: seq<HistoryRecord>)
      reads this`selectedDate
      ensures NewestFirst(r)
      ensures selectedDate == "" ==> multiset(r) == multiset(logs)
    {
      ShownNewestFirst(logs, selectedDate, utcDay);
      FilteredLogs(SortedLogs(logs), selectedDate, utcDay)
    }

    /** openCalendar: the draft starts from the selection, and the pop-up
        shows the selected day's month, or the current one when none is
        selected (both months computed by the caller from `Date`). */
    method OpenCalendar(selectedMonth: CalendarMonth, currentMonth: CalendarMonth)
      modifies this`tempDate, this`viewDate, this`isCalendarOpen
      ensures tempDate == selectedDate && isCalendarOpen
      ensures viewDate == if selectedDate != "" then selectedMonth else currentMonth
    {
      tempDate := selectedDate;
      viewDate := if selectedDate != "" then selectedMonth else currentMonth;
      isCalendarOpen := true;
    }

    /** handleDateClick, with the clicked day's stamp computed by the caller. */
    method PickDay(stamp: string)
      modifies this`tempDate
      ensures tempDate == stamp
    {
      tempDate := stamp;
    }

    /** changeMonth. */
    method ChangeMonth(delta: int)
      modifies this`viewDate
      ensures viewDate == MonthAfter(old(viewDate), delta)
    {
      viewDate := MonthAfter(viewDate, delta);
    }

    /** confirmDate, whose button is disabled while the draft is empty. */
    method ConfirmDate()
      requires tempDate != ""
      modifies this`selectedDate, this`isCalendarOpen
      ensures selectedDate == tempDate && !isCalendarOpen
    {
      selectedDate := tempDate;
      isCalendarOpen := false;
    }

    /** clearDate: the filter is removed and the whole log listed again. */
    method ClearDate()
      modifies this`tempDate, this`selectedDate, this`isCalendarOpen
      ensures tempDate == "" && selectedDate == "" && !isCalendarOpen
      ensures forall logs, utcDay :: Shown(logs, utcDay) == SortedLogs(logs)
    {
      tempDate := "";
      selectedDate := "";
      isCalendarOpen := false;
    }

    /** The pop-up's Cancel button: the selection is kept. */
    method Cancel()
      modifies this`isCalendarOpen
      ensures !isCalendarOpen
    {
      isCalendarOpen := false;
    }
  }
}
