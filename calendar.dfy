/**
 * The calendar screen (app/calendar/index.tsx): the length and first weekday
 * of the selected month, the month grid grouped into week rows, month
 * navigation, and which medications count as taken on the selected date.
 */
module Calendar {
  import opened Common
  import opened JsDate
  import opened Storage

  /** `getDaysInMonth`: the result, as a pair of numbers. */
  datatype MonthShape = MonthShape(days: int, firstDay: int)

  /**
   * `getDaysInMonth`: `days` is read from day 0 of the following month, which
   * the Date constructor turns into the last day of this month; `firstDay` is
   * the weekday of the 1st.
   */
  function GetDaysInMonth(date: CivilDate): (shape: MonthShape)
    requires IsValid(date)
    ensures shape.days == DaysInMonth(date.year, date.month)
    ensures 28 <= shape.days <= 31
    ensures shape.firstDay == WeekDay(DayNumber(date.year, date.month, 1))
    ensures 0 <= shape.firstDay < 7
  {
    DayZero(date.year, date.month);
    FirstOfMonth(date.year, date.month);
    var days := MakeDate(date.year, date.month + 1, 0).day;
    var firstDay := WeekDay(DayOf(MakeDate(date.year, date.month, 1)));
    MonthShape(days, firstDay)
  }

  /** `new Date(y, m, 1)` is the 1st of that month. */
  lemma FirstOfMonth(y: int, m: int)
    requires 0 <= m < 12
    ensures MakeDate(y, m, 1) == CivilDate(y, m, 1)
  {
    MakeDateValid(CivilDate(y, m, 1));
  }

  /** The month after `m` starts on the weekday that follows the last day of `m`. */
  lemma NextFirstDay(y: int, m: int)
    requires 0 <= m < 12
    ensures var ny, nm := if m == 11 then y + 1 else y, if m == 11 then 0 else m + 1;
      WeekDay(DayNumber(ny, nm, 1)) == (WeekDay(DayNumber(y, m, 1)) + DaysInMonth(y, m)) % 7
  {
    NextMonthStart(y, m);
    WeekDayShift(DayNumber(y, m, 1), DaysInMonth(y, m));
  }

  /** Moving `d` days on from a day moves its weekday `d` places on, modulo 7. */
  lemma WeekDayShift(n: int, d: int)
    ensures WeekDay(n + d) == (WeekDay(n) + d) % 7
  {
    var q := (n + 4) / 7;
    assert n + 4 == 7 * q + WeekDay(n);
    assert n + d + 4 == 7 * q + (WeekDay(n) + d);
  }

  /** One cell of the grid: a blank before the 1st, or a day with its two markers. */
  datatype Cell = Blank | DayCell(day: int, isToday: bool, hasDoses: bool)

  /** Some dose was recorded on the calendar day `dayNumber` (`toDateString` equality). */
  predicate HasDosesOn(history: seq<DoseRecord>, dayNumber: int)
  {
    exists i | 0 <= i < |history| :: CalendarDay(history[i].timestamp) == dayNumber
  }

  /** The cells of a month in reading order: `firstDay` blanks, then days 1 to `days`, all with the same markers. */
  function MonthGrid(firstDay: nat, days: nat, isToday: bool, hasDoses: bool): (cells: seq<Cell>)
    ensures |cells| == firstDay + days
  {
    seq(firstDay, _ => Blank) + seq(days, k => DayCell(k + 1, isToday, hasDoses))
  }

  /** Cells grouped into week rows of seven, the last row holding what is left. */
  function Rows<T>(cells: seq<T>): (rows: seq<seq<T>>)
    ensures forall r :: 0 <= r < |rows| ==> 1 <= |rows[r]| <= 7
    ensures forall r :: 0 <= r < |rows| - 1 ==> |rows[r]| == 7
    decreases |cells|
  {
    if cells == [] then []
    else if |cells| <= 7 then [cells]
    else [cells[..7]] + Rows(cells[7..])
  }

  function Concat<T>(rows: seq<seq<T>>): seq<T>
  {
    if rows == [] then [] else rows[0] + Concat(rows[1..])
  }

  /** Grouping into rows loses and reorders nothing. */
  lemma {:induction false} RowsConcat<T>(cells: seq<T>)
    ensures Concat(Rows(cells)) == cells
    decreases |cells|
  {
    if |cells| > 7 {
      RowsConcat(cells[7..]);
      assert Rows(cells)[1..] == Rows(cells[7..]);
      assert cells == cells[..7] + cells[7..];
    } else if cells != [] {
      assert Rows(cells)[1..] == [];
    }
  }

  /** Rows are closed after whole weeks: a last row added to whole weeks becomes the last row. */
  lemma {:induction false} RowsAppend<T>(full: seq<T>, last: seq<T>)
    requires |full| % 7 == 0 && 1 <= |last| <= 7
    ensures Rows(full + last) == Rows(full) + [last]
    decreases |full|
  {
    if full == [] {
      assert full + last == last;
    } else {
      var s := full + last;
      assert s[..7] == full[..7] && s[7..] == full[7..] + last;
      RowsAppend(full[7..], last);
      if |full| == 7 {
        assert full[7..] == [];
        assert full[..7] == full;
      }
    }
  }

  /** The calendar has as many cells as blanks plus days, in rows of seven except possibly the last. */
  lemma GridShape(firstDay: nat, days: nat, isToday: bool, hasDoses: bool)
    ensures var rows := Rows(MonthGrid(firstDay, days, isToday, hasDoses));
      |Concat(rows)| == firstDay + days &&
      (forall r :: 0 <= r < |rows| - 1 ==> |rows[r]| == 7) &&
      (forall i :: 0 <= i < |Concat(rows)| ==> (Concat(rows)[i] == Blank <==> i < firstDay))
  {
    RowsConcat(MonthGrid(firstDay, days, isToday, hasDoses));
  }

  /**
   * The state of the grouping loop after `n` cells: the rows closed so far
   * group the cells before the open row `week`, which holds the `n % 7` cells
   * since the last whole week; after the last cell everything is closed.
   */
  ghost predicate Grouped<T>(cells: seq<T>, n: nat, week: seq<T>, calendar: seq<seq<T>>)
  {
    n <= |cells| &&
    (n < |cells| ==>
      |week| == n % 7 && calendar == Rows(cells[..n - |week|]) && week == cells[n - |week|..n]) &&
    (n == |cells| ==> week == [] && calendar == Rows(cells))
  }

  /** Before the first day: the blanks form the open row and no row is closed. */
  lemma GridStart<T>(cells: seq<T>, blanks: nat)
    requires blanks < 7 && blanks < |cells|
    ensures Grouped(cells, blanks, cells[..blanks], [])
  {
    assert cells[..0] == [];
  }

  /** One iteration of the grouping loop: push the next cell, and close the row after a whole week or the last cell. */
  lemma GridStep<T>(cells: seq<T>, n: nat, week: seq<T>, calendar: seq<seq<T>>)
    requires n < |cells| && Grouped(cells, n, week, calendar)
    ensures var w := week + [cells[n]];
      var closes := (n + 1) % 7 == 0 || n + 1 == |cells|;
      Grouped(cells, n + 1, if closes then [] else w, if closes then calendar + [w] else calendar)
  {
    var m := n - |week|;
    var w := week + [cells[n]];
    assert w == cells[m..n + 1];
    assert cells[..n + 1] == cells[..m] + w;
    if (n + 1) % 7 == 0 || n + 1 == |cells| {
      RowsAppend(cells[..m], w);
      if n + 1 == |cells| {
        assert cells[..n + 1] == cells;
      }
    }
  }

  /** The calendar screen's state. */
  class CalendarScreen {
    var selectedDate: CivilDate
    var medications: seq<Medication>
    var doseHistory: seq<DoseRecord>

    ghost predicate Valid()
      reads this
    {
      IsValid(selectedDate)
    }

    /** The screen opens on today's date, with nothing loaded. */
    constructor (now: int)
      ensures Valid()
      ensures DayOf(selectedDate) == CalendarDay(now)
      ensures medications == [] && doseHistory == []
    {
      selectedDate := DateOfDay(CalendarDay(now));
      medications, doseHistory := [], [];
    }

    /** `loadData`: read the medications and the whole dose history; neither read throws. */
    method LoadData(store: MedicationStore, medicationsReadFails: bool, historyReadFails: bool)
      modifies this
      ensures selectedDate == old(selectedDate)
      ensures medications == ReadList(store.medicationsKey, medicationsReadFails)
      ensures doseHistory == ReadList(store.doseHistoryKey, historyReadFails)
    {
      var meds := store.GetMedications(medicationsReadFails);
      var history := store.GetDoseHistory(historyReadFails);
      medications := meds;
      doseHistory := history;
    }

    /**
     * `renderCalendar`: push `firstDay` blanks, then one cell per day, closing
     * a week row after every seventh cell and after the last day. Each cell's
     * date is built from the year and month only, so every cell looks at the
     * 1st of the month.
     */
    method RenderCalendar(now: int) returns (calendar: seq<seq<Cell>>)
      requires Valid()
      ensures var shape := GetDaysInMonth(selectedDate);
        var first := DayNumber(selectedDate.year, selectedDate.month, 1);
        calendar == Rows(MonthGrid(shape.firstDay, shape.days, CalendarDay(now) == first, HasDosesOn(doseHistory, first)))
    {
      var shape := GetDaysInMonth(selectedDate);
      var days, firstDay := shape.days, shape.firstDay;
      ghost var first := DayNumber(selectedDate.year, selectedDate.month, 1);
      ghost var cells := MonthGrid(firstDay, days, CalendarDay(now) == first, HasDosesOn(doseHistory, first));
      calendar := [];
      var week := LeadingBlanks(firstDay);
      assert week == cells[..firstDay];
      GridStart(cells, firstDay);
      for day := 1 to days + 1
        invariant Grouped(cells, firstDay + day - 1, week, calendar)
      {
        var cell := DayCellFor(day, now);
        ghost var n := firstDay + day - 1;
        assert cells[n] == cell;
        GridStep(cells, n, week, calendar);
        assert ((firstDay + day) % 7 == 0 || day == days) == ((n + 1) % 7 == 0 || n + 1 == |cells|);
        week := week + [cell];
        if (firstDay + day) % 7 == 0 || day == days {
          calendar := calendar + [week];
          week := [];
        }
      }
    }

    /** The blanks `renderCalendar` pushes into the first week before the 1st. */
    static method LeadingBlanks(firstDay: nat) returns (week: seq<Cell>)
      ensures week == seq(firstDay, _ => Blank)
    {
      week := [];
      for i := 0 to firstDay
        invariant week == seq(i, _ => Blank)
      {
        week := week + [Blank];
      }
    }

    /**
     * The cell of `day` as `renderCalendar` builds it: its date is
     * `new Date(year, month)`, the day argument left out and so 1.
     */
    method DayCellFor(day: int, now: int) returns (cell: Cell)
      requires Valid()
      ensures var first := DayNumber(selectedDate.year, selectedDate.month, 1);
        cell == DayCell(day, CalendarDay(now) == first, HasDosesOn(doseHistory, first))
    {
      var date := MakeDate(selectedDate.year, selectedDate.month, 1);
      var isToday := CalendarDay(now) == DayOf(date);
      var hasDoses := HasDosesOn(doseHistory, DayOf(date));
      cell := DayCell(day, isToday, hasDoses);
    }

    /** The back arrow: the 1st of the previous month. */
    method GoToPreviousMonth()
      requires Valid()
      modifies this
      ensures Valid() && selectedDate == MonthBefore(old(selectedDate))
      ensures medications == old(medications) && doseHistory == old(doseHistory)
    {
      selectedDate := MonthBefore(selectedDate);
    }

    /** The forward arrow: the 1st of the next month. */
    method GoToNextMonth()
      requires Valid()
      modifies this
      ensures Valid() && selectedDate == MonthAfter(old(selectedDate))
      ensures medications == old(medications) && doseHistory == old(doseHistory)
    {
      selectedDate := MonthAfter(selectedDate);
    }

    /**
     * The "Take" button of the list for the selected date: record a taken dose
     * stamped with `toDateString()` of now, which reads back as midnight of
     * today, then reload.
     */
    method TakeFromList(store: MedicationStore, medication: Medication, now: int, doseId: string,
                        recordReadFails: bool, recordWriteFails: bool,
                        medicationsReadFails: bool, historyReadFails: bool)
      modifies this, store
      ensures selectedDate == old(selectedDate)
      ensures store.medicationsKey == old(store.medicationsKey)
      ensures recordWriteFails ==> store.doseHistoryKey == old(store.doseHistoryKey)
      ensures !recordWriteFails ==>
                store.doseHistoryKey == Some(ReadList(old(store.doseHistoryKey), recordReadFails) +
                                             [DoseRecord(doseId, medication.id, Midnight(now), true)])
      ensures medications == ReadList(store.medicationsKey, medicationsReadFails)
      ensures doseHistory == ReadList(store.doseHistoryKey, historyReadFails)
    {
      store.RecordDose(medication.id, true, Midnight(now), doseId, recordReadFails, recordWriteFails);
      LoadData(store, medicationsReadFails, historyReadFails);
    }
  }

  /** The valid date whose day number is `n` (`new Date(ms)` read back as a date). */
  function DateOfDay(n: int): (c: CivilDate)
    ensures IsValid(c) && DayOf(c) == n
  {
    MakeDate(1970, 0, n + 1)
  }

  /** `new Date(new Date().toDateString())`: the start of the calendar day of `now`. */
  function Midnight(now: int): (ms: int)
    ensures CalendarDay(ms) == CalendarDay(now) && ms <= now < ms + MS_PER_DAY
  {
    CalendarDay(now) * MS_PER_DAY
  }

  /** `new Date(year, month - 1, 1)`: January goes back to December of the previous year. */
  function MonthBefore(date: CivilDate): (r: CivilDate)
    requires IsValid(date)
    ensures IsValid(r)
    ensures r == if date.month == 0 then CivilDate(date.year - 1, 11, 1) else CivilDate(date.year, date.month - 1, 1)
  {
    var r := MakeDate(date.year, date.month - 1, 1);
    MakeDateValid(if date.month == 0 then CivilDate(date.year - 1, 11, 1) else CivilDate(date.year, date.month - 1, 1));
    r
  }

  /** `new Date(year, month + 1, 1)`: December goes on to January of the next year. */
  function MonthAfter(date: CivilDate): (r: CivilDate)
    requires IsValid(date)
    ensures IsValid(r)
    ensures r == if date.month == 11 then CivilDate(date.year + 1, 0, 1) else CivilDate(date.year, date.month + 1, 1)
  {
    var r := MakeDate(date.year, date.month + 1, 1);
    MakeDateValid(if date.month == 11 then CivilDate(date.year + 1, 0, 1) else CivilDate(date.year, date.month + 1, 1));
    r
  }

  /** Going back a month and forward again lands on the 1st of the month started from. */
  lemma NavigationRoundTrip(date: CivilDate)
    requires IsValid(date)
    ensures MonthAfter(MonthBefore(date)) == CivilDate(date.year, date.month, 1)
    ensures MonthBefore(MonthAfter(date)) == CivilDate(date.year, date.month, 1)
  {
  }

  /** `dayDoses`: the doses recorded on the calendar day of `date`, in order. */
  function DayDoses(history: seq<DoseRecord>, date: CivilDate): seq<DoseRecord>
    requires IsValid(date)
  {
    Filter(history, (dose: DoseRecord) => CalendarDay(dose.timestamp) == DayOf(date))
  }

  /** `taken` for one medication of the list: some dose of that day has its id and was taken. */
  predicate TakenOn(history: seq<DoseRecord>, date: CivilDate, medicationId: string)
    requires IsValid(date)
  {
    var doses := DayDoses(history, date);
    exists i | 0 <= i < |doses| :: doses[i].medicationId == medicationId && doses[i].taken
  }

  /** Taken on a date exactly when the whole history holds a taken dose of that medication on that day. */
  lemma TakenOnIff(history: seq<DoseRecord>, date: CivilDate, medicationId: string)
    requires IsValid(date)
    ensures TakenOn(history, date, medicationId) <==>
      exists i :: 0 <= i < |history| && CalendarDay(history[i].timestamp) == DayOf(date) &&
        history[i].medicationId == medicationId && history[i].taken
  {
    var doses := DayDoses(history, date);
    if TakenOn(history, date, medicationId) {
      var i :| 0 <= i < |doses| && doses[i].medicationId == medicationId && doses[i].taken;
      assert doses[i] in history;
      var j :| 0 <= j < |history| && history[j] == doses[i];
      assert CalendarDay(history[j].timestamp) == DayOf(date);
    }
    if exists i :: 0 <= i < |history| && CalendarDay(history[i].timestamp) == DayOf(date) &&
        history[i].medicationId == medicationId && history[i].taken {
      var i :| 0 <= i < |history| && CalendarDay(history[i].timestamp) == DayOf(date) &&
        history[i].medicationId == medicationId && history[i].taken;
      assert history[i] in doses;
      var j :| 0 <= j < |doses| && doses[j] == history[i];
    }
  }

  /** `renderMedicationsForDate`: one "taken" flag per medication, in stored order. */
  function TakenFlags(medications: seq<Medication>, history: seq<DoseRecord>, date: CivilDate): (flags: seq<bool>)
    requires IsValid(date)
    ensures |flags| == |medications|
    ensures forall k :: 0 <= k < |flags| ==> flags[k] == TakenOn(history, date, medications[k].id)
  {
    seq(|medications|, k requires 0 <= k < |medications| => TakenOn(history, date, medications[k].id))
  }

  /** The date a cell of day `day` evidently stands for. */
  function CellDate(year: int, month: int, day: int): (c: CivilDate)
    requires 0 <= month < 12 && 1 <= day <= DaysInMonth(year, month)
    ensures c == CivilDate(year, month, day)
  {
    MakeDateValid(CivilDate(year, month, day));
    MakeDate(year, month, day)
  }

  /** The grid with each day's markers computed from that day's own date. */
  function IntendedGrid(year: int, month: int, now: int, history: seq<DoseRecord>): (cells: seq<Cell>)
    requires 0 <= month < 12
    ensures var firstDay := WeekDay(DayNumber(year, month, 1));
      |cells| == firstDay + DaysInMonth(year, month) &&
      (forall i :: 0 <= i < firstDay ==> cells[i] == Blank) &&
      forall i :: firstDay <= i < |cells| ==>
        var day := i - firstDay + 1;
        cells[i] == DayCell(day, CalendarDay(now) == DayNumber(year, month, day), HasDosesOn(history, DayNumber(year, month, day)))
  {
    var firstDay := WeekDay(DayNumber(year, month, 1));
    var days := DaysInMonth(year, month);
    seq(firstDay, _ => Blank) +
    seq(days, k requires 0 <= k < days => IntendedCell(year, month, k + 1, now, history))
  }

  /** The cell of `day` with its markers computed from its own date. */
  function IntendedCell(year: int, month: int, day: int, now: int, history: seq<DoseRecord>): (cell: Cell)
    requires 0 <= month < 12 && 1 <= day <= DaysInMonth(year, month)
    ensures cell == DayCell(day, CalendarDay(now) == DayNumber(year, month, day), HasDosesOn(history, DayNumber(year, month, day)))
  {
    var d := CellDate(year, month, day);
    DayCell(day, CalendarDay(now) == DayOf(d), HasDosesOn(history, DayOf(d)))
  }

  /**
   * On the 15th of a month, the grid as written marks no cell as today (every
   * cell looks at the 1st), while the intended grid marks exactly the cell of
   * day 15.
   */
  lemma TodayMarkerOnFifteenth(year: int, month: int, now: int, history: seq<DoseRecord>)
    requires 0 <= month < 12
    requires CalendarDay(now) == DayNumber(year, month, 15)
    ensures var shape := GetDaysInMonth(CivilDate(year, month, 1));
      var first := DayNumber(year, month, 1);
      var written := MonthGrid(shape.firstDay, shape.days, CalendarDay(now) == first, HasDosesOn(history, first));
      var intended := IntendedGrid(year, month, now, history);
      (forall i :: 0 <= i < |written| ==> written[i] == Blank || !written[i].isToday) &&
      (forall i :: 0 <= i < |intended| ==> (intended[i].DayCell? && intended[i].isToday <==> i == shape.firstDay + 14))
  {
    var shape := GetDaysInMonth(CivilDate(year, month, 1));
    var intended := IntendedGrid(year, month, now, history);
    forall i | 0 <= i < |intended|
      ensures intended[i].DayCell? && intended[i].isToday <==> i == shape.firstDay + 14
    {
    }
  }
}
