/**
 The HabitTracker component of components/HabitTracker.tsx: its state (the
 habit array, the text of the "new habit" input and the two view cursors),
 the handlers that replace that state, and the date ranges its week view and
 calendar view derive from the cursors on each render.

 The clock is a parameter: the two `new Date()` reads of the first render are
 passed in as two days, and a new habit's id (`Date.now().toString()`) is
 passed in.
 */
module Tracker {
  import opened DateFns
  import opened Habits

  /** Weeks shown by the calendar view, and weeks one arrow click moves it. */
  const CalendarWeeks: nat := 6
  const CalendarStepWeeks: int := 4

  /**
   renderWeekView: the days from the week cursor to the end of its week. The
   component keeps that cursor on a Monday, so this is a whole week.
   */
  function WeekDays(weekStart: Day): (days: seq<Day>)
    ensures |days| == 7 - Weekday(weekStart)
    ensures forall i :: 0 <= i < |days| ==> days[i] == weekStart + i
    ensures Weekday(days[|days| - 1]) == Sunday
  {
    EachDayOfInterval(weekStart, EndOfWeek(weekStart))
  }

  /** One click forward shows the 7 days that follow the ones shown now. */
  lemma NextWeekFollows(weekStart: Day)
    requires Weekday(weekStart) == Monday
    ensures var now, next := WeekDays(weekStart), WeekDays(AddWeeks(weekStart, 1));
      |now| == |next| == 7 && now[6] + 1 == next[0]
  {
  }

  /**
   renderCalendar: 42 days, from the Monday on or before the calendar cursor
   to the Sunday five weeks after that Monday's week. The grid is anchored on
   the cursor day itself, not on the first day of the cursor's month.
   */
  function CalendarDays(cursor: Day): (days: seq<Day>)
    ensures |days| == 7 * CalendarWeeks
    ensures Weekday(days[0]) == Monday && days[0] <= cursor < days[0] + 7
    ensures forall i :: 0 <= i < |days| ==> days[i] == days[0] + i
    ensures Weekday(days[|days| - 1]) == Sunday
    ensures cursor in days
  {
    var monthStart := StartOfWeek(cursor);
    var lastMonday := AddWeeks(monthStart, CalendarWeeks - 1);
    var monthEnd := EndOfWeek(lastMonday);
    WeekdayShift(lastMonday, 6);
    SameWeekdayClose(monthEnd, lastMonday + 6);
    var days := EachDayOfInterval(monthStart, monthEnd);
    assert days[cursor - monthStart] == cursor;
    days
  }

  /**
   One calendar arrow click moves the whole grid by 28 days, so the last two
   weeks of the old grid are the first two weeks of the new one.
   */
  lemma CalendarStep(cursor: Day)
    ensures var now, next := CalendarDays(cursor), CalendarDays(AddWeeks(cursor, CalendarStepWeeks));
      forall i :: 0 <= i < |next| ==> next[i] == now[i] + 7 * CalendarStepWeeks
  {
  }

  class HabitTracker {
    /** useState<Habit[]>: the habits, in insertion (display) order. */
    var habits: seq<Habit>
    /** useState(''): the text of the "Enter a new habit" input. */
    var newHabit: string
    /** useState(new Date()): the calendar view's cursor. */
    var currentMonth: Day
    /** useState(startOfWeek(new Date(), { weekStartsOn: 1 })): the week view's cursor. */
    var currentWeekStart: Day

    /** The week cursor is always a Monday. */
    ghost predicate Valid()
      reads this
    {
      Weekday(currentWeekStart) == Monday
    }

    /**
     First render: no habits, empty input. The two cursors come from two
     separate clock reads, `today` for the calendar and `weekToday` for the
     week, which differ when the render straddles midnight.
     */
    constructor (today: Day, weekToday: Day)
      ensures Valid()
      ensures habits == [] && newHabit == ""
      ensures currentMonth == today
      ensures currentWeekStart <= weekToday < currentWeekStart + 7
    {
      habits := [];
      newHabit := "";
      currentMonth := today;
      currentWeekStart := StartOfWeek(weekToday);
    }

    /** The input's onChange handler. */
    method SetNewHabit(text: string)
      requires Valid()
      modifies this`newHabit
      ensures Valid()
      ensures newHabit == text
    {
      newHabit := text;
    }

    /**
     addHabit: a non-blank input is appended as a new habit with id `id` and
     the input is cleared; a blank input changes nothing.
     */
    method AddHabit(id: string)
      requires Valid()
      modifies this`habits, this`newHabit
      ensures Valid()
      ensures habits == Habits.AddHabit(old(habits), id, old(newHabit))
      ensures newHabit == if JsString.IsBlank(old(newHabit)) then old(newHabit) else ""
    {
      var name := newHabit;
      habits := Habits.AddHabit(habits, id, name);
      if JsString.Trim(name) != "" {
        newHabit := "";
      }
    }

    /** toggleHabit: flips day `date` of the habits with id `habitId`. */
    method ToggleHabit(habitId: string, date: Day)
      requires Valid()
      modifies this`habits
      ensures Valid()
      ensures habits == Toggle(old(habits), habitId, date)
    {
      habits := Toggle(habits, habitId, date);
    }

    /** The week view's left arrow. */
    method PreviousWeek()
      requires Valid()
      modifies this`currentWeekStart
      ensures Valid()
      ensures currentWeekStart == old(currentWeekStart) - 7
    {
      currentWeekStart := AddWeeks(currentWeekStart, -1);
    }

    /** The week view's right arrow. */
    method NextWeek()
      requires Valid()
      modifies this`currentWeekStart
      ensures Valid()
      ensures currentWeekStart == old(currentWeekStart) + 7
    {
      currentWeekStart := AddWeeks(currentWeekStart, 1);
    }

    /** The calendar view's left arrow: four weeks back, not one calendar month. */
    method PreviousMonth()
      requires Valid()
      modifies this`currentMonth
      ensures Valid()
      ensures currentMonth == old(currentMonth) - 28
    {
      currentMonth := AddWeeks(currentMonth, -CalendarStepWeeks);
    }

    /** The calendar view's right arrow: four weeks on, not one calendar month. */
    method NextMonth()
      requires Valid()
      modifies this`currentMonth
      ensures Valid()
      ensures currentMonth == old(currentMonth) + 28
    {
      currentMonth := AddWeeks(currentMonth, CalendarStepWeeks);
    }

    /** The days of the week view as rendered now: Monday to Sunday of the cursor's week. */
    method WeekView() returns (days: seq<Day>)
      requires Valid()
      ensures |days| == 7
      ensures forall i :: 0 <= i < 7 ==> days[i] == currentWeekStart + i
      ensures Weekday(days[0]) == Monday && Weekday(days[6]) == Sunday
    {
      days := WeekDays(currentWeekStart);
    }

    /** The days of the calendar view as rendered now: six Monday-first weeks holding the cursor. */
    method CalendarView() returns (days: seq<Day>)
      ensures |days| == 42
      ensures Weekday(days[0]) == Monday && days[0] <= currentMonth < days[0] + 7
      ensures forall i :: 0 <= i < 42 ==> days[i] == days[0] + i
      ensures Weekday(days[41]) == Sunday
    {
      days := CalendarDays(currentMonth);
    }
  }
}
