# Habit tracker: a verified model

This project models the logic inside the `HabitTracker` React component
(`components/HabitTracker.tsx`). That logic is:

- a collection of habits, each with an id, a name and a map from day to a
  completion flag;
- the two handlers that replace the collection: `addHabit` appends a habit for
  any name that is not blank, and `toggleHabit` flips one day of the habits with
  a given id;
- the completion lookup, where a day with no entry reads as not done;
- the date ranges shown by the two views. The week view shows 7 days from a
  Monday cursor. The calendar view shows a 42-day grid from the Monday on or
  before its cursor.
- the four arrow buttons. They move the week cursor by one week and the
  calendar cursor by four weeks.

Days are integer day numbers counted from 1970-01-01, a Thursday. Weekdays are
numbered 0 = Monday to 6 = Sunday, matching `weekStartsOn: 1`. The date-fns
helpers `startOfWeek`, `endOfWeek`, `addWeeks` and `eachDayOfInterval` are
restated on these numbers in module `DateFns`. For days from the year 1 AD onward,
`format(day, 'yyyy-MM-dd')` gives one distinct string per calendar day, so
completions are keyed by the day number itself. `String.prototype.trim` is restated in module `JsString` with
ECMAScript's WhiteSpace and LineTerminator characters.

Modules:
- `DateFns` (datefns.dfy): date-fns stand-ins.
- `JsString` (jsstring.dfy): `trim`.
- `Habits` (habits.dfy): the `Habit` record, the pure updates and the lookup.
- `Tracker` (tracker.dfy): the view ranges, plus the class `HabitTracker`. The
  class holds the component's four state variables. Its methods are the
  component's handlers. `Valid()` states that the week cursor is a Monday, and
  every handler keeps it.

The clock is a parameter. The first render reads the clock twice (lines 23
and 24), so the constructor takes two days: `today` for the calendar cursor and
`weekToday` for the week cursor. `AddHabit` takes the new habit's id, in place
of `Date.now().toString()`. That id is not assumed unique.

The calendar grid starts at the Monday on or before the cursor day
(`startOfWeek(currentMonth)`), not at the 1st of the cursor's month, and its
arrows step the cursor by 4 weeks, not by a calendar month. `CalendarDays` and
`CalendarStep` state this.

## Model

| member | source | states |
|---|---|---|
| `DateFns.StartOfWeek` | components/HabitTracker.tsx:57 | `startOfWeek(d, weekStartsOn 1)` is a Monday, on or before `d`, less than 7 days before it |
| `DateFns.StartOfWeekUnique` | components/HabitTracker.tsx:24 | that Monday is the only Monday in the 7 days ending at `d`, so the result is determined |
| `DateFns.EndOfWeek` | components/HabitTracker.tsx:103 | `endOfWeek(d)` is a Sunday, on or after `d`, less than 7 days after it |
| `DateFns.AddWeeks` | components/HabitTracker.tsx:109 | `addWeeks(d, n)` keeps the weekday, moves forward for n >= 0 and backward for n <= 0, and moves the Monday of its week by exactly `7 * n` days |
| `DateFns.EachDayOfInterval` | components/HabitTracker.tsx:59 | from start to end inclusive, there are exactly `end - start + 1` days, ascending and consecutive |
| `JsString.TrimStart` | components/HabitTracker.tsx:38 | the result is a suffix of the input; everything dropped is white space; it does not start with white space |
| `JsString.TrimEnd` | components/HabitTracker.tsx:38 | the result is a prefix of the input; everything dropped is white space; it does not end with white space |
| `JsString.Trim` | components/HabitTracker.tsx:38 | `s.trim()` is empty exactly when every character of `s` is white space |
| `Habits.IsCompleted` | components/HabitTracker.tsx:130 | a day absent from the completions map reads as false; a present day reads as its stored flag |
| `Habits.AddHabit` | components/HabitTracker.tsx:37-42 | a blank name leaves the array unchanged. Otherwise the array grows by one, the old habits stay as a prefix in order, and the last habit has the id, the untrimmed name and empty completions |
| `Habits.AddHabitKeepsUniqueIds` | components/HabitTracker.tsx:39 | appending under an id not yet in use keeps all ids distinct |
| `Habits.ToggleDay` | components/HabitTracker.tsx:48-50 | id and name are kept; day `d` now holds the negation of its old lookup (absent gives true); the key set gains `d`; every other entry is unchanged |
| `Habits.Toggle` | components/HabitTracker.tsx:44-54 | length and order are kept; every habit with the id is flipped on `d`; every other habit is identical |
| `Habits.ToggleUnknownId` | components/HabitTracker.tsx:46-53 | toggling an id that no habit has leaves the whole array unchanged |
| `Habits.ToggleKeepsUniqueIds` | components/HabitTracker.tsx:46-53 | a toggle keeps the ids distinct |
| `Habits.ToggleLookup` | components/HabitTracker.tsx:49 | after a toggle, only day `d` of the matching habits reads differently, and it reads as the negation; ids and names are kept |
| `Habits.ToggleTwice` | components/HabitTracker.tsx:49 | toggling the same id and day twice restores every lookup value, id and name |
| `Habits.ToggleTwiceKeepsFalseEntry` | components/HabitTracker.tsx:130 | two toggles of an absent day leave an explicit `false` entry, so the map itself is not restored |
| `Tracker.WeekDays` | components/HabitTracker.tsx:103-104 | the week view shows consecutive days from the cursor to the following Sunday, `7 - weekday(cursor)` of them |
| `Tracker.NextWeekFollows` | components/HabitTracker.tsx:115 | from a Monday cursor, one click forward shows the 7 days straight after the current 7 |
| `Tracker.CalendarDays` | components/HabitTracker.tsx:57-59 | the calendar shows 42 consecutive days. They start on the Monday on or before the cursor, end on a Sunday, and include the cursor |
| `Tracker.CalendarStep` | components/HabitTracker.tsx:68 | stepping the cursor 4 weeks shifts every grid day by exactly 28 |
| `Tracker.HabitTracker.constructor` | components/HabitTracker.tsx:21-24 | no habits, empty input, calendar cursor on the first clock read, week cursor on the Monday of the second read's week |
| `Tracker.HabitTracker.SetNewHabit` | components/HabitTracker.tsx:177 | the input text is replaced; the week cursor stays a Monday |
| `Tracker.HabitTracker.AddHabit` | components/HabitTracker.tsx:37-42 | the habits become `AddHabit(old habits, id, input)`; the input is cleared only when it was not blank |
| `Tracker.HabitTracker.ToggleHabit` | components/HabitTracker.tsx:44-54 | the habits become `Toggle(old habits, id, day)` |
| `Tracker.HabitTracker.PreviousWeek` | components/HabitTracker.tsx:109 | the week cursor moves back 7 days and stays a Monday |
| `Tracker.HabitTracker.NextWeek` | components/HabitTracker.tsx:115 | the week cursor moves forward 7 days and stays a Monday |
| `Tracker.HabitTracker.PreviousMonth` | components/HabitTracker.tsx:64 | the calendar cursor moves back 28 days |
| `Tracker.HabitTracker.NextMonth` | components/HabitTracker.tsx:68 | the calendar cursor moves forward 28 days |
| `Tracker.HabitTracker.WeekView` | components/HabitTracker.tsx:103-104 | the week view now shows exactly 7 consecutive days, Monday to Sunday, from the cursor |
| `Tracker.HabitTracker.CalendarView` | components/HabitTracker.tsx:57-59 | the calendar now shows 42 consecutive days, Monday first and Sunday last, and its first week holds the cursor |

## Left out

- Loading from and saving to `localStorage`, with `JSON.parse`/`JSON.stringify` (lines 26-35): browser I/O. The `JSON.parse` call is not guarded, so corrupt stored data throws instead of reading as an empty list.
- Clock reads: `new Date()` (lines 23-24) and the id from `Date.now()` (line 39) are parameters. "Today" highlighting (line 82) is left out because it reads the clock.
- Dates before 1 AD: date-fns' `yyyy` prints the era year, so a day in 1 BC and the same date in 1 AD share one key (lines 45, 87, 126). The model keys every day separately.
- The range of a JavaScript `Date` (100,000,000 days either side of 1970): beyond it `addWeeks` yields an invalid date and `format` throws `RangeError`. The model's days are unbounded.
- Time of day, time zones, daylight saving time and `endOfWeek`'s 23:59:59.999 end: a date is a whole day number.
- `DateFns.EachDayOfInterval`: requires `start <= end`. Both call sites meet this. The behaviour for a reversed interval depends on the date-fns version, so it is not modelled.
- `format` strings for headings and cell labels (lines 67, 93, 113): display only.
- All JSX markup, tabs, cards, buttons, checkboxes and the sidebar: UI.
- React's batching and scheduling of `useState` setters: each handler replaces the state at once.
