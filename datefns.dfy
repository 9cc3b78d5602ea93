/**
 The date-fns helpers the habit tracker calls (startOfWeek, endOfWeek,
 addWeeks, eachDayOfInterval), restated on whole calendar days.

 A day is an integer count of days since 1970-01-01, which was a Thursday.
 Every call site in the tracker passes `{ weekStartsOn: 1 }`, so weeks run
 Monday to Sunday and weekdays are numbered 0 = Monday … 6 = Sunday.
 */
module DateFns {

  /** A calendar day: days since 1970-01-01 (negative before it). */
  type Day = int

  const Monday: nat := 0
  const Sunday: nat := 6

  /** Day of the week, 0 = Monday … 6 = Sunday. */
  function Weekday(d: Day): (w: nat)
    ensures w < 7
  {
    (d + 3) % 7
  }

  /** Moving k days forward moves the weekday k steps round the week. */
  lemma WeekdayShift(d: Day, k: int)
    ensures Weekday(d + k) == (Weekday(d) + k) % 7
  {
  }

  /** Two days with the same weekday less than a week apart are the same day. */
  lemma SameWeekdayClose(a: Day, b: Day)
    requires Weekday(a) == Weekday(b)
    requires a <= b < a + 7
    ensures a == b
  {
  }

  /** startOfWeek(d, { weekStartsOn: 1 }): the Monday on or before `d`. */
  function StartOfWeek(d: Day): (monday: Day)
    ensures Weekday(monday) == Monday
    ensures monday <= d < monday + 7
  {
    WeekdayShift(d, -(Weekday(d) as int));
    d - Weekday(d)
  }

  /** The Monday on or before a day is the only Monday in the 7 days ending there. */
  lemma StartOfWeekUnique(d: Day, m: Day)
    requires Weekday(m) == Monday && m <= d < m + 7
    ensures StartOfWeek(d) == m
  {
  }

  /** endOfWeek(d, { weekStartsOn: 1 }), as a day: the Sunday on or after `d`. */
  function EndOfWeek(d: Day): (sunday: Day)
    ensures Weekday(sunday) == Sunday
    ensures d <= sunday < d + 7
  {
    var monday := StartOfWeek(d);
    WeekdayShift(monday, 6);
    monday + 6
  }

  /**
   addWeeks(d, n): the same weekday, n weeks later (earlier when n < 0); its
   week's Monday moves by exactly n weeks.
   */
  function AddWeeks(d: Day, n: int): (r: Day)
    ensures Weekday(r) == Weekday(d)
    ensures n >= 0 ==> d <= r
    ensures n <= 0 ==> r <= d
    ensures StartOfWeek(r) == StartOfWeek(d) + 7 * n
  {
    WeekdayShift(d, 7 * n);
    WeekdayShift(StartOfWeek(d), 7 * n);
    StartOfWeekUnique(d + 7 * n, StartOfWeek(d) + 7 * n);
    d + 7 * n
  }

  /**
   eachDayOfInterval({ start, end }): every day from `start` to `end`, both
   included, in ascending order.
   */
  function EachDayOfInterval(start: Day, end: Day): (days: seq<Day>)
    requires start <= end
    ensures |days| == end - start + 1
    ensures forall i :: 0 <= i < |days| ==> days[i] == start + i
    decreases end - start
  {
    if start == end then [start] else [start] + EachDayOfInterval(start + 1, end)
  }
}
