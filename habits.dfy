/**
 The habit collection of components/HabitTracker.tsx: the `Habit` record, the
 two updates the component applies to its `habits` array (addHabit and
 toggleHabit compute a new array; they do not edit the old one) and the
 completion lookup both views use.

 A completion is keyed by `format(day, 'yyyy-MM-dd')`, a string that names
 exactly one calendar day from the year 1 AD onward; the model keys it by the
 day number itself.
 */
module Habits {
  import opened DateFns
  import opened JsString

  /** interface Habit: an id, a display name and a per-day completion flag. */
  datatype Habit = Habit(id: string, name: string, completions: map<Day, bool>)

  /** `habit.completions[key] || false`: a day with no entry reads as not done. */
  function IsCompleted(h: Habit, d: Day): (done: bool)
    ensures d !in h.completions ==> !done
    ensures d in h.completions ==> done == h.completions[d]
  {
    d in h.completions && h.completions[d]
  }

  /**
   The new array addHabit stores: unchanged for a blank name, otherwise the old
   habits followed by one new habit with the given id, the name as typed (not
   trimmed) and no completions.
   */
  function AddHabit(habits: seq<Habit>, id: string, name: string): (r: seq<Habit>)
    ensures IsBlank(name) ==> r == habits
    ensures !IsBlank(name) ==>
      && |r| == |habits| + 1
      && r[..|habits|] == habits
      && r[|habits|] == Habit(id, name, map[])
  {
    if Trim(name) != "" then habits + [Habit(id, name, map[])] else habits
  }

  /** No two habits share an id (what `Date.now()` ids are meant to give). */
  predicate UniqueIds(habits: seq<Habit>)
  {
    forall i, j :: 0 <= i < j < |habits| ==> habits[i].id != habits[j].id
  }

  /** Adding a habit under an id not yet in use keeps the ids unique. */
  lemma AddHabitKeepsUniqueIds(habits: seq<Habit>, id: string, name: string)
    requires UniqueIds(habits)
    requires forall i :: 0 <= i < |habits| ==> habits[i].id != id
    ensures UniqueIds(AddHabit(habits, id, name))
  {
  }

  /** The copy of one matching habit: `{ ...habit, completions }` with one day flipped. */
  function ToggleDay(h: Habit, d: Day): (r: Habit)
    ensures r.id == h.id && r.name == h.name
    ensures d in r.completions && IsCompleted(r, d) == !IsCompleted(h, d)
    ensures r.completions.Keys == h.completions.Keys + {d}
    ensures r.completions - {d} == h.completions - {d}
  {
    h.(completions := h.completions[d := !IsCompleted(h, d)])
  }

  /**
   `habits.map(...)` in toggleHabit: every habit whose id is `id` gets day `d`
   flipped, every other habit is passed through as it is, in the same order.
   Ids are not assumed unique, so all habits with that id are flipped.
   */
  function Toggle(habits: seq<Habit>, id: string, d: Day): (r: seq<Habit>)
    ensures |r| == |habits|
    ensures forall i :: 0 <= i < |r| && habits[i].id == id ==> r[i] == ToggleDay(habits[i], d)
    ensures forall i :: 0 <= i < |r| && habits[i].id != id ==> r[i] == habits[i]
  {
    if habits == [] then []
    else
      var h := habits[0];
      [if h.id == id then ToggleDay(h, d) else h] + Toggle(habits[1..], id, d)
  }

  /** Toggling an id no habit carries leaves the whole array as it was. */
  lemma ToggleUnknownId(habits: seq<Habit>, id: string, d: Day)
    requires forall i :: 0 <= i < |habits| ==> habits[i].id != id
    ensures Toggle(habits, id, d) == habits
  {
  }

  /** A toggle never changes an id, so it keeps the ids unique. */
  lemma ToggleKeepsUniqueIds(habits: seq<Habit>, id: string, d: Day)
    requires UniqueIds(habits)
    ensures UniqueIds(Toggle(habits, id, d))
  {
  }

  /**
   What the views read after a toggle: only day `d` of the habits with id `id`
   changes, and it reads as the negation of what it read before.
   */
  lemma ToggleLookup(habits: seq<Habit>, id: string, d: Day, i: nat, k: Day)
    requires i < |habits|
    ensures |Toggle(habits, id, d)| == |habits|
    ensures Toggle(habits, id, d)[i].id == habits[i].id
    ensures Toggle(habits, id, d)[i].name == habits[i].name
    ensures IsCompleted(Toggle(habits, id, d)[i], k) ==
      if habits[i].id == id && k == d then !IsCompleted(habits[i], k) else IsCompleted(habits[i], k)
  {
  }

  /**
   Toggling the same (id, day) twice restores every lookup, and ids, names and
   order; the maps themselves may differ (see ToggleTwiceKeepsFalseEntry).
   */
  lemma ToggleTwice(habits: seq<Habit>, id: string, d: Day, i: nat, k: Day)
    requires i < |habits|
    ensures |Toggle(Toggle(habits, id, d), id, d)| == |habits|
    ensures Toggle(Toggle(habits, id, d), id, d)[i].id == habits[i].id
    ensures Toggle(Toggle(habits, id, d), id, d)[i].name == habits[i].name
    ensures IsCompleted(Toggle(Toggle(habits, id, d), id, d)[i], k) == IsCompleted(habits[i], k)
  {
  }

  /**
   A day with no entry becomes an explicit `false` after two toggles, so the
   stored completions map is not restored even though every lookup is.
   */
  lemma ToggleTwiceKeepsFalseEntry(id: string, name: string, d: Day)
    ensures var h := Habit(id, name, map[]);
      Toggle(Toggle([h], id, d), id, d) == [Habit(id, name, map[d := false])]
  {
    var h := Habit(id, name, map[]);
    var once := Toggle([h], id, d);
    assert once[0] == Habit(id, name, map[d := true]);
    var twice := Toggle(once, id, d);
    assert twice[0] == Habit(id, name, map[d := true][d := false]);
    assert map[d := true][d := false] == map[d := false];
  }
}
