/**
 * The two-level timetable both admin screens keep: class name → day name → the slots of that day.
 * Reading a slot list treats a missing class or day as empty (`prev[cls] || {}` and then
 * `classData[day] || []`); writing one spreads the old class entry and the old table around the
 * new list, so nothing else in the table changes.
 */
module Schedule {

  type Table<S> = map<string, map<string, seq<S>>>

  /** `schedule[cls]?.[day] || []` */
  function DayList<S>(t: Table<S>, cls: string, day: string): (r: seq<S>)
    ensures cls in t && day in t[cls] ==> r == t[cls][day]
    ensures cls !in t || day !in t[cls] ==> r == []
  {
    if cls in t && day in t[cls] then t[cls][day] else []
  }

  /** `{ ...prev, [cls]: { ...classData, [day]: slots } }` */
  function SetDay<S>(t: Table<S>, cls: string, day: string, slots: seq<S>): (r: Table<S>)
    ensures r.Keys == t.Keys + {cls}
    ensures r[cls].Keys == (if cls in t then t[cls].Keys else {}) + {day}
    ensures DayList(r, cls, day) == slots
    ensures forall c :: c in t && c != cls ==> r[c] == t[c]
    ensures forall d :: cls in t && d in t[cls] && d != day ==> r[cls][d] == t[cls][d]
  {
    var classData := if cls in t then t[cls] else map[];
    t[cls := classData[day := slots]]
  }

  /** Writing one day's list leaves every other (class, day) reading exactly as before. */
  lemma SetDayFrame<S>(t: Table<S>, cls: string, day: string, slots: seq<S>, c: string, d: string)
    requires c != cls || d != day
    ensures DayList(SetDay(t, cls, day, slots), c, d) == DayList(t, c, d)
  {
  }

  /** A second write to the same day replaces the first one entirely. */
  lemma SetDayTwice<S>(t: Table<S>, cls: string, day: string, a: seq<S>, b: seq<S>)
    ensures SetDay(SetDay(t, cls, day, a), cls, day, b) == SetDay(t, cls, day, b)
  {
    var classData := if cls in t then t[cls] else map[];
    assert classData[day := a][day := b] == classData[day := b];
  }

  /** Writing back the list that is already stored changes nothing. */
  lemma SetDayOwnList<S>(t: Table<S>, cls: string, day: string)
    requires cls in t && day in t[cls]
    ensures SetDay(t, cls, day, DayList(t, cls, day)) == t
  {
    assert t[cls][day := t[cls][day]] == t[cls];
  }
}
