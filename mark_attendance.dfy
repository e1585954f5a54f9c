/**
 * The attendance sheet a teacher fills in for one class: a dictionary from student id to a present
 * flag, filled for the whole roster at start and by the bulk actions, toggled one student at a
 * time, and counted when the sheet is submitted.
 */
module MarkAttendance {

  datatype Student = Student(id: string, name: string, rollNo: string)

  /** `MOCK_STUDENTS`, the roster the screen marks. */
  const MockStudents: seq<Student> := [
    Student("s1", "Alice Johnson", "101"),
    Student("s2", "Bob Smith", "102"),
    Student("s3", "Charlie Davis", "103"),
    Student("s4", "Diana Evans", "104"),
    Student("s5", "Ethan Hunt", "105")
  ]

  /** The ids of a roster. */
  function Ids(roster: seq<Student>): set<string> {
    if roster == [] then {} else Ids(roster[..|roster| - 1]) + {roster[|roster| - 1].id}
  }

  lemma {:induction false} IdsMembership(roster: seq<Student>, id: string)
    ensures id in Ids(roster) <==> exists i :: 0 <= i < |roster| && roster[i].id == id
  {
    if roster != [] {
      var n := |roster| - 1;
      IdsMembership(roster[..n], id);
      if exists i :: 0 <= i < |roster| && roster[i].id == id {
        var i :| 0 <= i < |roster| && roster[i].id == id;
        if i < n {
          assert roster[..n][i] == roster[i];
        }
      }
    }
  }

  predicate DistinctIds(roster: seq<Student>) {
    forall i, j :: 0 <= i < j < |roster| ==> roster[i].id != roster[j].id
  }

  /** With distinct ids, there are as many ids as students. */
  lemma {:induction false} IdsCount(roster: seq<Student>)
    requires DistinctIds(roster)
    ensures |Ids(roster)| == |roster|
  {
    if roster != [] {
      var n := |roster| - 1;
      var init := roster[..n];
      assert DistinctIds(init) by {
        forall i, j | 0 <= i < j < n ensures init[i].id != init[j].id {
          assert init[i] == roster[i] && init[j] == roster[j];
        }
      }
      IdsCount(init);
      IdsMembership(init, roster[n].id);
      assert forall i :: 0 <= i < n ==> init[i] == roster[i];
      assert roster[n].id !in Ids(init);
    }
  }

  /** Every student of the roster has the flag `status`, and the sheet holds no other entry. */
  predicate Filled(roster: seq<Student>, sheet: map<string, bool>, status: bool) {
    sheet.Keys == Ids(roster) && forall id :: id in sheet ==> sheet[id] == status
  }

  /** `roster.every(s => attendance[s.id] === status)`: an absent entry is neither true nor false. */
  predicate AllMarked(roster: seq<Student>, sheet: map<string, bool>, status: bool) {
    forall i :: 0 <= i < |roster| ==> roster[i].id in sheet && sheet[roster[i].id] == status
  }

  lemma FilledIsAllMarked(roster: seq<Student>, sheet: map<string, bool>, status: bool)
    requires Filled(roster, sheet, status)
    ensures AllMarked(roster, sheet, status)
  {
    forall i | 0 <= i < |roster| ensures roster[i].id in sheet {
      IdsMembership(roster, roster[i].id);
    }
  }

  /** A sheet for a non-empty roster is never all present and all absent at once. */
  lemma NotBothAllPresentAndAllAbsent(roster: seq<Student>, sheet: map<string, bool>)
    requires roster != []
    ensures !(AllMarked(roster, sheet, true) && AllMarked(roster, sheet, false))
  {
    if AllMarked(roster, sheet, true) {
      assert sheet[roster[0].id];
    }
  }

  /** `{ ...prev, [id]: !prev[id] }`: a missing entry reads as `undefined`, so it becomes present. */
  function Toggled(sheet: map<string, bool>, id: string): (r: map<string, bool>)
    ensures r.Keys == sheet.Keys + {id}
    ensures r[id] == !(id in sheet && sheet[id])
    ensures forall k :: k in sheet && k != id ==> r[k] == sheet[k]
  {
    sheet[id := !(id in sheet && sheet[id])]
  }

  /** Toggling a student who is on the sheet twice gives the sheet back. */
  lemma ToggleTwice(sheet: map<string, bool>, id: string)
    requires id in sheet
    ensures Toggled(Toggled(sheet, id), id) == sheet
  {
  }

  /** Toggling keeps a filled roster's keys: the flags change, the set of students does not. */
  lemma ToggleKeepsKeys(roster: seq<Student>, sheet: map<string, bool>, i: nat)
    requires i < |roster| && sheet.Keys == Ids(roster)
    ensures Toggled(sheet, roster[i].id).Keys == Ids(roster)
  {
    IdsMembership(roster, roster[i].id);
  }

  /** The ids whose flag is set: `Object.values(attendance).filter(status => status)`. */
  function Present(sheet: map<string, bool>): set<string> {
    set id | id in sheet && sheet[id]
  }

  function Absent(sheet: map<string, bool>): set<string> {
    set id | id in sheet && !sheet[id]
  }

  /**
   * When the sheet holds exactly the roster's ids and they are distinct, `absentCount` is the
   * number of students marked absent, and the two counts add up to the roster.
   */
  lemma CountsPartitionRoster(roster: seq<Student>, sheet: map<string, bool>)
    requires DistinctIds(roster) && sheet.Keys == Ids(roster)
    ensures |Present(sheet)| + |Absent(sheet)| == |roster|
    ensures |roster| - |Present(sheet)| == |Absent(sheet)|
  {
    IdsCount(roster);
    assert Present(sheet) + Absent(sheet) == sheet.Keys;
    assert Present(sheet) * Absent(sheet) == {};
  }

  /** What the screen navigates to after a confirmed submit. */
  datatype Summary = Summary(className: string, present: int, total: int)

  class AttendanceSheet {
    const roster: seq<Student>
    var attendance: map<string, bool>

    /** The screen opens with an empty sheet; the effect below fills it. */
    constructor (roster: seq<Student>)
      ensures this.roster == roster && attendance == map[]
    {
      this.roster := roster;
      attendance := map[];
    }

    /** The `forEach` that builds `{ [s.id]: status, ... }` for the whole roster. */
    method FillStatus(status: bool) returns (sheet: map<string, bool>)
      ensures Filled(roster, sheet, status)
    {
      sheet := map[];
      var i := 0;
      while i < |roster|
        invariant 0 <= i <= |roster|
        invariant Filled(roster[..i], sheet, status)
      {
        assert roster[..i + 1][..i] == roster[..i];
        sheet := sheet[roster[i].id := status];
        i := i + 1;
      }
      assert roster[..i] == roster;
    }

    /** The mount effect: everyone starts present. */
    method Initialize()
      modifies this
      ensures Filled(roster, attendance, true)
      ensures AllMarked(roster, attendance, true)
    {
      attendance := FillStatus(true);
      FilledIsAllMarked(roster, attendance, true);
    }

    /** `markAll(status)`: every student gets `status`, and the matching bulk button shows as selected. */
    method MarkAll(status: bool)
      modifies this
      ensures Filled(roster, attendance, status)
      ensures AllMarked(roster, attendance, status)
    {
      attendance := FillStatus(status);
      FilledIsAllMarked(roster, attendance, status);
    }

    /** `toggleSwitch(id)` */
    method ToggleSwitch(id: string)
      modifies this
      ensures attendance == Toggled(old(attendance), id)
    {
      attendance := attendance[id := !(id in attendance && attendance[id])];
    }

    /** The counts `handleSubmit` shows, and the summary a confirmed submit passes on. */
    method Submit(className: string) returns (presentCount: int, absentCount: int, summary: Summary)
      ensures presentCount == |Present(attendance)| && absentCount == |roster| - presentCount
      ensures summary == Summary(className, presentCount, |roster|)
      ensures DistinctIds(roster) && attendance.Keys == Ids(roster) ==>
        presentCount + |Absent(attendance)| == |roster| && absentCount == |Absent(attendance)|
    {
      presentCount := |Present(attendance)|;
      absentCount := |roster| - presentCount;
      summary := Summary(className, presentCount, |roster|);
      if DistinctIds(roster) && attendance.Keys == Ids(roster) {
        CountsPartitionRoster(roster, attendance);
      }
    }
  }

  /** The screen's own roster has distinct ids, so its counts always partition it. */
  lemma MockStudentsDistinct()
    ensures DistinctIds(MockStudents) && |Ids(MockStudents)| == 5
  {
    IdsCount(MockStudents);
  }
}
