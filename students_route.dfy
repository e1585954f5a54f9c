/**
 * The student routes of the server: `POST /` validates and upserts a student record keyed by
 * `studentId`, and `GET /:studentId/overview` reports the record with every subject's attendance
 * zeroed and the overall statistics derived from the subject totals. The Mongo collection is a map
 * from `studentId` to the stored record.
 */
module StudentsRoute {
  import opened Opt

  /** A subject entry; `total` is `None` when the field is absent. */
  datatype Subject = Subject(name: string, attended: int, total: Option<int>, percent: int,
                             color: string, absent: int)

  datatype StudentDoc = StudentDoc(studentId: string, name: string, semester: string,
                                   subjects: seq<Subject>)

  type Store = map<string, StudentDoc>

  /** The request body of `POST /`; an absent field is `None`. */
  datatype PostBody = PostBody(studentId: Option<string>, name: Option<string>,
                               semester: Option<string>, subjects: Option<seq<Subject>>)

  datatype PostResult =
    | BadRequest(message: string)  // status 400
    | Saved(doc: StudentDoc)       // the upserted document

  /** A string field is truthy in JavaScript when present and not empty. */
  predicate Truthy(s: Option<string>) {
    s.Some? && s.value != ""
  }

  /** `POST /`: the new store and the response. */
  function Post(store: Store, body: PostBody): (res: (Store, PostResult))
    ensures res.1.BadRequest? <==> !Truthy(body.studentId) || !Truthy(body.name)
    ensures res.1.BadRequest? ==> res.0 == store && res.1.message == "studentId and name are required"
    ensures res.1.Saved? ==>
      var id := body.studentId.value;
      && res.1.doc == StudentDoc(id, body.name.value, body.semester.GetOr(""), body.subjects.GetOr([]))
      && res.0 == store[id := res.1.doc]
  {
    if !Truthy(body.studentId) || !Truthy(body.name) then
      (store, BadRequest("studentId and name are required"))
    else
      var id := body.studentId.value;
      var doc := StudentDoc(id, body.name.value,
                            if Truthy(body.semester) then body.semester.value else "",
                            body.subjects.GetOr([]));
      (store[id := doc], Saved(doc))
  }

  /** A successful upsert touches only its own key, and reading it back gives the saved record. */
  lemma PostOnlyTouchesItsKey(store: Store, body: PostBody, other: string)
    requires Post(store, body).1.Saved?
    ensures var (store', res) := Post(store, body);
      && body.studentId.value in store' && store'[body.studentId.value] == res.doc
      && (other != body.studentId.value ==>
            (other in store <==> other in store') && (other in store ==> store'[other] == store[other]))
  {
  }

  /** `s.total || 0` */
  function TotalOf(s: Subject): int {
    match s.total
    case None => 0
    case Some(t) => t
  }

  /** The overview's copy of a subject: same fields, attendance zeroed. */
  function Zeroed(s: Subject): (z: Subject)
    ensures z.name == s.name && z.total == s.total && z.color == s.color
    ensures z.attended == 0 && z.absent == 0 && z.percent == 0
  {
    s.(attended := 0, absent := 0, percent := 0)
  }

  function ZeroAll(subjects: seq<Subject>): (r: seq<Subject>)
    ensures |r| == |subjects|
    ensures forall i :: 0 <= i < |r| ==> r[i] == Zeroed(subjects[i])
  {
    if subjects == [] then [] else [Zeroed(subjects[0])] + ZeroAll(subjects[1..])
  }

  /** `subjects.reduce((sum, s) => sum + (s.total || 0), 0)` */
  function TotalClasses(subjects: seq<Subject>): int {
    if subjects == [] then 0 else TotalClasses(subjects[..|subjects| - 1]) + TotalOf(subjects[|subjects| - 1])
  }

  lemma {:induction false} TotalClassesAppend(a: seq<Subject>, b: seq<Subject>)
    ensures TotalClasses(a + b) == TotalClasses(a) + TotalClasses(b)
  {
    if b == [] {
      assert a + b == a;
    } else {
      assert (a + b)[..|a + b| - 1] == a + b[..|b| - 1];
      TotalClassesAppend(a, b[..|b| - 1]);
    }
  }

  /** Zeroing the attendance keeps every total, so the sum is the same. */
  lemma {:induction false} TotalClassesZeroed(subjects: seq<Subject>)
    ensures TotalClasses(ZeroAll(subjects)) == TotalClasses(subjects)
  {
    if subjects != [] {
      TotalClassesZeroed(subjects[1..]);
      assert subjects == [subjects[0]] + subjects[1..];
      TotalClassesAppend([subjects[0]], subjects[1..]);
      TotalClassesAppend([Zeroed(subjects[0])], ZeroAll(subjects[1..]));
      assert TotalClasses([subjects[0]]) == TotalOf(subjects[0]);
      assert TotalClasses([Zeroed(subjects[0])]) == TotalOf(subjects[0]);
    }
  }

  /** `Math.round`: the nearest integer, halves rounded up. */
  function Round(x: real): int {
    (x + 0.5).Floor
  }

  datatype StudentInfo = StudentInfo(name: string, id: string, semester: string)
  datatype Stats = Stats(totalClasses: int, attended: int, overallPercent: int)
  datatype Overview = Overview(student: StudentInfo, subjects: seq<Subject>, stats: Stats)

  datatype OverviewResult =
    | NotFound(message: string)  // status 404
    | Found(overview: Overview)

  /** `attended` is the constant 0; the percentage divides it by the total when the total is non-zero. */
  function OverallPercent(attended: int, totalClasses: int): int {
    if totalClasses != 0 then Round((attended as real / totalClasses as real) * 100.0) else 0
  }

  /** `GET /:studentId/overview` */
  function GetOverview(store: Store, studentId: string): (res: OverviewResult)
    ensures res.NotFound? <==> studentId !in store
    ensures res.NotFound? ==> res.message == "Student not found"
    ensures res.Found? ==>
      var doc := store[studentId];
      && res.overview.student == StudentInfo(doc.name, doc.studentId, doc.semester)
      && |res.overview.subjects| == |doc.subjects|
      && (forall i :: 0 <= i < |doc.subjects| ==>
            var z := res.overview.subjects[i];
            z == doc.subjects[i].(attended := 0, absent := 0, percent := 0))
      && res.overview.stats.totalClasses == TotalClasses(doc.subjects)
  {
    if studentId !in store then NotFound("Student not found")
    else
      var doc := store[studentId];
      var subjects := ZeroAll(doc.subjects);
      TotalClassesZeroed(doc.subjects);
      var totalClasses := TotalClasses(subjects);
      var attended := 0;
      Found(Overview(StudentInfo(doc.name, doc.studentId, doc.semester), subjects,
                     Stats(totalClasses, attended, OverallPercent(attended, totalClasses))))
  }

  /** No attendance is ever reported: both `attended` and the overall percentage are 0. */
  lemma OverviewReportsNoAttendance(store: Store, studentId: string)
    requires studentId in store
    ensures GetOverview(store, studentId).overview.stats.attended == 0
    ensures GetOverview(store, studentId).overview.stats.overallPercent == 0
  {
    var totalClasses := GetOverview(store, studentId).overview.stats.totalClasses;
    if totalClasses != 0 {
      assert (0 as real / totalClasses as real) * 100.0 == 0.0;
    }
  }

  /** A record saved by `POST /` is reported back under the same id, with the saved fields. */
  lemma PostThenOverview(store: Store, body: PostBody)
    requires Truthy(body.studentId) && Truthy(body.name)
    ensures var (store', _) := Post(store, body);
      var res := GetOverview(store', body.studentId.value);
      && res.Found?
      && res.overview.student ==
           StudentInfo(body.name.value, body.studentId.value, body.semester.GetOr(""))
      && |res.overview.subjects| == |body.subjects.GetOr([])|
  {
  }
}
