/**
 * The user routes of the server: lookup by phone number (the login call), by user id (the
 * profile) and a teacher's assigned subjects, and the payload every user lookup returns. The Mongo
 * collection is a sequence of user records in its natural order; `findOne` returns the first
 * record that satisfies the query.
 */
module UsersRoute {
  import opened Opt
  import opened Text
  import opened ListOps

  datatype StudentRef = StudentRef(studentId: string, name: string, rollNumber: string)

  /** A subject assigned to a teacher; absent numeric or list fields are `None`. */
  datatype Assignment = Assignment(subjectId: string, name: string, className: string, time: string,
                                   totalStudents: Option<int>, students: Option<seq<StudentRef>>)

  datatype User = User(
    userId: string,
    role: string,
    name: string,
    phoneNumber: string,
    rollNumber: Option<string>,
    cls: Option<string>,  // the `class` field
    subjects: Option<string>,
    email: string,
    department: string,
    semester: string,
    subjectsAssigned: Option<seq<Assignment>>)

  // ---------------------------------------------------------------------------
  // buildUserPayload

  /** `s.totalStudents || (s.students?.length || 0)`: a zero or absent count falls back to the roster size. */
  function StudentCount(s: Assignment): (n: int)
    ensures s.totalStudents.Some? && s.totalStudents.value != 0 ==> n == s.totalStudents.value
    ensures (s.totalStudents.None? || s.totalStudents.value == 0) ==>
      n == (match s.students case None => 0 case Some(st) => |st|)
  {
    if s.totalStudents.Some? && s.totalStudents.value != 0 then s.totalStudents.value
    else if s.students.Some? then |s.students.value|
    else 0
  }

  /** The `reduce` over the assigned subjects, oldest entry first. */
  function TotalStudents(subjects: seq<Assignment>): int {
    if subjects == [] then 0 else TotalStudents(subjects[..|subjects| - 1]) + StudentCount(subjects[|subjects| - 1])
  }

  lemma {:induction false} TotalStudentsAppend(a: seq<Assignment>, b: seq<Assignment>)
    ensures TotalStudents(a + b) == TotalStudents(a) + TotalStudents(b)
  {
    if b == [] {
      assert a + b == a;
    } else {
      assert (a + b)[..|a + b| - 1] == a + b[..|b| - 1];
      TotalStudentsAppend(a, b[..|b| - 1]);
    }
  }

  /** With no stored count negative, the total is at least every single subject's count. */
  lemma {:induction false} TotalStudentsBounds(subjects: seq<Assignment>, i: nat)
    requires i < |subjects|
    requires forall j :: 0 <= j < |subjects| ==> StudentCount(subjects[j]) >= 0
    ensures StudentCount(subjects[i]) <= TotalStudents(subjects)
  {
    var n := |subjects| - 1;
    assert forall j :: 0 <= j < n ==> subjects[..n][j] == subjects[j];
    if i < n {
      TotalStudentsBounds(subjects[..n], i);
    } else {
      TotalStudentsNonNegative(subjects[..n]);
    }
  }

  lemma {:induction false} TotalStudentsNonNegative(subjects: seq<Assignment>)
    requires forall j :: 0 <= j < |subjects| ==> StudentCount(subjects[j]) >= 0
    ensures TotalStudents(subjects) >= 0
  {
    if subjects != [] {
      var n := |subjects| - 1;
      assert forall j :: 0 <= j < n ==> subjects[..n][j] == subjects[j];
      TotalStudentsNonNegative(subjects[..n]);
    }
  }

  datatype Stats = Stats(classesAssigned: int, totalStudents: int)

  datatype Payload = Payload(
    id: string,
    role: string,
    name: string,
    phone: string,
    phoneNumber: string,
    email: string,
    department: string,
    semester: string,
    cls: Option<string>,  // the `class` key
    className: Option<string>,
    rollNo: Option<string>,
    rollNumber: Option<string>,
    subjects: Option<string>,
    subjectsAssigned: seq<Assignment>,
    stats: Stats)

  /** `buildUserPayload(user)` */
  function BuildUserPayload(user: User): (p: Payload)
    ensures p.id == user.userId && p.role == user.role && p.name == user.name
    ensures p.phone == user.phoneNumber && p.phoneNumber == user.phoneNumber
    ensures p.cls == user.cls && p.className == user.cls
    ensures p.rollNo == user.rollNumber && p.rollNumber == user.rollNumber
    ensures p.email == user.email && p.department == user.department && p.semester == user.semester
    ensures p.subjects == user.subjects
    ensures p.stats.totalStudents == TotalStudents(user.subjectsAssigned.GetOr([]))
    ensures user.subjectsAssigned.None? ==> p.subjectsAssigned == [] && p.stats == Stats(0, 0)
    ensures user.subjectsAssigned.Some? ==>
      p.subjectsAssigned == user.subjectsAssigned.value
      && p.stats.classesAssigned == |user.subjectsAssigned.value|
  {
    var subjectsAssigned := user.subjectsAssigned.GetOr([]);
    var classesAssigned := |subjectsAssigned|;
    var totalStudents := TotalStudents(subjectsAssigned);
    Payload(user.userId, user.role, user.name, user.phoneNumber, user.phoneNumber, user.email,
            user.department, user.semester, user.cls, user.cls, user.rollNumber, user.rollNumber,
            user.subjects, subjectsAssigned, Stats(classesAssigned, totalStudents))
  }

  /** The reported student total adds one subject's count per subject the payload lists. */
  lemma PayloadTotalIsPerSubject(user: User, extra: Assignment)
    requires user.subjectsAssigned.Some?
    ensures var more := user.(subjectsAssigned := Some(user.subjectsAssigned.value + [extra]));
      BuildUserPayload(more).stats.totalStudents
        == BuildUserPayload(user).stats.totalStudents + StudentCount(extra)
      && BuildUserPayload(more).stats.classesAssigned == BuildUserPayload(user).stats.classesAssigned + 1
  {
    var s := user.subjectsAssigned.value;
    assert (s + [extra])[..|s|] == s;
  }

  // ---------------------------------------------------------------------------
  // GET /phone/:phone

  /** `digits.length > n ? digits.slice(-n) : digits` */
  function Tail(digits: string, n: nat): (t: string)
    ensures EndsWith(digits, t)
    ensures |t| == if |digits| > n then n else |digits|
  {
    if |digits| > n then digits[|digits| - n..] else digits
  }

  /** One clause of the `$or` query on `phoneNumber`. */
  datatype Condition =
    | Equals(value: string)      // { phoneNumber: value }
    | EndsWithDigits(tail: string)  // { phoneNumber: { $regex: tail + "$" } }

  /**
   * What `{ $regex: t + "$" }` tests when `t` holds digits only: the pattern has no special
   * characters, and `$` without the multiline flag matches at the very end of the string or just
   * before a final newline.
   */
  predicate RegexEndsWith(stored: string, t: string) {
    EndsWith(stored, t) || EndsWith(stored, t + "\n")
  }

  /** A stored number that the pattern for `a` accepts is accepted by the pattern for any suffix of `a`. */
  lemma RegexEndsWithSuffix(stored: string, a: string, b: string)
    requires RegexEndsWith(stored, a) && EndsWith(a, b)
    ensures RegexEndsWith(stored, b)
  {
    if EndsWith(stored, a) {
      EndsWithTransitive(stored, a, b);
    } else {
      assert (a + "\n")[|a + "\n"| - |b + "\n"|..] == a[|a| - |b|..] + "\n";
      EndsWithTransitive(stored, a + "\n", b + "\n");
    }
  }

  predicate Satisfies(stored: string, c: Condition) {
    match c
    case Equals(v) => stored == v
    case EndsWithDigits(t) => RegexEndsWith(stored, t)
  }

  predicate AnySatisfied(stored: string, conds: seq<Condition>) {
    exists i :: 0 <= i < |conds| && Satisfies(stored, conds[i])
  }

  /**
   * The phone numbers the lookup accepts, stated directly: equal to the raw parameter, or to the
   * digits, the 10-digit tail or the 9-digit tail, each with or without a leading `+`; or, when at
   * least seven digits were given, ending with the 9-digit tail (or with it and one final newline).
   */
  predicate PhoneMatches(stored: string, phone: string) {
    Accepts(stored, phone, DigitsOf(phone), Tail(DigitsOf(phone), 10), Tail(DigitsOf(phone), 9))
  }

  predicate Accepts(stored: string, phone: string, digits: string, tail10: string, tail9: string) {
    || stored == phone
    || stored == digits || stored == "+" + digits
    || stored == tail10 || stored == "+" + tail10
    || stored == tail9 || stored == "+" + tail9
    || (|digits| >= 7 && RegexEndsWith(stored, tail9))
  }

  /** The seven equality clauses, in the order the route lists them. */
  function EqualityClauses(phone: string, digits: string, tail10: string, tail9: string): seq<Condition> {
    [Equals(phone), Equals(digits), Equals("+" + digits), Equals(tail10),
     Equals("+" + tail10), Equals(tail9), Equals("+" + tail9)]
  }

  /** `orConditions`, built as the route builds it: seven equalities, then the suffix clauses. */
  method BuildConditions(phone: string) returns (conds: seq<Condition>)
    ensures var digits := DigitsOf(phone);
      var tail10 := Tail(digits, 10);
      var tail9 := Tail(digits, 9);
      && |conds| >= 7
      && conds[..7] == EqualityClauses(phone, digits, tail10, tail9)
      && (|digits| < 7 ==> |conds| == 7)
      && (|digits| >= 7 ==> |conds| >= 8 && conds[7] == EndsWithDigits(digits))
    ensures forall i, j :: 7 <= i < j < |conds| ==> conds[i] != conds[j]
    ensures forall i :: 7 <= i < |conds| ==> conds[i].EndsWithDigits? && AllDigits(conds[i].tail)
    ensures forall stored :: AnySatisfied(stored, conds) <==> PhoneMatches(stored, phone)
  {
    var digits := DigitsOf(phone);
    var tail10 := Tail(digits, 10);
    var tail9 := Tail(digits, 9);
    var eqs := EqualityClauses(phone, digits, tail10, tail9);
    conds := eqs;
    ghost var extra: seq<Condition> := [];
    if |digits| >= 7 {
      conds := conds + [EndsWithDigits(digits)];
      extra := extra + [EndsWithDigits(digits)];
      if tail10 != [] && tail10 != digits {
        conds := conds + [EndsWithDigits(tail10)];
        extra := extra + [EndsWithDigits(tail10)];
      }
      if tail9 != [] && tail9 != digits && tail9 != tail10 {
        conds := conds + [EndsWithDigits(tail9)];
        extra := extra + [EndsWithDigits(tail9)];
      }
    }
    assert conds == eqs + extra;
    SuffixClauses(digits, extra);
    ClausesOfPhone(phone, extra);
  }

  /** Seven equalities followed by the route's suffix clauses accept exactly the numbers `PhoneMatches` names. */
  lemma ClausesOfPhone(phone: string, extra: seq<Condition>)
    requires var digits := DigitsOf(phone);
      && (|digits| >= 7 ==> EndsWithDigits(Tail(digits, 9)) in extra)
      && (|digits| < 7 ==> extra == [])
      && forall i :: 0 <= i < |extra| ==>
           extra[i] == EndsWithDigits(digits) || extra[i] == EndsWithDigits(Tail(digits, 10))
           || extra[i] == EndsWithDigits(Tail(digits, 9))
    ensures var digits := DigitsOf(phone);
      forall stored :: AnySatisfied(stored, EqualityClauses(phone, digits, Tail(digits, 10), Tail(digits, 9)) + extra)
                       <==> PhoneMatches(stored, phone)
  {
    var digits := DigitsOf(phone);
    var tail10, tail9 := Tail(digits, 10), Tail(digits, 9);
    var conds := EqualityClauses(phone, digits, tail10, tail9) + extra;
    assert conds[..7] == EqualityClauses(phone, digits, tail10, tail9) && conds[7..] == extra;
    TailsNest(digits);
    forall stored
      ensures AnySatisfied(stored, conds) <==> PhoneMatches(stored, phone)
    {
      ClausesMeaning(stored, phone, digits, tail10, tail9, conds);
    }
  }

  /** What the route's suffix clauses are, for a digit string of at least seven characters or not. */
  lemma SuffixClauses(digits: string, extra: seq<Condition>)
    requires AllDigits(digits)
    requires var tail10, tail9 := Tail(digits, 10), Tail(digits, 9);
      extra == if |digits| < 7 then [] else
        [EndsWithDigits(digits)]
        + (if tail10 != [] && tail10 != digits then [EndsWithDigits(tail10)] else [])
        + (if tail9 != [] && tail9 != digits && tail9 != tail10 then [EndsWithDigits(tail9)] else [])
    ensures |digits| >= 7 ==> |extra| >= 1 && extra[0] == EndsWithDigits(digits)
    ensures |digits| >= 7 ==> EndsWithDigits(Tail(digits, 9)) in extra
    ensures forall i, j :: 0 <= i < j < |extra| ==> extra[i] != extra[j]
    ensures forall i :: 0 <= i < |extra| ==> extra[i].EndsWithDigits? && AllDigits(extra[i].tail)
    ensures forall i :: 0 <= i < |extra| ==>
      extra[i] == EndsWithDigits(digits) || extra[i] == EndsWithDigits(Tail(digits, 10))
      || extra[i] == EndsWithDigits(Tail(digits, 9))
  {
    var tail10, tail9 := Tail(digits, 10), Tail(digits, 9);
    assert AllDigits(tail10) && AllDigits(tail9);
    if |digits| >= 7 {
      if |digits| <= 9 {
        assert tail10 == digits && tail9 == digits;
        assert extra == [EndsWithDigits(digits)];
      } else if |digits| == 10 {
        assert tail10 == digits && |tail9| == 9;
        assert extra == [EndsWithDigits(digits), EndsWithDigits(tail9)];
      } else {
        assert |tail10| == 10 && |tail9| == 9;
        assert extra == [EndsWithDigits(digits), EndsWithDigits(tail10), EndsWithDigits(tail9)];
      }
    }
  }

  lemma TailsAreDigits(digits: string)
    requires AllDigits(digits)
    ensures AllDigits(Tail(digits, 10)) && AllDigits(Tail(digits, 9))
  {
  }

  /** The tails nest: the 9-digit tail is a suffix of the 10-digit one. */
  lemma TailsNest(digits: string)
    ensures EndsWith(Tail(digits, 10), Tail(digits, 9))
  {
    var t10, t9 := Tail(digits, 10), Tail(digits, 9);
    if |digits| > 10 {
      assert t10[|t10| - |t9|..] == digits[|digits| - 9..];
    }
  }

  /** The clauses accept a phone exactly when `Accepts` does: every suffix clause implies the 9-digit one. */
  lemma ClausesMeaning(stored: string, phone: string, digits: string, tail10: string, tail9: string,
                       conds: seq<Condition>)
    requires EndsWith(digits, tail10) && EndsWith(tail10, tail9)
    requires |conds| >= 7 && conds[..7] == EqualityClauses(phone, digits, tail10, tail9)
    requires |digits| < 7 ==> |conds| == 7
    requires |digits| >= 7 ==> EndsWithDigits(tail9) in conds[7..]
    requires forall i :: 7 <= i < |conds| ==>
      conds[i] == EndsWithDigits(digits) || conds[i] == EndsWithDigits(tail10)
      || conds[i] == EndsWithDigits(tail9)
    ensures AnySatisfied(stored, conds) <==> Accepts(stored, phone, digits, tail10, tail9)
  {
    if Accepts(stored, phone, digits, tail10, tail9) {
      if |digits| >= 7 && RegexEndsWith(stored, tail9) {
        var i :| 0 <= i < |conds[7..]| && conds[7..][i] == EndsWithDigits(tail9);
        assert Satisfies(stored, conds[7 + i]);
      } else {
        var k := if stored == phone then 0 else if stored == digits then 1
          else if stored == "+" + digits then 2 else if stored == tail10 then 3
          else if stored == "+" + tail10 then 4 else if stored == tail9 then 5 else 6;
        assert conds[k] == conds[..7][k];
        assert Satisfies(stored, conds[k]);
      }
    }
    if AnySatisfied(stored, conds) {
      var i :| 0 <= i < |conds| && Satisfies(stored, conds[i]);
      if i < 7 {
        assert conds[i] == conds[..7][i];
      } else if conds[i] == EndsWithDigits(digits) {
        EndsWithTransitive(digits, tail10, tail9);
        RegexEndsWithSuffix(stored, digits, tail9);
      } else if conds[i] == EndsWithDigits(tail10) {
        RegexEndsWithSuffix(stored, tail10, tail9);
      }
    }
  }
  // ---------------------------------------------------------------------------
  // The handlers

  datatype Response<T> =
    | NotFound(message: string)  // status 404
    | Ok(body: T)

  /** `findOne({ $or: conds })`: the first stored user whose number satisfies some clause. */
  function FindByClauses(store: seq<User>, conds: seq<Condition>): Option<nat> {
    FirstWhere(store, (u: User) => AnySatisfied(u.phoneNumber, conds))
  }

  /** A query whose clauses accept exactly `PhoneMatches` finds the first user whose number matches. */
  lemma FindByClausesMeans(store: seq<User>, conds: seq<Condition>, phone: string)
    requires forall stored :: AnySatisfied(stored, conds) <==> PhoneMatches(stored, phone)
    ensures var found := FindByClauses(store, conds);
      && (found.None? <==> forall j :: 0 <= j < |store| ==> !PhoneMatches(store[j].phoneNumber, phone))
      && (found.Some? ==>
            && found.value < |store| && PhoneMatches(store[found.value].phoneNumber, phone)
            && forall j :: 0 <= j < found.value ==> !PhoneMatches(store[j].phoneNumber, phone))
  {
    var p := (u: User) => AnySatisfied(u.phoneNumber, conds);
    var found := FirstWhere(store, p);
    assert forall j :: 0 <= j < |store| ==> (p(store[j]) <==> PhoneMatches(store[j].phoneNumber, phone));
  }

  /** The route's `findOne` on `orConditions`: the index of the first user whose number the lookup accepts. */
  method FindByPhone(store: seq<User>, phone: string) returns (found: Option<nat>)
    ensures found.None? <==> forall j :: 0 <= j < |store| ==> !PhoneMatches(store[j].phoneNumber, phone)
    ensures found.Some? ==>
      && found.value < |store| && PhoneMatches(store[found.value].phoneNumber, phone)
      && forall j :: 0 <= j < found.value ==> !PhoneMatches(store[j].phoneNumber, phone)
  {
    var conds := BuildConditions(phone);
    found := FindByClauses(store, conds);
    FindByClausesMeans(store, conds, phone);
  }

  /** `GET /phone/:phone`: the payload of the first user whose number the lookup accepts, or 404. */
  method GetByPhone(store: seq<User>, phone: string) returns (res: Response<Payload>)
    ensures res.NotFound? <==> forall j :: 0 <= j < |store| ==> !PhoneMatches(store[j].phoneNumber, phone)
    ensures res.NotFound? ==> res.message == "User not found"
    ensures res.Ok? ==>
      exists i :: 0 <= i < |store| && PhoneMatches(store[i].phoneNumber, phone)
        && (forall j :: 0 <= j < i ==> !PhoneMatches(store[j].phoneNumber, phone))
        && res.body == BuildUserPayload(store[i])
  {
    var found := FindByPhone(store, phone);
    if found.None? {
      return NotFound("User not found");
    }
    var i := found.value;
    res := Ok(BuildUserPayload(store[i]));
    assert 0 <= i < |store| && PhoneMatches(store[i].phoneNumber, phone)
      && (forall j :: 0 <= j < i ==> !PhoneMatches(store[j].phoneNumber, phone))
      && res.body == BuildUserPayload(store[i]);
  }

  /** `GET /:userId`: the payload of the user with that id, or 404. */
  function GetById(store: seq<User>, userId: string): (res: Response<Payload>)
    ensures res.NotFound? <==> forall j :: 0 <= j < |store| ==> store[j].userId != userId
    ensures res.NotFound? ==> res.message == "User not found"
    ensures res.Ok? ==>
      exists i :: 0 <= i < |store| && store[i].userId == userId
        && (forall j :: 0 <= j < i ==> store[j].userId != userId)
        && res.body == BuildUserPayload(store[i])
  {
    match FirstWhere(store, (u: User) => u.userId == userId)
    case None => NotFound("User not found")
    case Some(i) => Ok(BuildUserPayload(store[i]))
  }

  datatype TeacherRef = TeacherRef(id: string, name: string)
  datatype TeacherSubjectsBody = TeacherSubjectsBody(teacher: TeacherRef, subjects: seq<Assignment>)

  /** `GET /teachers/:teacherId/subjects`: only a user with that id and the teacher role, subjects defaulting to `[]`. */
  function TeacherSubjects(store: seq<User>, teacherId: string): (res: Response<TeacherSubjectsBody>)
    ensures res.NotFound? <==>
      forall j :: 0 <= j < |store| ==> !(store[j].userId == teacherId && store[j].role == "teacher")
    ensures res.NotFound? ==> res.message == "Teacher not found"
    ensures res.Ok? ==>
      exists i :: 0 <= i < |store| && store[i].userId == teacherId && store[i].role == "teacher"
        && res.body == TeacherSubjectsBody(TeacherRef(teacherId, store[i].name), store[i].subjectsAssigned.GetOr([]))
  {
    match FirstWhere(store, (u: User) => u.userId == teacherId && u.role == "teacher")
    case None => NotFound("Teacher not found")
    case Some(i) => Ok(TeacherSubjectsBody(TeacherRef(store[i].userId, store[i].name),
                                           store[i].subjectsAssigned.GetOr([])))
  }

  /** With user ids unique, as the schema requires, the profile lookup returns that one user's payload. */
  lemma GetByIdUnique(store: seq<User>, i: nat)
    requires i < |store|
    requires forall j, k :: 0 <= j < k < |store| ==> store[j].userId != store[k].userId
    ensures GetById(store, store[i].userId) == Ok(BuildUserPayload(store[i]))
  {
  }

  /** A login with the same digits as a stored ten-digit number, with or without a country code, finds it. */
  lemma NationalNumberFindsItself(stored: string, phone: string)
    requires AllDigits(stored) && |stored| == 10 && DigitsOf(phone) == stored
    ensures PhoneMatches(stored, phone) && PhoneMatches("+91" + stored, phone)
  {
    var t9 := Tail(stored, 9);
    assert EndsWith(stored, t9);
    assert ("+91" + stored)[|"+91" + stored| - 10..] == stored;
    EndsWithTransitive("+91" + stored, stored, t9);
  }
}
