/**
 * The teacher dashboard's class list: it starts as a built-in list of four classes and, once the
 * teacher's assigned subjects arrive, each subject becomes a display card with fallbacks for its
 * id, time and student count and a colour that cycles through a four-colour palette.
 */
module TeacherDashboard {
  import opened Opt
  import opened Text
  import UsersRoute

  datatype Card = Card(id: string, name: string, time: string, totalStudents: int, color: string,
                       students: Option<seq<UsersRoute.StudentRef>>)

  const Palette: seq<string> := ["#4facfe", "#43e97b", "#fa709a", "#fbc2eb"]

  /** `TEACHER_CLASSES`, shown until a non-empty list is loaded. */
  const TeacherClasses: seq<Card> := [
    Card("1", "Mathematics 101", "09:00 AM", 30, "#4facfe", None),
    Card("2", "Physics 202", "11:00 AM", 28, "#43e97b", None),
    Card("3", "Computer Science A", "01:00 PM", 35, "#fa709a", None),
    Card("4", "History 301", "03:00 PM", 22, "#fbc2eb", None)
  ]

  /** The card for the subject at position `index` of the server's list. */
  function CardOf(subject: UsersRoute.Assignment, index: nat): (c: Card)
    ensures c.id == if subject.subjectId != "" then subject.subjectId else NatToString(index + 1)
    ensures c.name == subject.name && c.time == subject.time
    ensures c.totalStudents == UsersRoute.StudentCount(subject)
    ensures c.color == Palette[index % 4]
    ensures c.students == Some(subject.students.GetOr([]))
  {
    Card(if subject.subjectId != "" then subject.subjectId else NatToString(index + 1),
         subject.name,
         subject.time,
         UsersRoute.StudentCount(subject),
         Palette[index % 4],
         Some(subject.students.GetOr([])))
  }

  /** `(result.subjects || []).map((subject, index) => ...)` */
  function MapSubjects(subjects: seq<UsersRoute.Assignment>): (cards: seq<Card>)
    ensures |cards| == |subjects|
    ensures forall i :: 0 <= i < |subjects| ==> cards[i] == CardOf(subjects[i], i)
  {
    if subjects == [] then []
    else MapSubjects(subjects[..|subjects| - 1]) + [CardOf(subjects[|subjects| - 1], |subjects| - 1)]
  }

  /** The colour depends only on the position, and repeats every four cards. */
  lemma ColoursCycle(subjects: seq<UsersRoute.Assignment>, i: nat)
    requires i + 4 < |subjects|
    ensures MapSubjects(subjects)[i].color == MapSubjects(subjects)[i + 4].color
  {
    assert (i + 4) % 4 == i % 4;
  }

  /**
   * A subject without an id gets its 1-based position, written in decimal, as the card id; read
   * back, it is that position, so two such cards never share an id.
   */
  lemma FallbackIdIsPosition(subject: UsersRoute.Assignment, i: nat)
    requires subject.subjectId == ""
    ensures AllDigits(CardOf(subject, i).id) && ParseNat(CardOf(subject, i).id) == i + 1
  {
    NatToStringRoundTrip(i + 1);
  }

  /** A card's count agrees with the teacher's payload: the total over the cards is the payload's total. */
  lemma {:induction false} CardsTotalIsPayloadTotal(subjects: seq<UsersRoute.Assignment>)
    ensures SumStudents(MapSubjects(subjects)) == UsersRoute.TotalStudents(subjects)
  {
    if subjects != [] {
      var n := |subjects| - 1;
      var cards := MapSubjects(subjects);
      assert cards[..n] == MapSubjects(subjects[..n]);
      CardsTotalIsPayloadTotal(subjects[..n]);
    }
  }

  function SumStudents(cards: seq<Card>): int {
    if cards == [] then 0 else SumStudents(cards[..|cards| - 1]) + cards[|cards| - 1].totalStudents
  }

  /** What `fetchTeacherSubjects` delivered: the response's `subjects` field, or a thrown error. */
  datatype Fetch = Loaded(subjects: Option<seq<UsersRoute.Assignment>>) | Failed

  /** The class list `loadClasses` leaves behind, given the current one. */
  function AfterLoad(classes: seq<Card>, sessionId: Option<string>, fetch: Fetch): (r: seq<Card>)
    ensures (sessionId.None? || sessionId.value == "" || fetch.Failed?) ==> r == classes
    ensures fetch.Loaded? && sessionId.Some? && sessionId.value != "" ==>
      r == if fetch.subjects.GetOr([]) == [] then classes else MapSubjects(fetch.subjects.value)
  {
    if sessionId.None? || sessionId.value == "" then classes
    else match fetch
      case Failed => classes
      case Loaded(subjects) =>
        var mapped := MapSubjects(subjects.GetOr([]));
        if |mapped| > 0 then mapped else classes
  }

  /** The list on screen is never emptied: loading either keeps it or replaces it with a non-empty one. */
  lemma AfterLoadNonEmpty(classes: seq<Card>, sessionId: Option<string>, fetch: Fetch)
    requires classes != []
    ensures AfterLoad(classes, sessionId, fetch) != []
  {
  }

  class DashboardState {
    var classes: seq<Card>

    constructor ()
      ensures classes == TeacherClasses
    {
      classes := TeacherClasses;
    }

    /** `loadClasses`: the session id and the fetch result are its inputs. */
    method LoadClasses(sessionId: Option<string>, fetch: Fetch)
      modifies this
      ensures classes == AfterLoad(old(classes), sessionId, fetch)
      ensures old(classes) != [] ==> classes != []
    {
      if sessionId.None? || sessionId.value == "" {
        return;
      }
      if fetch.Failed? {
        return;
      }
      var mapped := MapSubjects(fetch.subjects.GetOr([]));
      if |mapped| > 0 {
        classes := mapped;
      }
    }
  }
}
