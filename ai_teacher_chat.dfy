/**
 * The "AI Teacher" chat screen: a keyword intent matcher over an ordered rule table,
 * and the append-only transcript the screen keeps.
 */
module AiTeacherChat {
  import opened Opt

  /** One rule of the table: trigger substrings and the replies to pick from. */
  datatype Intent = Intent(tag: string, patterns: seq<string>, responses: seq<string>)

  /** One bubble of the transcript. */
  datatype Turn = Turn(id: string, text: string, isUser: bool, time: string)

  const Fallback: string :=
    "I didn't understand that. Try asking about 'College Timings', 'Library Rules', 'Python', or check your 'Attendance'."

  const WelcomeTurn: Turn :=
    Turn("1", "Hello! I am your AI Teacher. Ask me about College Timings, Exams, or Coding!", false, "Now")

  /** The screen's rule table, in definition order (indices 0 to 15). */
  const TeacherData: seq<Intent> := [
    CollegeTimings, Library, Canteen, SyllabusExams,
    Results, Holidays, Faculty, WebDevelopment,
    DataScience, Attendance, CodingAdvice, Greeting,
    Wellbeing, Thanks, Identity, Closing
  ]

  const CollegeTimings: Intent :=
    Intent("college_timings",
      ["college time", "college timing", "class time", "schedule",
       "when does college start", "when does college end", "lecture time",
       "college hours", "duration", "7:30"],
      ["College starts at 7:30 AM sharp and ends at 1:00 PM.",
       "First lecture begins at 7:30 AM. We wrap up by 1:00 PM."])

  const Library: Intent :=
    Intent("library",
      ["library", "books", "borrow", "reading room", "card", "return book"],
      ["The Library is located on the 2nd floor. It's open from 8:00 AM to 5:00 PM.",
       "You need your Student ID to borrow books. You can keep a book for 7 days."])

  const Canteen: Intent :=
    Intent("canteen",
      ["canteen", "food", "lunch", "hungry", "eat", "snack", "cafeteria", "break"],
      ["Lunch break is from 11:30 AM to 12:00 PM.",
       "The Canteen is on the ground floor. Try the samosas or the veg thali!"])

  const SyllabusExams: Intent :=
    Intent("syllabus_exams",
      ["syllabus", "curriculum", "portion", "subjects", "exam", "test", "midterm",
       "kt", "marks"],
      ["You can find the detailed syllabus on the official college website or the notice board.",
       "Internal exams (Mid-terms) are usually held in September. Finals are in April.",
       "Passing marks are 40%. Focus on your practicals!"])

  const Results: Intent :=
    Intent("results",
      ["result", "score", "grade", "gpa", "cgpa", "topper"],
      ["Results are usually declared 45 days after the final exam.",
       "Check the college portal for your latest GPA scores."])

  const Holidays: Intent :=
    Intent("holidays",
      ["holiday", "sunday", "vacation", "off", "leave", "festival"],
      ["College is closed on Sundays and Public Holidays.",
       "Diwali and Summer vacations are the longest breaks we get!"])

  const Faculty: Intent :=
    Intent("faculty",
      ["teacher", "sir", "mam", "madam", "professor", "principal", "staff", "faculty"],
      ["The Staff Room is on the 1st floor if you need to meet any professor.",
       "Our faculty is very helpful. Approach them during free hours for doubts."])

  const WebDevelopment: Intent :=
    Intent("web_development",
      ["html", "css", "javascript", "react", "node", "frontend", "backend", "web dev",
       "website"],
      ["For Web Dev: Start with HTML/CSS, then master JavaScript. React is the best framework to learn right now.",
       "The DOM (Document Object Model) is how JavaScript interacts with HTML."])

  const DataScience: Intent :=
    Intent("data_science",
      ["python", "pandas", "numpy", "ai", "ml", "machine learning", "data science"],
      ["Python is the go-to language for Data Science. Focus on libraries like Pandas and NumPy.",
       "Machine Learning is about training models to make predictions based on data."])

  const Attendance: Intent :=
    Intent("attendance",
      ["attendance", "absent", "present", "low", "bunk", "75", "defaulter"],
      ["You need a minimum of 75% attendance to sit for exams.",
       "Check the 'Subject Wise' tab in this app to see your current attendance status.",
       "Don't bunk too many classes! Catching up is harder than attending."])

  const CodingAdvice: Intent :=
    Intent("coding_advice",
      ["code", "coding", "program", "debug", "error", "learn", "stack overflow"],
      ["The best way to learn coding is by building projects, not just watching videos.",
       "Stuck on an error? Read the error message carefully and Google it. 99% of the time, someone else had the same issue!"])

  const Greeting: Intent :=
    Intent("greeting",
      ["hi", "hello", "hey", "morning", "afternoon", "evening", "yo", "start"],
      ["Hello! I am your AI Professor. Ask me about College Timings, Coding, or the Library.",
       "Hi there! How can I help you with your studies today?"])

  const Wellbeing: Intent :=
    Intent("wellbeing",
      ["how are you", "what's up", "how do you do", "doing well"],
      ["I'm just a bot, but I'm functioning perfectly! How are your studies going?",
       "I am always ready to help you learn!"])

  const Thanks: Intent :=
    Intent("thanks",
      ["thank", "thx", "cool", "great", "awesome", "ok", "okay", "nice"],
      ["You're welcome! Happy studying.",
       "Glad I could help!",
       "Anytime!"])

  const Identity: Intent :=
    Intent("identity",
      ["who are you", "your name", "bot", "robot", "real"],
      ["I am your Personal AI Teacher for CS & IT studies.",
       "I am a virtual assistant designed to help you navigate college life."])

  const Closing: Intent :=
    Intent("closing",
      ["bye", "goodbye", "exit", "leave", "stop", "see you"],
      ["Goodbye! Don't forget to complete your assignments.",
       "See you in class! Happy coding."])

  // ---------------------------------------------------------------------------
  // Normalisation: `input.trim().toLowerCase()`

  /** ECMAScript WhiteSpace and LineTerminator code points, the set `String.prototype.trim` strips. */
  predicate IsBlank(c: char) {
    var n := c as int;
    (0x09 <= n <= 0x0D) || n == 0x20 || n == 0xA0 || n == 0x1680 || (0x2000 <= n <= 0x200A)
    || n == 0x2028 || n == 0x2029 || n == 0x202F || n == 0x205F || n == 0x3000 || n == 0xFEFF
  }

  predicate AllBlank(s: string) {
    forall i :: 0 <= i < |s| ==> IsBlank(s[i])
  }

  function TrimStart(s: string): (r: string)
    ensures |r| <= |s|
    ensures r == [] || !IsBlank(r[0])
    ensures AllBlank(s[..|s| - |r|])
  {
    if s != [] && IsBlank(s[0]) then TrimStart(s[1..]) else s
  }

  /** `TrimStart` removes a prefix. */
  lemma {:induction false} TrimStartIsSuffix(s: string)
    ensures TrimStart(s) == s[|s| - |TrimStart(s)|..]
  {
    if s != [] && IsBlank(s[0]) {
      TrimStartIsSuffix(s[1..]);
    }
  }

  function TrimEnd(s: string): (r: string)
    ensures |r| <= |s| && r == s[..|r|]
    ensures r == [] || !IsBlank(r[|r| - 1])
    ensures AllBlank(s[|r|..])
  {
    if s != [] && IsBlank(s[|s| - 1]) then TrimEnd(s[..|s| - 1]) else s
  }

  /** `s.trim()` */
  function Trim(s: string): string {
    TrimEnd(TrimStart(s))
  }

  /** `toLowerCase` on the ASCII letters A-Z; every other character is kept. */
  function LowerChar(c: char): char {
    if 'A' <= c <= 'Z' then (c as int + 32) as char else c
  }

  function Lower(s: string): (r: string)
    ensures |r| == |s|
  {
    if s == [] then [] else [LowerChar(s[0])] + Lower(s[1..])
  }

  /** Each character of `Lower(s)` is the lowered character at the same place in `s`. */
  lemma {:induction false} LowerPointwise(s: string)
    ensures forall i :: 0 <= i < |s| ==> Lower(s)[i] == LowerChar(s[i])
  {
    if s != [] {
      LowerPointwise(s[1..]);
    }
  }

  /** The text the matcher scans: `input.trim().toLowerCase()`. */
  function Normalize(input: string): string {
    Lower(Trim(input))
  }

  // ---------------------------------------------------------------------------
  // Matching

  /** `pat` occurs in `text` at offset `i`. */
  ghost predicate OccursAt(text: string, pat: string, i: int) {
    0 <= i && i + |pat| <= |text| && text[i..i + |pat|] == pat
  }

  /** `pat` occurs in `text` at some offset. */
  ghost predicate Occurs(text: string, pat: string) {
    exists i :: OccursAt(text, pat, i)
  }

  /** `text.includes(pat)` */
  function Includes(text: string, pat: string): bool {
    |pat| <= |text| && (text[..|pat|] == pat || (text != [] && Includes(text[1..], pat)))
  }

  /** The scan `Includes` performs finds `pat` exactly when it occurs somewhere in `text`. */
  lemma {:induction false} IncludesIsOccurs(text: string, pat: string)
    ensures Includes(text, pat) <==> Occurs(text, pat)
  {
    if |pat| <= |text| {
      if text[..|pat|] == pat {
        assert OccursAt(text, pat, 0);
      } else {
        IncludesIsOccurs(text[1..], pat);
        if Occurs(text, pat) {
          var i :| OccursAt(text, pat, i);
          assert i != 0;
          assert text[1..][i - 1..i - 1 + |pat|] == text[i..i + |pat|];
          assert OccursAt(text[1..], pat, i - 1);
        }
        if Includes(text[1..], pat) {
          var i :| OccursAt(text[1..], pat, i);
          assert text[i + 1..i + 1 + |pat|] == text[1..][i..i + |pat|];
          assert OccursAt(text, pat, i + 1);
        }
      }
    }
  }

  /** Some pattern of the list, scanned in order, is a substring of `text`. */
  predicate AnyIncludes(text: string, patterns: seq<string>) {
    patterns != [] && (Includes(text, patterns[0]) || AnyIncludes(text, patterns[1..]))
  }

  lemma {:induction false} AnyIncludesIff(text: string, patterns: seq<string>)
    ensures AnyIncludes(text, patterns) <==> exists q :: 0 <= q < |patterns| && Includes(text, patterns[q])
  {
    if patterns != [] {
      AnyIncludesIff(text, patterns[1..]);
      if !Includes(text, patterns[0]) && exists q :: 0 <= q < |patterns| && Includes(text, patterns[q]) {
        var q :| 0 <= q < |patterns| && Includes(text, patterns[q]);
        assert patterns[1..][q - 1] == patterns[q];
      }
    }
  }

  /** Some pattern of `intent` is a substring of `text`. */
  predicate Matches(intent: Intent, text: string) {
    AnyIncludes(text, intent.patterns)
  }

  /** The index of the first intent, in table order, with a pattern found in `text`. */
  function FirstMatch(table: seq<Intent>, text: string): (r: Option<nat>)
    ensures r.Some? ==> r.value < |table| && Matches(table[r.value], text)
    ensures r.Some? ==> forall j :: 0 <= j < r.value ==> !Matches(table[j], text)
    ensures r.None? ==> forall j :: 0 <= j < |table| ==> !Matches(table[j], text)
  {
    if table == [] then None
    else if Matches(table[0], text) then Some(0)
    else match FirstMatch(table[1..], text)
      case None => None
      case Some(k) => Some(k + 1)
  }

  /** Both directions: `i` is the first match exactly when it matches and no earlier intent does. */
  lemma FirstMatchIff(table: seq<Intent>, text: string, i: nat)
    ensures FirstMatch(table, text) == Some(i) <==>
      (i < |table| && Matches(table[i], text) && forall j :: 0 <= j < i ==> !Matches(table[j], text))
  {
    var r := FirstMatch(table, text);
    if i < |table| && Matches(table[i], text) && (forall j :: 0 <= j < i ==> !Matches(table[j], text)) {
      assert r.Some?;
      assert !(r.value < i) && !(i < r.value);
    }
  }

  /** Every intent has at least one response (the table's own guarantee, used by the random pick). */
  predicate ValidTable(table: seq<Intent>) {
    forall i :: 0 <= i < |table| ==> |table[i].responses| > 0
  }

  /** `Math.floor(rand * n)` for `Math.random()`'s `0 <= rand < 1`: always an index into `n` entries. */
  function PickIndex(rand: real, n: nat): (k: nat)
    requires 0.0 <= rand < 1.0 && n > 0
    ensures k < n
  {
    assert 0.0 <= rand * n as real < n as real by {
      assert rand * n as real < 1.0 * n as real;
    }
    (rand * n as real).Floor
  }

  /** What `getAiResponse` returns for the normalised text `text` and the random draw `rand`. */
  function Respond(table: seq<Intent>, text: string, rand: real): string
    requires ValidTable(table) && 0.0 <= rand < 1.0
  {
    match FirstMatch(table, text)
    case None => Fallback
    case Some(i) => table[i].responses[PickIndex(rand, |table[i].responses|)]
  }

  /**
   * `getAiResponse`: scan the intents in order and each intent's patterns in order;
   * the first pattern contained in the normalised input picks the intent.
   */
  method GetAiResponse(table: seq<Intent>, input: string, rand: real) returns (r: string)
    requires ValidTable(table) && 0.0 <= rand < 1.0
    ensures r == Respond(table, Normalize(input), rand)
  {
    var lowerInput := Lower(Trim(input));
    var i := 0;
    while i < |table|
      invariant 0 <= i <= |table|
      invariant forall j :: 0 <= j < i ==> !Matches(table[j], lowerInput)
    {
      var patterns := table[i].patterns;
      var k := 0;
      while k < |patterns|
        invariant 0 <= k <= |patterns|
        invariant AnyIncludes(lowerInput, patterns) == AnyIncludes(lowerInput, patterns[k..])
      {
        assert patterns[k..][1..] == patterns[k + 1..];
        if Includes(lowerInput, patterns[k]) {
          var responses := table[i].responses;
          FirstMatchIff(table, lowerInput, i);
          return responses[PickIndex(rand, |responses|)];
        }
        k := k + 1;
      }
      i := i + 1;
    }
    return Fallback;
  }

  // ---------------------------------------------------------------------------
  // Properties of the matcher

  /** The reply comes from the first matching intent's responses, or is the fallback when nothing matches. */
  ghost predicate IsReplyTo(table: seq<Intent>, text: string, reply: string) {
    match FirstMatch(table, text)
    case None => reply == Fallback
    case Some(i) => reply in table[i].responses
  }

  lemma RespondIsReplyTo(table: seq<Intent>, text: string, rand: real)
    requires ValidTable(table) && 0.0 <= rand < 1.0
    ensures IsReplyTo(table, text, Respond(table, text, rand))
  {
  }

  /** No response of the table is empty. */
  predicate NonEmptyResponses(table: seq<Intent>) {
    forall i, k :: 0 <= i < |table| && 0 <= k < |table[i].responses| ==> table[i].responses[k] != ""
  }

  /** The reply is a literal response of some intent or exactly the fallback, and never empty. */
  lemma RespondIsResponseOrFallback(table: seq<Intent>, text: string, rand: real)
    requires ValidTable(table) && NonEmptyResponses(table) && 0.0 <= rand < 1.0
    ensures var r := Respond(table, text, rand);
      r != "" && (r == Fallback || exists i :: 0 <= i < |table| && r in table[i].responses)
  {
    match FirstMatch(table, text)
    case None =>
    case Some(i) =>
      var k := PickIndex(rand, |table[i].responses|);
      assert Respond(table, text, rand) == table[i].responses[k];
  }

  /** Every pattern of the table is non-empty. */
  predicate NonEmptyPatterns(table: seq<Intent>) {
    forall i, q :: 0 <= i < |table| && 0 <= q < |table[i].patterns| ==> table[i].patterns[q] != ""
  }

  /** Empty or blank input reaches the fallback when no pattern is empty. */
  lemma BlankInputFallback(table: seq<Intent>, input: string, rand: real)
    requires ValidTable(table) && NonEmptyPatterns(table) && 0.0 <= rand < 1.0
    requires AllBlank(input)
    ensures Respond(table, Normalize(input), rand) == Fallback
  {
    TrimStartBlank(input);
    assert Normalize(input) == [];
    forall j | 0 <= j < |table|
      ensures !Matches(table[j], [])
    {
      AnyIncludesIff([], table[j].patterns);
      forall q | 0 <= q < |table[j].patterns|
        ensures !Includes([], table[j].patterns[q])
      {
      }
    }
  }

  lemma {:induction false} TrimStartBlank(s: string)
    requires AllBlank(s)
    ensures TrimStart(s) == []
  {
    if s != [] {
      TrimStartBlank(s[1..]);
    }
  }

  lemma {:induction false} TrimStartPrefix(w: string, s: string)
    requires AllBlank(w)
    ensures TrimStart(w + s) == TrimStart(s)
  {
    if w != [] {
      assert (w + s)[1..] == w[1..] + s;
      TrimStartPrefix(w[1..], s);
    } else {
      assert w + s == s;
    }
  }

  lemma {:induction false} TrimEndSuffix(s: string, w: string)
    requires AllBlank(w)
    ensures TrimEnd(s + w) == TrimEnd(s)
  {
    if w != [] {
      assert (s + w)[..|s + w| - 1] == s + w[..|w| - 1];
      TrimEndSuffix(s, w[..|w| - 1]);
    } else {
      assert s + w == s;
    }
  }

  lemma {:induction false} TrimStartAppend(s: string, w: string)
    requires TrimStart(s) != []
    ensures TrimStart(s + w) == TrimStart(s) + w
  {
    assert s != [];
    assert (s + w)[0] == s[0];
    if IsBlank(s[0]) {
      assert (s + w)[1..] == s[1..] + w;
      TrimStartAppend(s[1..], w);
    }
  }

  /** Leading and trailing blanks do not change the normalised text. */
  lemma NormalizeIgnoresBlanks(w1: string, s: string, w2: string)
    requires AllBlank(w1) && AllBlank(w2)
    ensures Normalize(w1 + s + w2) == Normalize(s)
  {
    assert w1 + s + w2 == w1 + (s + w2);
    TrimStartPrefix(w1, s + w2);
    var t := TrimStart(s);
    if t == [] {
      assert s == s[..|s| - |t|];
      assert AllBlank(s + w2);
      TrimStartBlank(s + w2);
    } else {
      TrimStartAppend(s, w2);
      TrimEndSuffix(t, w2);
    }
  }

  /** Blanks are not letters, so lower-casing commutes with trimming. */
  lemma {:induction false} LowerTrimStart(s: string)
    ensures Lower(TrimStart(s)) == TrimStart(Lower(s))
  {
    if s != [] {
      var l := Lower(s);
      LowerPointwise(s);
      assert l[0] == LowerChar(s[0]);
      assert IsBlank(l[0]) == IsBlank(s[0]);
      if IsBlank(s[0]) {
        assert l[1..] == Lower(s[1..]);
        LowerTrimStart(s[1..]);
      }
    }
  }

  lemma {:induction false} LowerTrimEnd(s: string)
    ensures Lower(TrimEnd(s)) == TrimEnd(Lower(s))
  {
    if s != [] {
      var l := Lower(s);
      LowerPointwise(s);
      assert l[|s| - 1] == LowerChar(s[|s| - 1]);
      assert IsBlank(l[|s| - 1]) == IsBlank(s[|s| - 1]);
      if IsBlank(s[|s| - 1]) {
        LowerPointwise(s[..|s| - 1]);
        assert l[..|s| - 1] == Lower(s[..|s| - 1]);
        LowerTrimEnd(s[..|s| - 1]);
      }
    }
  }

  /** Inputs that agree once lower-cased select the same intent and the same reply. */
  lemma NormalizeIgnoresCase(a: string, b: string)
    requires Lower(a) == Lower(b)
    ensures Normalize(a) == Normalize(b)
  {
    LowerTrimStart(a);
    LowerTrimStart(b);
    LowerTrimEnd(TrimStart(a));
    LowerTrimEnd(TrimStart(b));
  }

  // ---------------------------------------------------------------------------
  // The screen's own table

  lemma TeacherDataWellFormed()
    ensures |TeacherData| == 16
    ensures ValidTable(TeacherData) && NonEmptyPatterns(TeacherData) && NonEmptyResponses(TeacherData)
  {
  }

  /** The fallback text is not one of the table's responses. */
  lemma FallbackIsNoResponse()
    ensures forall j, m :: 0 <= j < |TeacherData| && 0 <= m < |TeacherData[j].responses| ==>
      TeacherData[j].responses[m] != Fallback
  {
  }

  /**
   * "yo" is a greeting pattern and the greeting intent (index 11) comes before the well-being,
   * identity and closing intents: any input containing "you" is answered by the greeting intent
   * or an earlier one, so "how are you", "who are you" and "see you" never reach their own intents.
   */
  lemma GreetingShadowsYou(text: string)
    requires Includes(text, "you")
    ensures FirstMatch(TeacherData, text).Some? && FirstMatch(TeacherData, text).value <= 11
  {
    IncludesIsOccurs(text, "you");
    var i :| OccursAt(text, "you", i);
    assert text[i..i + 2] == text[i..i + 3][..2];
    assert OccursAt(text, "yo", i);
    IncludesIsOccurs(text, "yo");
    AnyIncludesIff(text, Greeting.patterns);
    assert Greeting.patterns[6] == "yo";
    assert Matches(TeacherData[11], text);
  }

  /** When no response of the table is the fallback text, the reply is the fallback exactly when nothing matches. */
  lemma FallbackIffNoMatch(table: seq<Intent>, text: string, rand: real)
    requires ValidTable(table) && 0.0 <= rand < 1.0
    requires forall j, m :: 0 <= j < |table| && 0 <= m < |table[j].responses| ==> table[j].responses[m] != Fallback
    ensures Respond(table, text, rand) == Fallback <==> forall j :: 0 <= j < |table| ==> !Matches(table[j], text)
  {
    match FirstMatch(table, text)
    case None =>
    case Some(i) =>
      var k := PickIndex(rand, |table[i].responses|);
      assert Respond(table, text, rand) == table[i].responses[k];
  }

  // ---------------------------------------------------------------------------
  // The transcript kept by the screen

  /** Texts of the user turns of `ms`, in order. */
  function UserTexts(ms: seq<Turn>): seq<string> {
    if ms == [] then []
    else UserTexts(ms[..|ms| - 1]) + (if ms[|ms| - 1].isUser then [ms[|ms| - 1].text] else [])
  }

  /** Texts of the assistant turns of `ms`, in order. */
  function ReplyTexts(ms: seq<Turn>): seq<string> {
    if ms == [] then []
    else ReplyTexts(ms[..|ms| - 1]) + (if ms[|ms| - 1].isUser then [] else [ms[|ms| - 1].text])
  }

  lemma AppendTurn(ms: seq<Turn>, t: Turn)
    ensures UserTexts(ms + [t]) == UserTexts(ms) + (if t.isUser then [t.text] else [])
    ensures ReplyTexts(ms + [t]) == ReplyTexts(ms) + (if t.isUser then [] else [t.text])
  {
    assert (ms + [t])[..|ms|] == ms;
  }

  /** The k-th reply answers the k-th input, for every k. */
  ghost predicate RepliesAnswer(table: seq<Intent>, inputs: seq<string>, replies: seq<string>) {
    |inputs| == |replies|
    && (inputs != [] ==>
          RepliesAnswer(table, inputs[..|inputs| - 1], replies[..|replies| - 1])
          && IsReplyTo(table, Normalize(inputs[|inputs| - 1]), replies[|replies| - 1]))
  }

  /** The recursive definition says the same as its pointwise reading. */
  lemma {:induction false} RepliesAnswerPointwise(table: seq<Intent>, inputs: seq<string>, replies: seq<string>)
    ensures RepliesAnswer(table, inputs, replies) <==>
      |inputs| == |replies| && forall k :: 0 <= k < |inputs| ==> IsReplyTo(table, Normalize(inputs[k]), replies[k])
  {
    if inputs != [] && |inputs| == |replies| {
      var n := |inputs| - 1;
      RepliesAnswerPointwise(table, inputs[..n], replies[..n]);
      assert forall k :: 0 <= k < n ==> inputs[..n][k] == inputs[k] && replies[..n][k] == replies[k];
    }
  }

  lemma RepliesAnswerAppend(table: seq<Intent>, inputs: seq<string>, replies: seq<string>, input: string, reply: string)
    requires RepliesAnswer(table, inputs, replies) && IsReplyTo(table, Normalize(input), reply)
    ensures RepliesAnswer(table, inputs + [input], replies + [reply])
  {
    assert (inputs + [input])[..|inputs|] == inputs;
    assert (replies + [reply])[..|replies|] == replies;
  }

  /** Every text holds something other than whitespace. */
  predicate AllNonBlank(texts: seq<string>) {
    texts != [] ==> AllNonBlank(texts[..|texts| - 1]) && Trim(texts[|texts| - 1]) != []
  }

  lemma AllNonBlankAppend(texts: seq<string>, t: string)
    requires AllNonBlank(texts) && Trim(t) != []
    ensures AllNonBlank(texts + [t])
  {
    assert (texts + [t])[..|texts|] == texts;
  }

  /**
   * The chat screen's invariant over plain values: the welcome turn stays first; the user turns
   * after it are the answered inputs followed by the pending ones; the k-th assistant reply answers
   * the k-th answered input. Every user turn holds some non-blank text, and the typing indicator is
   * off when nothing is pending.
   */
  ghost predicate SessionInvariant(table: seq<Intent>, messages: seq<Turn>, answered: seq<string>,
                                   pending: seq<string>, isTyping: bool)
  {
    && ValidTable(table)
    && |messages| >= 1 && messages[0] == WelcomeTurn
    && UserTexts(messages[1..]) == answered + pending
    && RepliesAnswer(table, answered, ReplyTexts(messages[1..]))
    && AllNonBlank(answered + pending)
    && (pending == [] ==> !isTyping)
  }

  /** The transcript after the welcome turn grows by the new turn's text on its own side. */
  lemma TextsAfterTurn(messages: seq<Turn>, t: Turn)
    requires |messages| >= 1
    ensures t.isUser ==> UserTexts((messages + [t])[1..]) == UserTexts(messages[1..]) + [t.text]
    ensures t.isUser ==> ReplyTexts((messages + [t])[1..]) == ReplyTexts(messages[1..])
    ensures !t.isUser ==> UserTexts((messages + [t])[1..]) == UserTexts(messages[1..])
    ensures !t.isUser ==> ReplyTexts((messages + [t])[1..]) == ReplyTexts(messages[1..]) + [t.text]
  {
    assert (messages + [t])[1..] == messages[1..] + [t];
    AppendTurn(messages[1..], t);
    assert UserTexts(messages[1..]) + [] == UserTexts(messages[1..]);
    assert ReplyTexts(messages[1..]) + [] == ReplyTexts(messages[1..]);
  }

  /** Moving the oldest pending input to the answered ones keeps the inputs in the order they came. */
  lemma DequeueKeepsOrder(answered: seq<string>, pending: seq<string>)
    requires pending != []
    ensures (answered + [pending[0]]) + pending[1..] == answered + pending
  {
    assert pending == [pending[0]] + pending[1..];
  }

  /** Queueing a non-blank input as a new user turn keeps the invariant, with typing set. */
  lemma SendKeepsInvariant(table: seq<Intent>, messages: seq<Turn>, answered: seq<string>,
                           pending: seq<string>, isTyping: bool, sent: Turn)
    requires SessionInvariant(table, messages, answered, pending, isTyping)
    requires sent.isUser && Trim(sent.text) != []
    ensures SessionInvariant(table, messages + [sent], answered, pending + [sent.text], true)
  {
    TextsAfterTurn(messages, sent);
    AllNonBlankAppend(answered + pending, sent.text);
    assert answered + (pending + [sent.text]) == (answered + pending) + [sent.text];
  }

  /** Answering the oldest pending input with a reply to it keeps the invariant. */
  lemma DeliverKeepsInvariant(table: seq<Intent>, messages: seq<Turn>, answered: seq<string>,
                              pending: seq<string>, isTyping: bool, reply: Turn)
    requires SessionInvariant(table, messages, answered, pending, isTyping)
    requires pending != [] && !reply.isUser && IsReplyTo(table, Normalize(pending[0]), reply.text)
    ensures SessionInvariant(table, messages + [reply], answered + [pending[0]], pending[1..], false)
  {
    TextsAfterTurn(messages, reply);
    DequeueKeepsOrder(answered, pending);
    RepliesAnswerAppend(table, answered, ReplyTexts(messages[1..]), pending[0], reply.text);
  }

  /**
   * The chat screen's state: the transcript `messages`, the text box `inputText`, the typing
   * indicator `isTyping`, and `pending`, the inputs whose one-second reply timer has not yet fired
   * (timers fire in the order they were set, so this is a queue).
   */
  class ChatSession {
    const table: seq<Intent>
    var messages: seq<Turn>
    var inputText: string
    var isTyping: bool
    var pending: seq<string>
    /** The inputs already answered, oldest first. */
    ghost var answered: seq<string>

    /**
     * The welcome turn stays first; the user turns after it are the answered inputs followed by
     * the pending ones; the k-th assistant reply answers the k-th user input. Every user turn holds
     * some non-blank text, and the typing indicator is off when nothing is pending.
     */
    ghost predicate Valid()
      reads this
    {
      SessionInvariant(table, messages, answered, pending, isTyping)
    }

    constructor (table: seq<Intent>)
      requires ValidTable(table)
      ensures Valid()
      ensures this.table == table && messages == [WelcomeTurn]
      ensures inputText == "" && !isTyping && pending == []
    {
      this.table := table;
      messages := [WelcomeTurn];
      inputText := "";
      isTyping := false;
      pending := [];
      answered := [];
    }

    /** The text box's `onChangeText`. */
    method SetInputText(text: string)
      requires Valid()
      modifies this
      ensures Valid()
      ensures inputText == text
      ensures messages == old(messages) && isTyping == old(isTyping) && pending == old(pending)
    {
      inputText := text;
    }

    /**
     * `sendMessage`: blank input changes nothing; otherwise the user turn holding the input as typed
     * is appended at once, the text box is cleared, the typing indicator is set, and the input
     * waits for its reply.
     */
    method SendMessage(id: string, time: string)
      requires Valid()
      modifies this
      ensures Valid()
      ensures Trim(old(inputText)) == [] ==>
        messages == old(messages) && inputText == old(inputText)
        && isTyping == old(isTyping) && pending == old(pending)
      ensures Trim(old(inputText)) != [] ==>
        messages == old(messages) + [Turn(id, old(inputText), true, time)]
        && inputText == "" && isTyping && pending == old(pending) + [old(inputText)]
    {
      if |Trim(inputText)| == 0 {
        return;
      }
      var userMsg := Turn(id, inputText, true, time);
      SendKeepsInvariant(table, messages, answered, pending, isTyping, userMsg);
      messages := messages + [userMsg];
      pending := pending + [inputText];
      inputText := "";
      isTyping := true;
    }

    /**
     * The reply timer of the oldest pending input fires: the matcher runs on that input and its
     * reply is appended as an assistant turn; earlier turns are untouched.
     */
    method DeliverReply(id: string, time: string, rand: real)
      requires Valid() && pending != [] && 0.0 <= rand < 1.0
      modifies this
      ensures Valid()
      ensures messages == old(messages) + [Turn(id, Respond(table, Normalize(old(pending)[0]), rand), false, time)]
      ensures pending == old(pending)[1..] && !isTyping && inputText == old(inputText)
    {
      var currentInput := pending[0];
      var responseText := GetAiResponse(table, currentInput, rand);
      RespondIsReplyTo(table, Normalize(currentInput), rand);
      var aiMsg := Turn(id, responseText, false, time);
      DeliverKeepsInvariant(table, messages, answered, pending, isTyping, aiMsg);
      messages := messages + [aiMsg];
      answered := answered + [currentInput];
      pending := pending[1..];
      isTyping := false;
    }
  }
}
