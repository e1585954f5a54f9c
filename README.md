# TrackMyClass, modelled in Dafny

TrackMyClass is a college attendance app. It has a React Native client for students, teachers and
administrators, and a small Express server backed by MongoDB. This project models the logic under
the screens and routes, and proves what that logic promises:

- the AI teacher chat: a keyword intent matcher over an ordered table, and the transcript it appends to;
- the admin panel: the teacher, student and class lists, the class → day → slot timetable, the
  grouped list view, the share text and the two modal validations;
- the timetable generator's slot editing;
- the attendance sheet a teacher marks;
- the server's phone lookup, user payload, teacher-subjects route, student upsert and student overview;
- login validation and role routing;
- the responsive breakpoints;
- the teacher dashboard's subject → card mapping.

Modules, one per source file, plus shared helpers:

- Opt: optional values and JavaScript number truthiness.
- Ui: alerts and the result of a modal's Save.
- Text: digit filtering, decimal rendering, suffixes, ordinal string order.
- ListOps: remove-by-id, replace-by-id, stable sort by a string key.
- Schedule: the two-level timetable map.
- AiTeacherChat, AdminPanel, TimeTableGenerator, MarkAttendance, UsersRoute, StudentsRoute,
  LoginScreen, Responsive, TeacherDashboard.

Pure expressions are functions. State the source keeps in React state becomes a class with
`modifies` clauses: `ChatSession`, `AdminState`, `GeneratorState`, `AttendanceSheet`, `LoginState`
and `DashboardState`. Loops in the source become methods with loop invariants:

- the nested intent search;
- the `forEach` that fills the attendance sheet;
- the `orConditions` pushes;
- the grouping `reduce`;
- the share text's `message +=`.

Clocks, randomness and I/O are inputs:

- `Date.now()` ids are `freshId` / `id` parameters.
- `Math.random()` is a real `rand` with `0 <= rand < 1`.
- The Mongo collections are a map (students) or a sequence in natural order (users).
- A fetch outcome is a datatype parameter.

## Model

| member | source | states |
|---|---|---|
| Text.DigitsOf | server/routes/users.js:39 | the result holds only the characters 0-9 and is no longer than the input |
| Text.DigitsOfCounts | src/screens/LoginScreen.jsx:131 | every digit occurs as often as in the input and no other character survives, so the digits keep their multiplicity |
| Text.DigitsOfAppend | server/routes/users.js:39 | stripping non-digits distributes over concatenation, so the digits stay in input order |
| Text.DigitsOfIdentity | src/screens/LoginScreen.jsx:131 | a digits-only string is left as it is |
| Text.DigitsOfIdempotent | src/screens/LoginScreen.jsx:131 | sanitising twice is sanitising once |
| Text.DigitChar | src/screens/Teachers/DashboardScreen.jsx:158 | the character of a decimal digit is a digit whose code is that digit's offset from '0' |
| Text.NatToString | src/screens/Teachers/DashboardScreen.jsx:158 | `String(n)` is a non-empty digit string with no leading zero from 10 on |
| Text.NatToStringRoundTrip | src/screens/Teachers/DashboardScreen.jsx:158 | reading `String(n)` back as a decimal number gives n |
| Text.NatToStringInjective | src/screens/Teachers/DashboardScreen.jsx:158 | different numbers render differently |
| Text.EndsWithTransitive | server/routes/users.js:40-41 | a suffix of a suffix is a suffix |
| Text.StrLeReflexive | src/screens/Admin/AdminPanel.jsx:673-675 | the ordinal order used for `localeCompare` is reflexive |
| Text.StrLeTotal | src/screens/Admin/AdminPanel.jsx:673-675 | the order is total |
| Text.StrLeTransitive | src/screens/Admin/AdminPanel.jsx:673-675 | the order is transitive |
| ListOps.FirstWhere | server/routes/users.js:60 | `find`/`findOne` in natural order: the index of the first entry satisfying the test, or none when no entry does |
| ListOps.RemoveId | src/screens/Admin/AdminPanel.jsx:596 | `filter(x => x.id !== id)`: no remaining entry has that id, and the length drops by the number of entries that had it |
| ListOps.RemoveIdMembers | src/screens/Admin/AdminPanel.jsx:596 | an entry remains exactly when it was there and does not carry that id |
| ListOps.RemoveIdAppend | src/screens/Admin/AdminPanel.jsx:596 | removal distributes over concatenation, so the remaining entries keep their relative order |
| ListOps.RemoveIdAbsent | src/screens/Admin/AdminPanel.jsx:596 | a list without that id comes back unchanged |
| ListOps.MapId | src/screens/Admin/AdminPanel.jsx:631-633 | `map` by id: same length, and every position is rewritten exactly when its id matches |
| ListOps.InsertByPermutes | src/screens/Admin/AdminPanel.jsx:673-675 | inserting adds exactly that entry (multiset union) |
| ListOps.SortByPermutes | src/screens/Admin/AdminPanel.jsx:673-675 | sorting is a permutation and keeps the length |
| ListOps.SortBySorted | src/screens/Admin/AdminPanel.jsx:673-675 | the sorted list is ordered by the key |
| ListOps.InsertBySorted | src/screens/Admin/AdminPanel.jsx:673-675 | inserting into an ordered list keeps it ordered |
| ListOps.SortByStable | src/screens/Admin/AdminPanel.jsx:673-675 | entries with equal keys keep their relative order, as in JavaScript's stable sort |
| ListOps.InsertByStable | src/screens/Admin/AdminPanel.jsx:673-675 | an insert goes to the end of its key's run and leaves the other runs alone |
| ListOps.WithKeyAppend | src/screens/Admin/AdminPanel.jsx:673-675 | selecting one key's entries distributes over concatenation |
| ListOps.SortByOfSorted | src/screens/Admin/AdminPanel.jsx:673-675 | sorting an ordered list leaves it unchanged |
| ListOps.SortByAppend | src/screens/Admin/AdminPanel.jsx:673 | `[...s, x].sort()` is x inserted into the sorted s |
| ListOps.JoinMapAppend | src/screens/Admin/AdminPanel.jsx:652-654 | the text of two lists joined is the first list's text followed by the second's |
| ListOps.RemoveIdInsertBy | src/screens/Admin/AdminPanel.jsx:673-693 | deleting the id of an inserted entry removes it again, wherever the sort put it |
| Schedule.DayList | src/screens/Admin/TimeTableGenerator.jsx:243 | `schedule[cls]?.[day] \|\| []`: the stored list, or empty when the class or the day is missing |
| Schedule.SetDay | src/screens/Admin/AdminPanel.jsx:677-680 | the written day reads back as the new list; other classes and the class's other days are unchanged; the keys grow by at most this class and day |
| Schedule.SetDayFrame | src/screens/Admin/TimeTableGenerator.jsx:262-268 | every other (class, day) reads as before |
| Schedule.SetDayTwice | src/screens/Admin/TimeTableGenerator.jsx:262-268 | a second write to a day replaces the first |
| Schedule.SetDayOwnList | src/screens/Admin/TimeTableGenerator.jsx:281-289 | writing back the stored list changes nothing |
| AiTeacherChat.TrimStart | src/screens/Students/AiTeacherChat.jsx:267 | the result starts with a non-blank or is empty, and only blanks were removed |
| AiTeacherChat.TrimStartIsSuffix | src/screens/Students/AiTeacherChat.jsx:267 | the left-trimmed text is a suffix of the input |
| AiTeacherChat.TrimEnd | src/screens/Students/AiTeacherChat.jsx:267 | the result is a prefix ending in a non-blank or empty, and only blanks were removed |
| AiTeacherChat.Lower | src/screens/Students/AiTeacherChat.jsx:267 | lower-casing keeps the length |
| AiTeacherChat.LowerPointwise | src/screens/Students/AiTeacherChat.jsx:267 | each character is lower-cased on its own |
| AiTeacherChat.IncludesIsOccurs | src/screens/Students/AiTeacherChat.jsx:274 | `includes` holds exactly when the pattern occurs at some position |
| AiTeacherChat.AnyIncludesIff | src/screens/Students/AiTeacherChat.jsx:272-274 | the inner pattern loop finds a pattern exactly when some pattern of the list is included |
| AiTeacherChat.FirstMatch | src/screens/Students/AiTeacherChat.jsx:270-278 | the chosen intent matches and no earlier intent does; none means no intent matches |
| AiTeacherChat.FirstMatchIff | src/screens/Students/AiTeacherChat.jsx:270-278 | both directions: i is chosen exactly when it matches and no earlier one does, so later intents are never consulted |
| AiTeacherChat.PickIndex | src/screens/Students/AiTeacherChat.jsx:277 | `Math.floor(r * n)` with `0 <= r < 1` lies in `[0, n)` |
| AiTeacherChat.GetAiResponse | src/screens/Students/AiTeacherChat.jsx:266-284 | the nested search returns `Respond` of the trimmed, lower-cased input |
| AiTeacherChat.RespondIsReplyTo | src/screens/Students/AiTeacherChat.jsx:275-283 | the reply is one of the first matching intent's responses, or the fallback when nothing matches |
| AiTeacherChat.RespondIsResponseOrFallback | src/screens/Students/AiTeacherChat.jsx:266-283 | the reply is never empty and is either some intent's response or exactly the fallback |
| AiTeacherChat.GreetingShadowsYou | src/screens/Students/AiTeacherChat.jsx:204-263 | any input containing "you" is answered by the greeting intent or an earlier one, because the greeting pattern "yo" is checked first |
| AiTeacherChat.FallbackIffNoMatch | src/screens/Students/AiTeacherChat.jsx:267-283 | when no response equals the fallback text, the reply is the fallback exactly when no pattern of any intent is in the input |
| AiTeacherChat.BlankInputFallback | src/screens/Students/AiTeacherChat.jsx:267-283 | with non-empty patterns, blank input gets the fallback |
| AiTeacherChat.TrimStartBlank | src/screens/Students/AiTeacherChat.jsx:267 | an all-blank text trims to empty |
| AiTeacherChat.TrimStartPrefix | src/screens/Students/AiTeacherChat.jsx:267 | leading blanks are ignored |
| AiTeacherChat.TrimEndSuffix | src/screens/Students/AiTeacherChat.jsx:267 | trailing blanks are ignored |
| AiTeacherChat.TrimStartAppend | src/screens/Students/AiTeacherChat.jsx:267 | left-trimming a text with a non-blank keeps everything appended after it |
| AiTeacherChat.NormalizeIgnoresBlanks | src/screens/Students/AiTeacherChat.jsx:267 | inputs differing only in surrounding blanks normalise alike, so they pick the same intent |
| AiTeacherChat.LowerTrimStart | src/screens/Students/AiTeacherChat.jsx:267 | lower-casing commutes with left trimming |
| AiTeacherChat.LowerTrimEnd | src/screens/Students/AiTeacherChat.jsx:267 | lower-casing commutes with right trimming |
| AiTeacherChat.NormalizeIgnoresCase | src/screens/Students/AiTeacherChat.jsx:267 | inputs differing only in case normalise alike |
| AiTeacherChat.TeacherDataWellFormed | src/screens/Students/AiTeacherChat.jsx:20-263 | the screen's table has 16 intents, each with responses, no empty pattern and no empty response |
| AiTeacherChat.FallbackIsNoResponse | src/screens/Students/AiTeacherChat.jsx:20-283 | the fallback text is none of the table's responses |
| AiTeacherChat.AppendTurn | src/screens/Students/AiTeacherChat.jsx:362-379 | appending a turn adds its text to the user texts or to the reply texts, by its kind |
| AiTeacherChat.RepliesAnswerPointwise | src/screens/Students/AiTeacherChat.jsx:368-379 | both directions: the replies answer the inputs exactly when there are as many and the k-th answers the k-th |
| AiTeacherChat.RepliesAnswerAppend | src/screens/Students/AiTeacherChat.jsx:368-379 | answering one more input keeps the pairing |
| AiTeacherChat.AllNonBlankAppend | src/screens/Students/AiTeacherChat.jsx:352 | only non-blank inputs enter the transcript |
| AiTeacherChat.TextsAfterTurn | src/screens/Students/AiTeacherChat.jsx:362-379 | appending a user turn adds its text to the user texts and leaves the reply texts alone, and the other way round for a reply |
| AiTeacherChat.DequeueKeepsOrder | src/screens/Students/AiTeacherChat.jsx:368-379 | answering the oldest pending input moves it to the end of the answered ones without changing the order of all inputs |
| AiTeacherChat.SendKeepsInvariant | src/screens/Students/AiTeacherChat.jsx:352-365 | queuing a non-blank user turn keeps the session invariant, with typing on |
| AiTeacherChat.DeliverKeepsInvariant | src/screens/Students/AiTeacherChat.jsx:368-381 | appending a reply to the oldest pending input keeps the session invariant, with typing off |
| AiTeacherChat.ChatSession.constructor | src/screens/Students/AiTeacherChat.jsx:334-343 | the transcript starts as the welcome turn alone, the text box is empty, nothing is typing |
| AiTeacherChat.ChatSession.SetInputText | src/screens/Students/AiTeacherChat.jsx:342 | only the text box changes |
| AiTeacherChat.ChatSession.SendMessage | src/screens/Students/AiTeacherChat.jsx:351-366 | blank input changes nothing; otherwise exactly one user turn with the text as typed is appended, the box is cleared, typing is set and the input is queued |
| AiTeacherChat.ChatSession.DeliverReply | src/screens/Students/AiTeacherChat.jsx:368-381 | exactly one assistant turn holding the matcher's reply to that same input is appended, earlier turns untouched, typing cleared |
| Responsive.GetResponsiveLayout | src/utils/responsive.js:11-29 | the width is returned as given; each flag holds exactly on its band of the breakpoints 360, 768, 1024 |
| Responsive.ExactlyOneClass | src/utils/responsive.js:12-15 | exactly one of phone, tablet and desktop holds, and a small phone is a phone |
| Responsive.LayoutFollowsBand | src/utils/responsive.js:4-18 | gutter 14/16/22/28 and maximum width 520/520/820/1080 per band |
| Responsive.LayoutMonotone | src/utils/responsive.js:17-18 | a wider window never gets a narrower band, a smaller gutter or a narrower column |
| StudentsRoute.Post | server/routes/students.js:7-30 | 400 with "studentId and name are required" exactly when either is missing or empty; otherwise the record with `semester \|\| ""` and `subjects \|\| []` is stored under its id |
| StudentsRoute.PostOnlyTouchesItsKey | server/routes/students.js:14-23 | the upsert reads back as the saved record and leaves every other key as it was |
| StudentsRoute.Zeroed | server/routes/students.js:42-47 | a subject keeps its name, total and colour, with attended, absent and percent set to 0 |
| StudentsRoute.ZeroAll | server/routes/students.js:42-47 | same number and order of subjects, each zeroed |
| StudentsRoute.TotalClassesAppend | server/routes/students.js:49 | the total is additive over concatenation |
| StudentsRoute.TotalClassesZeroed | server/routes/students.js:42-49 | zeroing attendance keeps the sum of totals |
| StudentsRoute.GetOverview | server/routes/students.js:33-69 | 404 "Student not found" exactly when the id is not stored; otherwise the student info with `id` = `studentId`, the zeroed subjects, and `totalClasses` the sum of totals with a missing one counted as 0 |
| StudentsRoute.OverviewReportsNoAttendance | server/routes/students.js:50-51 | `attended` and `overallPercent` are always 0 |
| StudentsRoute.PostThenOverview | server/routes/students.js:7-69 | a record saved by POST is found by the overview with the saved name, id, semester and subject count |
| UsersRoute.StudentCount | server/routes/users.js:9 | a non-zero stored count is used, else the roster's length, else 0 |
| UsersRoute.TotalStudentsAppend | server/routes/users.js:8-11 | the total is additive over subjects |
| UsersRoute.TotalStudentsBounds | server/routes/users.js:8-11 | with no negative count, each subject's count is at most the total |
| UsersRoute.TotalStudentsNonNegative | server/routes/users.js:8-11 | with no negative count, the total is not negative |
| UsersRoute.BuildUserPayload | server/routes/users.js:6-33 | `id` is `userId`, `phone` and `phoneNumber` are the stored number, `class`/`className`, `rollNo`/`rollNumber`, `email`, `department`, `semester` and `subjects` are copied, the assigned subjects default to `[]`, `classesAssigned` is their number and `totalStudents` the `reduce` of their counts (0 and 0 without subjects) |
| UsersRoute.PayloadTotalIsPerSubject | server/routes/users.js:7-11 | one more subject adds one to `classesAssigned` and its own count to `totalStudents` |
| UsersRoute.Tail | server/routes/users.js:40-41 | the tail is a suffix of the digits, of length n when there are more than n digits, otherwise all of them |
| UsersRoute.BuildConditions | server/routes/users.js:43-58 | seven equality clauses in the route's order; suffix clauses only from 7 digits, the full digits first, tails only when different from those already present; the clauses accept exactly the numbers `PhoneMatches` names |
| UsersRoute.SuffixClauses | server/routes/users.js:54-58 | the suffix clauses are distinct digit-only tails, start with the digits from 7 digits on, and include the 9-digit tail |
| UsersRoute.ClausesOfPhone | server/routes/users.js:43-58 | equality clauses followed by those suffix clauses accept exactly `PhoneMatches` |
| UsersRoute.RegexEndsWithSuffix | server/routes/users.js:55-57 | a number the `$`-anchored pattern of a string accepts, with or without one final newline, is accepted by the pattern of any suffix of that string |
| UsersRoute.ClausesMeaning | server/routes/users.js:55-57 | since every tail is a suffix of the digits and the 9-digit tail of each, the suffix clauses together mean "ends with the 9-digit tail, or with it and a final newline" |
| UsersRoute.TailsAreDigits | server/routes/users.js:40-41 | the tails of a digit string are digit strings |
| UsersRoute.TailsNest | server/routes/users.js:40-41 | the 9-digit tail is a suffix of the 10-digit one |
| UsersRoute.FindByClausesMeans | server/routes/users.js:60 | `findOne` with clauses that accept exactly `PhoneMatches` gives none when no number matches, otherwise the first matching user |
| UsersRoute.FindByPhone | server/routes/users.js:38-60 | the built query finds no user exactly when no stored number matches, otherwise the first user whose number matches |
| UsersRoute.GetByPhone | server/routes/users.js:36-70 | 404 "User not found" exactly when no stored number matches; otherwise the payload of the first matching user |
| UsersRoute.GetById | server/routes/users.js:92-100 | 404 "User not found" exactly when no user has that id; otherwise the first such user's payload |
| UsersRoute.TeacherSubjects | server/routes/users.js:73-89 | 404 "Teacher not found" unless a user has that id and the teacher role; otherwise the teacher's id and name and the subjects, defaulting to `[]` |
| UsersRoute.GetByIdUnique | server/routes/users.js:92-100 | with unique ids, the lookup returns that user's payload |
| UsersRoute.NationalNumberFindsItself | server/routes/users.js:53-57 | a ten-digit number is found from its own digits whether it is stored bare or with `+91` |
| LoginScreen.ValidateLogin | src/screens/LoginScreen.jsx:42-53 | login proceeds exactly when the phone is non-empty and has the country's length; empty gives "Phone number is required", a wrong length "Invalid Number" |
| LoginScreen.FullPhone | src/screens/LoginScreen.jsx:58 | the country code followed by the phone |
| LoginScreen.NextScreen | src/screens/LoginScreen.jsx:71-73 | AdminPanel exactly for `admin`, TeacherDashboard exactly for `teacher`, Main for every other role |
| LoginScreen.SessionFor | src/screens/LoginScreen.jsx:63-69 | role, name, id and semester from the fetched user, phone the full number |
| LoginScreen.FailureAlert | src/screens/LoginScreen.jsx:75 | "Login Failed" with the error's message, or "User not found" when it is empty |
| LoginScreen.EnabledButtonPassesValidation | src/screens/LoginScreen.jsx:42-140 | for the picker's countries, an enabled Sign In button always passes validation |
| LoginScreen.FullPhoneDigits | src/screens/LoginScreen.jsx:58-61 | the full number's digits are the code's digits followed by the phone |
| LoginScreen.CountryWithCode | src/screens/LoginScreen.jsx:107 | `countries.find` by code: found exactly when some country has that code, and it is that country |
| LoginScreen.PickerCodesSelectTheirCountry | src/screens/LoginScreen.jsx:106-118 | every code the picker lists selects its own country |
| LoginScreen.LoginState.constructor | src/screens/LoginScreen.jsx:23-31 | empty phone, India, not loading |
| LoginScreen.LoginState.OnChangeText | src/screens/LoginScreen.jsx:131 | the phone becomes the digits of the typed text; nothing else changes |
| LoginScreen.LoginState.OnCountryChange | src/screens/LoginScreen.jsx:106-110 | the country with that code is selected and the phone cleared |
| LoginScreen.LoginState.HandleLogin | src/screens/LoginScreen.jsx:41-58 | a failed check shows its alert and does not start loading; otherwise loading is set and the country and number of that moment are captured for `fullPhone` |
| LoginScreen.LoginState.CompleteLogin | src/screens/LoginScreen.jsx:57-78 | success saves the session with the full number captured at Sign In, whatever the fields hold now, and navigates by role; failure shows the alert; loading is cleared either way |
| LoginScreen.CountryChangeDuringLookup | src/screens/LoginScreen.jsx:58-68 | picking another country while the lookup is awaited still saves "+919321656320" for an India sign-in of 9321656320 |
| TeacherDashboard.CardOf | src/screens/Teachers/DashboardScreen.jsx:157-164 | id is `subjectId`, else `String(index + 1)`; student count with its fallbacks; colour `palette[index % 4]`; students default to `[]` |
| TeacherDashboard.MapSubjects | src/screens/Teachers/DashboardScreen.jsx:157 | same length and order as the subjects, card i built from subject i at index i |
| TeacherDashboard.ColoursCycle | src/screens/Teachers/DashboardScreen.jsx:162 | colours repeat every four cards |
| TeacherDashboard.FallbackIdIsPosition | src/screens/Teachers/DashboardScreen.jsx:158 | a fallback id reads back as the card's 1-based position |
| TeacherDashboard.CardsTotalIsPayloadTotal | src/screens/Teachers/DashboardScreen.jsx:161 | the cards' student counts add up to the server payload's `totalStudents` |
| TeacherDashboard.AfterLoad | src/screens/Teachers/DashboardScreen.jsx:152-172 | without a session id, or on a failed fetch, the list is kept; otherwise it is replaced by the mapped cards when there are any |
| TeacherDashboard.AfterLoadNonEmpty | src/screens/Teachers/DashboardScreen.jsx:166 | a non-empty class list never becomes empty |
| TeacherDashboard.DashboardState.constructor | src/screens/Teachers/DashboardScreen.jsx:137 | the screen starts with the built-in class cards |
| TeacherDashboard.DashboardState.LoadClasses | src/screens/Teachers/DashboardScreen.jsx:152-172 | the class list becomes `AfterLoad` of the old one |
| MarkAttendance.IdsMembership | src/screens/Teachers/MarkAttendanceScreen.jsx:21 | an id is in the roster's id set exactly when some student has it |
| MarkAttendance.IdsCount | src/screens/Teachers/MarkAttendanceScreen.jsx:6-12 | with distinct ids there are as many ids as students |
| MarkAttendance.FilledIsAllMarked | src/screens/Teachers/MarkAttendanceScreen.jsx:26-34 | a filled sheet gives `every(s => attendance[s.id] === status)` |
| MarkAttendance.NotBothAllPresentAndAllAbsent | src/screens/Teachers/MarkAttendanceScreen.jsx:33-34 | with a non-empty roster, all present and all absent never hold together |
| MarkAttendance.Toggled | src/screens/Teachers/MarkAttendanceScreen.jsx:37-39 | only that student's flag flips (a missing entry becomes present) and every other entry stays |
| MarkAttendance.ToggleTwice | src/screens/Teachers/MarkAttendanceScreen.jsx:37-39 | toggling twice restores the sheet |
| MarkAttendance.ToggleKeepsKeys | src/screens/Teachers/MarkAttendanceScreen.jsx:37-39 | toggling a rostered student keeps the sheet's students |
| MarkAttendance.CountsPartitionRoster | src/screens/Teachers/MarkAttendanceScreen.jsx:42-43 | when the sheet holds exactly the distinct roster ids, present plus absent is the roster size |
| MarkAttendance.MockStudentsDistinct | src/screens/Teachers/MarkAttendanceScreen.jsx:6-12 | the screen's roster has five distinct ids |
| MarkAttendance.AttendanceSheet.constructor | src/screens/Teachers/MarkAttendanceScreen.jsx:16 | the sheet starts empty for the given roster |
| MarkAttendance.AttendanceSheet.FillStatus | src/screens/Teachers/MarkAttendanceScreen.jsx:20-28 | the `forEach` gives every rostered student `status` and no other entry |
| MarkAttendance.AttendanceSheet.Initialize | src/screens/Teachers/MarkAttendanceScreen.jsx:19-23 | after start-up every student is present |
| MarkAttendance.AttendanceSheet.MarkAll | src/screens/Teachers/MarkAttendanceScreen.jsx:26-34 | every student gets the status, so the matching bulk state holds |
| MarkAttendance.AttendanceSheet.ToggleSwitch | src/screens/Teachers/MarkAttendanceScreen.jsx:37-39 | the sheet becomes `Toggled` of the old one |
| MarkAttendance.AttendanceSheet.Submit | src/screens/Teachers/MarkAttendanceScreen.jsx:41-56 | the present count, the absent count as roster size minus it, and the summary with present and total; the counts partition the roster when the sheet holds its ids |
| AdminPanel.FormModalSave | src/screens/Admin/AdminPanel.jsx:372-379 | refused with "Error" exactly when name or detail is empty; otherwise the form with the edited entry's id |
| AdminPanel.SlotModalSave | src/screens/Admin/AdminPanel.jsx:281-288 | refused with "Missing Fields" exactly when subject, teacher, start or end is empty |
| AdminPanel.Edited | src/screens/Admin/AdminPanel.jsx:632 | the id and the other detail keys are kept; name, the list's detail key and status are the form's |
| AdminPanel.SaveToList | src/screens/Admin/AdminPanel.jsx:629-640 | with an id: same length, entries with that id rewritten in place, the rest unchanged; without one: exactly one new entry in front of the old list |
| AdminPanel.SaveEditIdempotent | src/screens/Admin/AdminPanel.jsx:629-634 | saving the same edit twice is saving it once |
| AdminPanel.AddThenDeleteItem | src/screens/Admin/AdminPanel.jsx:595-640 | deleting a new entry's unused fresh id gives the old list back |
| AdminPanel.SaveSlotDay | src/screens/Admin/AdminPanel.jsx:670-676 | with an id: in-place replacement, same length, no re-sort; without: one more slot, a permutation of the old day plus the new slot, ordered by start time |
| AdminPanel.AddSlotStable | src/screens/Admin/AdminPanel.jsx:673-675 | slots with the same start time keep their order, the new one last among them |
| AdminPanel.AddThenDeleteSlot | src/screens/Admin/AdminPanel.jsx:672-693 | on an ordered day, deleting an added slot's fresh id restores the day |
| AdminPanel.SaveUnchangedSlot | src/screens/Admin/AdminPanel.jsx:670-671 | saving a stored slot unchanged from the modal leaves the day as it was |
| AdminPanel.InOwnGroup | src/screens/Admin/AdminPanel.jsx:758-761 | each entry lands in the group of its own key |
| AdminPanel.InGroup | src/screens/Admin/AdminPanel.jsx:758-761 | a group holds only entries with its key, in data order |
| AdminPanel.InGroupEmpty | src/screens/Admin/AdminPanel.jsx:759 | a key no entry has gets no entries |
| AdminPanel.KeySetMembership | src/screens/Admin/AdminPanel.jsx:759 | the key set holds exactly the listed keys |
| AdminPanel.InGroupSnoc | src/screens/Admin/AdminPanel.jsx:759 | one more entry joins its own key's group, at the end, and no other group |
| AdminPanel.SizeSumFrame | src/screens/Admin/AdminPanel.jsx:759 | writing an unlisted group leaves the size sum alone |
| AdminPanel.SizeSumGrow | src/screens/Admin/AdminPanel.jsx:759 | pushing onto a listed group adds one to the size sum |
| AdminPanel.PushExisting | src/screens/Admin/AdminPanel.jsx:759 | the `push` onto an existing group keeps the grouping invariant |
| AdminPanel.PushNew | src/screens/Admin/AdminPanel.jsx:759 | creating a group for a new key keeps the grouping invariant |
| AdminPanel.KeysStayGrouped | src/screens/Admin/AdminPanel.jsx:759 | once the new entry's key has a group, every entry of the longer prefix still has its key among the groups |
| AdminPanel.PushKeepsGrouped | src/screens/Admin/AdminPanel.jsx:759 | `(acc[k] = acc[k] \|\| []).push(item)` keeps the grouping invariant for one more entry, whether its key is new or not |
| AdminPanel.GroupedMeans | src/screens/Admin/AdminPanel.jsx:758-761 | a grouping of all the data has distinct keys, a group for every entry's key, each group exactly its entries in order and sizes summing to the data length |
| AdminPanel.GroupItems | src/screens/Admin/AdminPanel.jsx:758-761 | the reduce throws exactly when some entry's key is a name a plain object inherits; otherwise the groups are the distinct keys, every entry's key has a group, each group holds exactly its entries in order and group sizes sum to the data length |
| AdminPanel.ConstructorSubjectThrows | src/screens/Admin/AdminPanel.jsx:759 | a teacher whose subject is "constructor" makes the grouped view throw when it groups by `subject` |
| AdminPanel.SlotsTextAppend | src/screens/Admin/AdminPanel.jsx:652-654 | the day's text is the slots' texts in order |
| AdminPanel.ShareOneMore | src/screens/Admin/AdminPanel.jsx:651-655 | one more slot puts its block just before the footer |
| AdminPanel.ShareMessage | src/screens/Admin/AdminPanel.jsx:644-656 | an empty day gives the "No schedule to share." alert; otherwise the header, each slot's block in order and the footer |
| AdminPanel.InitialDaysSorted | src/screens/Admin/AdminPanel.jsx:507-535 | the panel's initial days are in start-time order |
| AdminPanel.AdminState.constructor | src/screens/Admin/AdminPanel.jsx:484-535 | the initial lists, timetable and selections |
| AdminPanel.AdminState.OpenForm | src/screens/Admin/AdminPanel.jsx:605-614 | the form opens on the given list; nothing else changes |
| AdminPanel.AdminState.SelectTimetable | src/screens/Admin/AdminPanel.jsx:489-490 | only the selected class and day change |
| AdminPanel.AdminState.SaveForm | src/screens/Admin/AdminPanel.jsx:615-641 | only the list chosen by the form's list type changes, by `SaveToList` with that list's detail key |
| AdminPanel.AdminState.Delete | src/screens/Admin/AdminPanel.jsx:587-604 | only the list named by the type loses the entries with that id; any other type changes nothing |
| AdminPanel.AdminState.SaveSlot | src/screens/Admin/AdminPanel.jsx:664-682 | only the selected class's selected day changes, to `SaveSlotDay` of it; a missing class or day reads as empty |
| AdminPanel.AdminState.DeleteSlot | src/screens/Admin/AdminPanel.jsx:684-697 | only the selected day loses the slots with that id |
| AdminPanel.AdminState.TimetableShare | src/screens/Admin/AdminPanel.jsx:644-662 | the share result for the selected class and day |
| TimeTableGenerator.EditModalSave | src/screens/Admin/TimeTableGenerator.jsx:146-151 | refused with "Subject and Start Time are required." exactly when subject or start is empty; otherwise the form's fields with the edited slot's id, or a fresh id when it has none |
| TimeTableGenerator.EditModalRoundTrip | src/screens/Admin/TimeTableGenerator.jsx:141-151 | opening a stored slot and saving it unchanged gives that slot back |
| TimeTableGenerator.SaveSlotDay | src/screens/Admin/TimeTableGenerator.jsx:251-260 | edit mode replaces the slots with that id in place, same length; add mode appends and the result is a permutation ordered by start time |
| TimeTableGenerator.EditUnknownIdChangesNothing | src/screens/Admin/TimeTableGenerator.jsx:252-255 | an edit whose id no slot carries changes nothing and adds nothing |
| TimeTableGenerator.EditReplacesOnlyThatSlot | src/screens/Admin/TimeTableGenerator.jsx:252-255 | with distinct ids, editing a slot replaces exactly its position |
| TimeTableGenerator.AddSlotStable | src/screens/Admin/TimeTableGenerator.jsx:257-259 | equal start times keep their order, the new slot last among them |
| TimeTableGenerator.AddThenDeleteSlot | src/screens/Admin/TimeTableGenerator.jsx:257-287 | on an ordered day, deleting an added slot's unused id restores the day |
| TimeTableGenerator.GeneratorState.constructor | src/screens/Admin/TimeTableGenerator.jsx:233-237 | the initial timetable, first class, first day, not editing |
| TimeTableGenerator.GeneratorState.Select | src/screens/Admin/TimeTableGenerator.jsx:233-234 | only the selection changes |
| TimeTableGenerator.GeneratorState.StartAdd | src/screens/Admin/TimeTableGenerator.jsx:366-367 | the modal opens with nothing being edited |
| TimeTableGenerator.GeneratorState.StartEdit | src/screens/Admin/TimeTableGenerator.jsx:388-389 | the modal opens on that slot |
| TimeTableGenerator.GeneratorState.SaveSlot | src/screens/Admin/TimeTableGenerator.jsx:245-270 | only the selected day changes, in the mode `editingItem` chooses |
| TimeTableGenerator.GeneratorState.DeleteSlot | src/screens/Admin/TimeTableGenerator.jsx:272-294 | only the selected day loses the slots with that id |

## Left out

- Rendering, styling, animation, `LayoutAnimation`, scrolling, navigation configuration and the
  presentational screens: they carry no data logic.
- Network and storage: `fetch`, SecureStore sessions, Mongo `findOne`/`findOneAndUpdate`. A store
  is a map or a sequence in natural order, and a fetch outcome is an input. Server wiring and
  schemas are not part of this model, nor are the `catch` branches that answer 500.
- Timers: the one-second reply delay is a FIFO of pending inputs, and each timer firing is one
  `DeliverReply`. Timers fire in the order they were set, so the queue is faithful.
- `Date.now()` and `Math.random()` are parameters. `Date.now()` gives a number id, or a string for
  chat turns. `Math.random()` gives a real in [0, 1). `toLocaleTimeString` is a string parameter.
- AiTeacherChat.Lower: lower-cases ASCII letters only; JavaScript's full Unicode `toLowerCase`
  is not modelled.
- ListOps.SortBy: `localeCompare` is replaced by ordinal (code point) order. Locale collation is
  not modelled. The sort is stable, as JavaScript's is.
- Responsive.GetResponsiveLayout: widths are integers; fractional widths are not modelled.
- StudentsRoute.OverallPercent: `Math.round` over reals; floating-point rounding is not
  modelled. The numerator is always 0.
- StudentsRoute.GetOverview: a stored record always has a subject list, so
  `student.subjects || []` has no separate case.
- MarkAttendance.Present: `Object.values(...).filter` counts entries regardless of key order;
  the order of `Object.values` does not matter for a count and is not modelled.
- AdminPanel.GroupItems: the keys are listed in first-seen order. JavaScript lists integer-like
  object keys first, in numeric order, and that reordering is not modelled.
- LoginScreen.LoginState.OnCountryChange: requires the code to be one the picker lists. The
  picker offers only those, and `find` on any other code would store `undefined`.
- LoginScreen: the `maxLength` of the phone field is a keyboard limit and is not modelled; the
  length check in `handleLogin` is.
- The delete button of `ListItem` passes `onDelete` to an outer `TouchableOpacity`, so the
  delete icon is not wired (src/screens/Admin/AdminPanel.jsx:169). This is UI wiring; `handleDelete`
  itself is modelled.
- AdminPanel.ShareMessage: the text handed to `Share.share` is modelled, but the share sheet and
  its error alert are not.
