# A verified model of the tutoring front end's core rules

The repository is a React front end for a two-subject (Toán and Tiếng Anh)
exam-preparation tutor. This project models in Dafny the rules that decide
what those screens compute:

- the study-session timer of "Today's plan", the plan list's ordering and
  totals, and the demo page's session store (`today_plan.dfy`);
- the teacher portal's alert rules, row filter, checkbox selection, alert
  panel and weekly class roll-up (`teacher_dashboard.dfy`);
- the guardian portal's fixed two-subject table, class-code validation,
  student pick, weekly goals and notification switch (`parent_dashboard.dfy`);
- the exam-practice page's keyboard shortcuts, topic-builder presets,
  library and history filters and static tables (`mock_exam.dfy`);
- the handbook search and knowledge map (`handbook_search.dfy`);
- the knowledge base's subject-slug coercion, core-notes lookup, quick
  summary and topic filter (`knowledge_base.dfy`);
- the chat assistant's relative times, capped per-subject history, context
  search, send protocol and copy button (`chatbot.dfy`);
- the student dashboard's weekly percentage, progress bars, quick-exam
  columns, weak-unit line and trend lists (`dashboard.dfy`).

Shared modules hold the JavaScript operations these rely on:

- `arith.dfy` has `Math.round` of a non-negative quotient and the 0..100 clamp;
- `text.dfy` has `trim`, ASCII `toLowerCase`, `includes` and `join`;
- `lists.dfy` has `filter`, `slice`, `findIndex`, the last match a `Map`
  keeps, and the add-or-remove toggle;
- `subjects.dfy` has the subject enumeration and the class codes;
- `wrappers.dfy` has the optional value that stands for `undefined`.

Screens whose fields change step by step are classes with `modifies`
clauses:

- the timer, the demo store and the quick-add form of "Today's plan";
- the teacher's checkbox selection;
- the guardian's notification switch;
- the exam page and its topic builder;
- the chat panel.

Each method's postcondition states its whole new state. It does so through
pure functions whose properties are proved as lemmas. Expression-only code
becomes functions and lemmas.

Time units follow the code, which mixes them:

- the timer counts seconds;
- finishing reports `Math.round(seconds / 60)` minutes, halves rounded up;
- a session's recorded progress is in minutes.

## Model

A function that only computes has no row of its own when a lemma states
its properties: the `…Spec`, `…Bounds` and similar rows stand for the
function they are about (for instance `TeacherDashboard.WeeklyBounds` for
`Weekly`, `TeacherDashboard.AlertsOrdered` for `Alerts`,
`HandbookSearch.SearchSpec` for `Search`, `MockExam.MockLibrarySpec` for
`MockLibrary`, `Chatbot.TimeAgoBuckets` for `TimeAgo`, `Chatbot.SaveLoad`
for `SaveHistory`).

| member | source | states |
|---|---|---|
| Arith.Max | components/ParentDashboard.tsx:178 | `Math.max`: at least both arguments and equal to one of them |
| Arith.Min | components/Dashboard.tsx:106 | `Math.min`: at most both arguments and equal to one of them |
| Arith.RoundDiv | components/Dashboard.tsx:134 | `Math.round(a / b)` for a ≥ 0, b > 0: the unique integer r with a/b in [r − ½, r + ½) |
| Arith.RoundDivUnique | components/Dashboard.tsx:134 | any integer within half of a/b (halves up) is the rounded quotient |
| Arith.RoundMinutes | components/TodayPlan.tsx:244 | the minutes reported for s seconds: 60m ≤ s + 30 < 60m + 60 |
| Arith.ClampPercent | components/Dashboard.tsx:106 | `min(max(v, 0), 100)`: in [0, 100], v itself inside the range, 0 below and 100 above |
| Arith.RoundDivBetween | components/TeacherDashboard.tsx:369 | a rounded average of values in [lo, hi] stays in [lo, hi] |
| Arith.RoundDivAtLeast | components/Dashboard.tsx:134 | a quotient of at least lo rounds to at least lo |
| Text.TrimStart | components/TodayPlan.tsx:148 | removes exactly the leading white space: the result is a suffix, everything cut is white space, the result starts with a non-space |
| Text.TrimEnd | components/TodayPlan.tsx:148 | the same for trailing white space |
| Text.Trim | components/TodayPlan.tsx:148 | the trimmed text is a slice of s with only white space cut from either end, and it neither starts nor ends with white space |
| Text.BlankIffAllSpace | components/MainDashboard_2Subjects.tsx:149 | `!q.trim()` holds exactly when every character of q is white space |
| Text.Lower | components/TeacherDashboard.tsx:116 | lowercasing keeps the length and maps each character on its own |
| Text.ContainsIffOccurs | components/TeacherDashboard.tsx:116 | `includes` holds exactly when the needle occurs at some offset, in both directions |
| Text.ContainsEmpty | components/KnowledgeBase.tsx:156 | every string includes the empty string |
| Text.ContainsNoLonger | components/MainDashboard_2Subjects.tsx:150 | a string only includes strings no longer than itself |
| Text.Join | components/Dashboard.tsx:232 | `join`: empty for no parts, the part itself for one, and it starts with the first part |
| Text.JoinAppend | components/Dashboard.tsx:232 | appending a part appends the separator and the part, so a separator stands between every two neighbouring parts and nowhere else |
| Lists.Filter | components/TeacherDashboard.tsx:115 | `filter`: no longer than the input, every kept element passes, every passing element is kept |
| Lists.FilterIsSubsequence | components/TeacherDashboard.tsx:115-116 | what `filter` keeps stays in the input's order |
| Lists.FilterAll | components/MainDashboard_2Subjects.tsx:148-149 | a filter every element passes is the identity |
| Lists.FilterNone | components/AIChatbot.tsx:64 | a filter no element passes gives the empty list |
| Lists.FilterFilter | components/TeacherDashboard.tsx:115-116 | two filters in a row are one filter by both conditions |
| Lists.Count | components/TodayPlan.tsx:227 | the number of passing elements is the length of the filter and at most the length |
| Lists.Take | components/TeacherDashboard.tsx:258 | `slice(0, n)`: a prefix of length min(n, length) |
| Lists.TakeLast | components/AIChatbot.tsx:76 | `slice(-n)`: a suffix of length min(n, length), and the whole array for n = 0 |
| Lists.ToggleMember | components/TeacherDashboard.tsx:125 | the toggled id is present exactly when it was absent; other ids are kept; an absent id is appended |
| Lists.ToggleTwice | components/MockExam2Subjects.tsx:162 | toggling twice restores the members, and the very list when the id was absent |
| Lists.FindIndex | components/TeacherDashboard.tsx:312 | `find`: none exactly when nothing passes; otherwise the first passing position |
| Lists.FindLastIndex | components/ParentDashboard.tsx:114 | the last passing position, or none exactly when nothing passes |
| Subjects.Label | components/ThreeSubjects.tsx:3 | each subject has a non-empty label |
| Subjects.LabelInjective | components/ThreeSubjects.tsx:3 | distinct subjects have distinct labels |
| TodayPlan.RemainingSeconds | components/TodayPlan.tsx:71 | remaining time is in [0, planned·60]; it is 0 exactly when the time used reaches the plan, and otherwise remaining + used = planned·60; used is the live counter of the active row, else recorded minutes × 60 |
| TodayPlan.Countdown | components/TodayPlan.tsx:72-73 | `mm:ss` with ss < 60 and 60·mm + ss = remaining |
| TodayPlan.CountdownBounds | components/TodayPlan.tsx:71-73 | a countdown never shows more minutes than planned, and shows 00:00 exactly when the plan is used up |
| TodayPlan.StrLessIrreflexive | components/TodayPlan.tsx:215 | no start time sorts before itself |
| TodayPlan.StrLessTransitive | components/TodayPlan.tsx:215 | the start-time order is transitive |
| TodayPlan.StrLessTotal | components/TodayPlan.tsx:215 | any two different start times are ordered one way or the other |
| TodayPlan.NotBeforeTransitive | components/TodayPlan.tsx:215 | the comparator (start time, then priority) is a strict weak order: "not before" is transitive |
| TodayPlan.BeforeAsymmetric | components/TodayPlan.tsx:215 | the comparator never puts two sessions each before the other |
| TodayPlan.UnscheduledLast | components/TodayPlan.tsx:215 | a session without a start time (the `"99:99"` key) sorts after every session with a time of day |
| TodayPlan.Insert | components/TodayPlan.tsx:215 | inserting into a sorted list gives a sorted list with the same elements plus the new one |
| TodayPlan.SortSessions | components/TodayPlan.tsx:214-215 | the sorted list is ordered by the comparator and is a permutation of the input |
| TodayPlan.InsertStable | components/TodayPlan.tsx:215 | inserting a session into a sorted list keeps it ahead of the sessions it is tied with |
| TodayPlan.SortStable | components/TodayPlan.tsx:214-215 | the sort is stable: sessions with the same start key and priority keep their input order |
| TodayPlan.FilterKeepsSorted | components/TodayPlan.tsx:216 | filtering a sorted list keeps it sorted |
| TodayPlan.FilterMultiplicity | components/TodayPlan.tsx:216 | a filter keeps every passing element as many times as it occurs and drops the rest |
| TodayPlan.DisplayedIsSortedSubjectSlice | components/TodayPlan.tsx:213-217 | the shown rows are sorted, all of the selected subject, and exactly that subject's sessions with their multiplicities |
| TodayPlan.TotalsAll | components/TodayPlan.tsx:223-230 | planned is the sum of the planned minutes, done count the number of done sessions and count the number of sessions; done count ≤ count, and planned lies between 15 and 60 per session |
| TodayPlan.SumPlannedAppend | components/TodayPlan.tsx:226 | the planned total of two lists together is the sum of their totals |
| TodayPlan.PlannedBounds | components/TodayPlan.tsx:226 | the planned sum lies between 15·n and 60·n |
| TodayPlan.FinishOne | components/TodayPlan.tsx:354 | finishing marks the session done and adds the reported minutes to the recorded ones; the hint count and every field other than status and progress are kept |
| TodayPlan.FinishIn | components/TodayPlan.tsx:354 | finish changes exactly the sessions carrying the id |
| TodayPlan.FinishAddsMinutes | components/TodayPlan.tsx:327-354 | after a finish the day's recorded minutes grow by the reported minutes once per session with that id |
| TodayPlan.PatchFields | components/TodayPlan.tsx:355 | a patch replaces the fields it carries and keeps the others; the empty patch is the identity |
| TodayPlan.UpdateIn | components/TodayPlan.tsx:355 | update merges the patch into exactly the sessions carrying the id |
| TodayPlan.UpdateIdempotent | components/TodayPlan.tsx:355 | applying the same update twice equals applying it once, when the patch keeps the id |
| TodayPlan.DeleteIn | components/TodayPlan.tsx:356 | no session with the id remains and every other session does |
| TodayPlan.DeleteKeepsOthers | components/TodayPlan.tsx:356 | delete keeps the other sessions in order, removes one entry per matching session, and is the identity for an absent id |
| TodayPlan.DeleteLength | components/TodayPlan.tsx:356 | the list shrinks by the number of sessions with the id |
| TodayPlan.MakeDraft | components/TodayPlan.tsx:147-159 | a blank title is refused; otherwise the draft has the trimmed title, the trimmed or random unit id, priority 2 and the form's subject, mode and minutes |
| TodayPlan.FromDraft | components/TodayPlan.tsx:358 | the new session has the fresh id and the draft's subject, unit id, title, mode, planned minutes and priority, and no start time, notes, status or progress |
| TodayPlan.QuickAddForm.constructor | components/TodayPlan.tsx:137-141 | the form starts empty with the page's subject, tutor mode and 25 minutes |
| TodayPlan.QuickAddForm.SyncSubject | components/TodayPlan.tsx:143-145 | the form follows the page's subject and keeps its other fields |
| TodayPlan.QuickAddForm.HandleAdd | components/TodayPlan.tsx:147-162 | the add yields the draft for the old fields; title and unit id are cleared only after a successful add |
| TodayPlan.PlanStore.OnFinish | components/TodayPlan.tsx:354 | the store becomes the finished list and its recorded minutes grow accordingly |
| TodayPlan.PlanStore.OnUpdate | components/TodayPlan.tsx:355 | the store becomes the updated list |
| TodayPlan.PlanStore.OnDelete | components/TodayPlan.tsx:356 | the store becomes the filtered list, a subsequence of the old one |
| TodayPlan.PlanStore.OnQuickAdd | components/TodayPlan.tsx:358 | the new session is prepended to the list, so the planned total grows by its planned minutes and the count by one |
| TodayPlan.SessionTimer.constructor | components/TodayPlan.tsx:208-211 | no running session, counter 0, focus phase, not ticking |
| TodayPlan.SessionTimer.ElapsedFor | components/TodayPlan.tsx:282-283 | the running row sees the live counter; every other row sees 0 |
| TodayPlan.SessionTimer.Tick | components/TodayPlan.tsx:237 | a tick adds exactly one second while ticking and changes nothing otherwise |
| TodayPlan.SessionTimer.Start | components/TodayPlan.tsx:232-238 | afterwards the session is the one running, in focus, from 0, ticking; the only event logged is the start, so a pre-empted session is never reported finished |
| TodayPlan.SessionTimer.Pause | components/TodayPlan.tsx:239 | pausing stops ticking and freezes everything else; it is idempotent |
| TodayPlan.SessionTimer.Resume | components/TodayPlan.tsx:240 | resuming leaves the timer ticking and changes nothing else; it is idempotent |
| TodayPlan.SessionTimer.Stop | components/TodayPlan.tsx:241-246 | stop clears the running id, the tick and the counter, keeps the phase, and reports the rounded minutes exactly when completed |
| TodayPlan.SessionTimer.TogglePhase | components/TodayPlan.tsx:248 | the phase flips and the counter restarts; the running id and the tick are kept |
| TodayPlan.StopAndRecord | components/TodayPlan.tsx:241-288 | the timer is stopped with its phase kept and logs the rounded minutes exactly when completed; a completed stop records those minutes on the session in the store, an abandoned one leaves the store alone |
| TeacherDashboard.RiskyRows | components/TeacherDashboard.tsx:308-316 | the pushed list is the rule-order alert list Alerts, with at most 3 entries |
| TeacherDashboard.AlertsOrdered | components/TeacherDashboard.tsx:308-316 | at most 3 alerts, strictly in the order crit, hints, weak unit, all carrying the row's student id |
| TeacherDashboard.CritAlert | components/TeacherDashboard.tsx:310 | a critical alert exists exactly when adherence < 60; it is then first, and every later alert is a warning |
| TeacherDashboard.HintsAlert | components/TeacherDashboard.tsx:311-312 | a hints warning exists exactly when some subject has ≥ 6 hints, and it names the first such subject |
| TeacherDashboard.WeakUnitAlert | components/TeacherDashboard.tsx:314 | a unit-linked alert exists exactly when the row has weakest units; it is the last alert and links the first unit |
| TeacherDashboard.WithStat | components/TeacherDashboard.tsx:117-120 | each row keeps its data and gets the first stat of the selected subject, or none |
| TeacherDashboard.RowsOf | components/TeacherDashboard.tsx:117-120 | the rows behind a table are the table's rows, in order |
| TeacherDashboard.FilteredRowsSpec | components/TeacherDashboard.tsx:113-121 | the table is a subsequence of the rows holding exactly the rows of the selected class whose lowercased name contains the lowercased query (every class row for an empty query), in both directions |
| TeacherDashboard.MasteryWidth | components/TeacherDashboard.tsx:224 | the bar is in [0, 100], 0 for a missing stat, the mastery itself when in range |
| TeacherDashboard.WeakChips | components/TeacherDashboard.tsx:230 | a row shows its first two weakest units |
| TeacherDashboard.IdsOf | components/TeacherDashboard.tsx:124 | "select all" selects the shown students' ids in table order |
| TeacherDashboard.CheckedAllComparesLengths | components/TeacherDashboard.tsx:123 | the header box is ticked for a selection of the right length that misses a shown student |
| TeacherDashboard.Selection.constructor | components/TeacherDashboard.tsx:109 | nothing is selected at first |
| TeacherDashboard.Selection.ToggleOne | components/TeacherDashboard.tsx:125 | the id is selected exactly when it was not |
| TeacherDashboard.Selection.ToggleAll | components/TeacherDashboard.tsx:124 | clears when all are checked, otherwise selects exactly the shown ids, after which the box is ticked |
| TeacherDashboard.Highlights | components/TeacherDashboard.tsx:256-258 | the panel is the first 6 alerts of the rows' alerts concatenated in row order |
| TeacherDashboard.AllAlertsEmpty | components/TeacherDashboard.tsx:257 | the concatenation is empty exactly when every row yields no alert |
| TeacherDashboard.AllAlertsBound | components/TeacherDashboard.tsx:257 | the rows yield at most 3 alerts each |
| TeacherDashboard.NoteIffEmptyPanel | components/TeacherDashboard.tsx:256-271 | the "no alerts" note shows exactly when rows are shown and the panel is empty |
| TeacherDashboard.LevelCounts | components/TeacherDashboard.tsx:372-373 | the warn and crit counts never exceed the class size |
| TeacherDashboard.AdherenceSumBounds | components/TeacherDashboard.tsx:369 | the sum of adherences in [lo, hi] lies in [lo·n, hi·n] |
| TeacherDashboard.WeeklyBounds | components/TeacherDashboard.tsx:368-374 | an empty class rolls up to zeros; otherwise the average adherence lies between the smallest and largest adherence of the class rows, and warn + crit ≤ class size |
| ParentDashboard.ZeroSummary | components/ParentDashboard.tsx:115 | the entry for a missing subject is all zero |
| ParentDashboard.SubjectTableShape | components/ParentDashboard.tsx:111-116 | the table always has two entries, Toán then Tiếng Anh; each is the last input entry for its subject, unchanged, or the zero entry |
| ParentDashboard.CoerceClassName | components/ParentDashboard.tsx:49-51 | the class code is kept exactly when given, non-empty and one of the seven codes, and is undefined otherwise |
| ParentDashboard.PickStudent | components/ParentDashboard.tsx:106 | the first student whose id is the selected one when there is one, otherwise the first student; none only for an empty list |
| ParentDashboard.TargetMinutes | components/ParentDashboard.tsx:178 | the time goal is at least 120 and at least the minutes already studied, and is one of the two |
| ParentDashboard.FocusUnits | components/ParentDashboard.tsx:180 | a supplied list, even an empty one, is used; only a missing one falls back to the weakest units |
| ParentDashboard.ShownFocusUnits | components/ParentDashboard.tsx:276-280 | at most the first 3 focus units are shown |
| ParentDashboard.MasteryWidth | components/ParentDashboard.tsx:226 | the bar is in [0, 100] and is the mastery itself when in range |
| ParentDashboard.Notifications.constructor | components/ParentDashboard.tsx:107 | notifications start enabled |
| ParentDashboard.Notifications.Toggle | components/ParentDashboard.tsx:109 | the flag is negated and the new value is returned and reported |
| MockExam.UnitFor | components/MockExam2Subjects.tsx:281 | the lookup returns a unit of the table with the id, or none exactly when no unit has it |
| MockExam.TableIdsUnique | components/MockExam2Subjects.tsx:19-31 | unit ids and exam ids are unique in their tables |
| MockExam.UnitForEntry | components/MockExam2Subjects.tsx:281 | the lookup finds the table entry carrying the id |
| MockExam.MocksReferToKnownUnits | components/MockExam2Subjects.tsx:27-31 | every unit an exam lists is in the unit table and of the exam's subject, so the non-null lookup holds |
| MockExam.ExamPage.constructor | components/MockExam2Subjects.tsx:57-63 | the page starts on Toán, grade 9, the topic tab, 15 minutes and 10 questions |
| MockExam.ExamPage.OnKey | components/MockExam2Subjects.tsx:67-82 | with Alt, keys 1-4 pick the tabs and nothing else changes; without it, 1/2/3 set 15/30/45 minutes and q/w/e (any case) set 10/20/30 questions; other keys change nothing |
| MockExam.ExamPage.SelectTab | components/MockExam2Subjects.tsx:99-102 | a tab button selects its tab only |
| MockExam.ExamPage.SelectSubject | components/MockExam2Subjects.tsx:110 | a subject button selects the subject only |
| MockExam.ExamPage.SelectGrade | components/MockExam2Subjects.tsx:116 | a grade button selects the grade only |
| MockExam.ExamPage.SmartMinuteChip | components/MockExam2Subjects.tsx:319-320 | a smart-builder minute chip sets the minutes only |
| MockExam.ShortcutKeysDisjoint | components/MockExam2Subjects.tsx:74-81 | a minutes key is never a question-count key |
| MockExam.ChipMode | components/MockExam2Subjects.tsx:202 | a minute chip picks a non-targeted mode whose preset has those minutes |
| MockExam.TopicBuilder.constructor | components/MockExam2Subjects.tsx:151-160 | the builder mounts in mini mode with nothing picked, and its effect sets 15 minutes and 10 questions |
| MockExam.TopicBuilder.SetMode | components/MockExam2Subjects.tsx:155-160 | a changed, non-targeted mode writes its preset (mini 15/10, short 30/20, full 45/30); the same mode or targeted leaves minutes and questions alone |
| MockExam.TopicBuilder.MinuteChip | components/MockExam2Subjects.tsx:202 | the chip sets the minutes and its mode; the questions reset to the mode's preset only when the mode changed |
| MockExam.TopicBuilder.ItemsChip | components/MockExam2Subjects.tsx:214 | a question chip sets the question count only |
| MockExam.TopicBuilder.Toggle | components/MockExam2Subjects.tsx:162 | the unit is picked exactly when it was not |
| MockExam.TopicUnits | components/MockExam2Subjects.tsx:152 | the topic tab offers, in table order, exactly the table units of the selected subject |
| MockExam.MockLibrarySpec | components/MockExam2Subjects.tsx:235-241 | the library keeps, in table order, exactly the exams of the subject and grade whose lowercased title contains the query and whose difficulty passes the filter |
| MockExam.MockLibraryExample | components/MockExam2Subjects.tsx:235-241 | grade-9 Toán with no query and any difficulty lists only the 2024 THPT exam |
| MockExam.HistoryListSpec | components/MockExam2Subjects.tsx:350 | the history keeps, in order, exactly the attempts of the subject; the two subjects' list lengths add up to the whole history |
| MockExam.HistorySplit | components/MockExam2Subjects.tsx:350 | the two subjects' history lengths add up to the whole |
| HandbookSearch.BlankQueryKeepsAll | components/MainDashboard_2Subjects.tsx:148-149 | a blank or whitespace-only query returns the subject's units unchanged |
| HandbookSearch.SearchSpec | components/MainDashboard_2Subjects.tsx:147-157 | the result is a subsequence of the units; for a non-blank query it holds exactly the units whose topic, kind, a tag or the definition contains the lowercased query |
| HandbookSearch.UntrimmedKeyMatters | components/MainDashboard_2Subjects.tsx:149-150 | surrounding spaces stay in the key: "ab" finds a topic "ab" and "ab " does not |
| HandbookSearch.KnowledgeMap | components/MainDashboard_2Subjects.tsx:228-235 | the map lists every unit, whatever the query, each with its first two tags |
| KnowledgeBase.PoolFor | components/KnowledgeBase.tsx:127 | an unknown subject has an empty pool |
| KnowledgeBase.CoreNotesForSpec | components/KnowledgeBase.tsx:126-133 | the lookup returns the notes of the first key, in table order, that the lowercased topic contains, and nothing when no key matches or the subject is unknown |
| KnowledgeBase.CoreNotesWellFormed | components/KnowledgeBase.tsx:21-114 | no key of the notes table is empty or has no notes |
| KnowledgeBase.SubjectPools | components/KnowledgeBase.tsx:127 | each accepted subject finds its own pool: "toan" the mathematics notes, "tieng-anh" the English notes |
| KnowledgeBase.DropRun | components/KnowledgeBase.tsx:141 | drops exactly the leading run of characters outside a-z and 0-9 |
| KnowledgeBase.CollapseRuns | components/KnowledgeBase.tsx:141 | the result has only a-z, 0-9 and dashes, never two dashes in a row |
| KnowledgeBase.Slugify | components/KnowledgeBase.tsx:141 | every result is a slug (a-z, 0-9, single inner dashes, none at the ends); null and "" give "toan" |
| KnowledgeBase.DefaultSlugIsSlug | components/KnowledgeBase.tsx:141 | the fallback "toan" is itself a slug |
| KnowledgeBase.TrimDashesSlug | components/KnowledgeBase.tsx:141 | removing one dash from each end of collapsed text leaves a slug |
| KnowledgeBase.CollapseFixesSlugText | components/KnowledgeBase.tsx:141 | collapsing text already made of slug characters and single dashes changes nothing |
| KnowledgeBase.SlugifyFixesSlugs | components/KnowledgeBase.tsx:141 | a non-empty slug is its own slugification |
| KnowledgeBase.ValidSubjectSlug | components/KnowledgeBase.tsx:143-146 | the result is always an accepted subject: the slug when it is one, "toan" otherwise, and "toan" for null |
| KnowledgeBase.SubjectSlugsAreSlugs | components/KnowledgeBase.tsx:11 | the accepted subjects are themselves non-empty slugs |
| KnowledgeBase.ValidSubjectSlugIdempotent | components/KnowledgeBase.tsx:143-146 | coercing an already coerced subject changes nothing |
| KnowledgeBase.QuickSummary | components/KnowledgeBase.tsx:117-123 | four points for each accepted subject, none for any other |
| KnowledgeBase.TopicsSpec | components/KnowledgeBase.tsx:155-157 | the topics shown are a subsequence of the syllabus, exactly those containing the filter case-insensitively; an empty filter shows them all |
| Chatbot.TimeAgoBuckets | components/AIChatbot.tsx:78-84 | with s the whole seconds elapsed: seconds below 60, minutes s/60 below an hour, hours s/3600 below a day, days s/86400 after |
| Chatbot.TimeAgoRecent | components/AIChatbot.tsx:79-80 | less than a second before now is "0s" |
| Chatbot.LoadHistory | components/AIChatbot.tsx:73-75 | a missing or unparsable history loads as empty |
| Chatbot.SaveLoad | components/AIChatbot.tsx:73-76 | saving then loading gives the last 50 messages (all of them when fewer), and other subjects' histories are untouched |
| Chatbot.CopyLast | components/AIChatbot.tsx:126-128 | the copy button never copies empty text |
| Chatbot.CopyLastSpec | components/AIChatbot.tsx:126-128 | only the most recent assistant message is looked at: its text is copied, and nothing is copied when it is empty (even if an earlier answer is not) or when there is no answer |
| Chatbot.ContextHits | components/AIChatbot.tsx:60-66 | the hits are the first min(max, number of matches) matches: a prefix of the matching items, each of the subject with a name containing the lowercased query |
| Chatbot.CiteLabel | components/AIChatbot.tsx:67 | each hit is cited between 【 and 】 |
| Chatbot.CiteLabels | components/AIChatbot.tsx:67 | one citation per hit, in order |
| Chatbot.SearchContext | components/AIChatbot.tsx:55-68 | nothing stored, or unparsable text, gives the empty context; a parsed store gives an empty context exactly when there are no hits |
| Chatbot.SearchContextSpec | components/AIChatbot.tsx:55-68 | the hits are a subsequence of the items; no match or max = 0 gives ""; the first hit's citation opens the context |
| Chatbot.SearchContextLines | components/AIChatbot.tsx:60-67 | with max 1 the context is the first match's label; each further allowed hit adds a line break and the next match's label; past the matches a larger max changes nothing |
| Chatbot.Chat.constructor | components/AIChatbot.tsx:87-90 | the panel opens on Toán with its stored history, an empty input and the context switch on |
| Chatbot.Chat.SetInput | components/AIChatbot.tsx:204 | typing changes the input only |
| Chatbot.Chat.SetUseContext | components/AIChatbot.tsx:150 | the checkbox changes the context switch only |
| Chatbot.Chat.SwitchSubject | components/AIChatbot.tsx:95 | a subject button selects the subject; the history is reloaded only when the subject changed, so a click on the current subject keeps the shown messages |
| Chatbot.Chat.Send | components/AIChatbot.tsx:97-124 | a blank question changes nothing; otherwise the input is cleared, the request carries the trimmed question and context, and the history becomes old messages + question + answer or error, saved under the subject |
| Chatbot.Question | components/AIChatbot.tsx:98-99 | the question is empty exactly when the given text, or the input, is blank |
| Chatbot.ContextFor | components/AIChatbot.tsx:116 | with the switch on the request carries the context search for the subject's slug with at most 3 hits; with it off, no context |
| Chatbot.Exchange | components/AIChatbot.tsx:118-121 | the history grows by two: the question, then the answer or `⚠️ Lỗi: ` and the error message |
| Chatbot.CopyAfterExchange | components/AIChatbot.tsx:118-128 | after an answered exchange the copy button copies that answer |
| Chatbot.SubjectSlug | components/AIChatbot.tsx:15 | a subject's storage key is one of the two slugs |
| Dashboard.PctWeek | components/Dashboard.tsx:134 | the weekly percentage is 100·done / max(1, target) rounded to the nearest integer |
| Dashboard.BarWidth | components/Dashboard.tsx:104-108 | the bar is in [0, 100], the value itself in range, 0 below and 100 above |
| Dashboard.PctWeekNoTarget | components/Dashboard.tsx:134 | a target of 0 divides by 1: every minute counts 100 percent |
| Dashboard.PctWeekMet | components/Dashboard.tsx:134 | meeting the target exactly is 100 percent |
| Dashboard.PctWeekWithinTarget | components/Dashboard.tsx:134 | up to the target the percentage is at most 100 and the bar shows it unchanged |
| Dashboard.PctWeekPastTarget | components/Dashboard.tsx:134 | past the target the percentage is at least 100 and the bar is full |
| Dashboard.QuickColumn | components/Dashboard.tsx:210 | each quick-exam column shows the first three exams, in order |
| Dashboard.StartFromColumn | components/Dashboard.tsx:210-222 | a click exists only for a shown exam and starts the column's mode with that exam's id |
| Dashboard.WeakSummary | components/Dashboard.tsx:232 | the joined units, or "—" when that text is empty |
| Dashboard.JoinEmpty | components/Dashboard.tsx:232 | the joined text is empty exactly for no units or one empty unit |
| Dashboard.WeakSummaryDash | components/Dashboard.tsx:232 | "—" appears for exactly those two lists; any other list shows its joined text, starting with the first unit |
| Dashboard.MetricTail | components/Dashboard.tsx:256 | a trend list shows its last six points, oldest first |
| Dashboard.MetricTailSlides | components/Dashboard.tsx:256 | adding a point to a full window drops exactly the oldest shown point |

## Left out

- Rendering is not modelled: JSX, styling, icons, `alert`, `console` and the interpolated message texts. An alert carries the values its text names.
- The interval timer is not modelled. `setInterval`/`clearInterval` become the `ticking` flag and an explicit `Tick`.
- A prop callback is not called. `onStartSession`/`onFinishSession` are logged as events, the chat service is a parameter `reply`, and `onToggleNotifications` is logged.
- Floating point is not modelled:
  - `assessAvg` and its `toFixed(1)` (components/TeacherDashboard.tsx:370);
  - `targetAssessAvg` (components/ParentDashboard.tsx:179);
  - exam scores (components/MockExam2Subjects.tsx:17).
  
  Minutes and percentages are integers. A single division of integers is correctly rounded in doubles, so `Math.round(a / b)` is exact rational rounding, halves up (components/TodayPlan.tsx:244, components/TeacherDashboard.tsx:369).
- Dashboard.PctWeek: computes `Math.round(100 · done / max(1, target))` exactly, while the source multiplies the double quotient by 100. The two differ at some half-way cases: done 23 and target 40 give 57 in the source (0.575 · 100 is 57.49999999999999) and 58 here.
- Dates and clocks are not modelled: `weekOf`, `Date.now` and `toLocaleString`. `TimeAgo` takes the current time as a parameter.
- Storage and JSON are abstracted. `localStorage` is a map from subject to a parsed list or an unparsable value. A parsed value that is not an array is not modelled. `navigator.clipboard` is the returned text of `CopyLast`.
- Unicode handling is simplified:
  - `toLowerCase` lowers A-Z only;
  - `normalize("NFD")` is a parameter of `Slugify`;
  - `localeCompare` on the `HH:mm` keys is code-point order.
- The knowledge base topics are a parameter: `SYLLABUS_TOPICS` and `labelOf` come from a module that is not part of this model.
- The handbook's `DATA` table content is not copied; the unit list is a parameter of `Search`.
- TodayPlan.SessionTimer.Start: React batches the state updates, so the pre-empting `stop(runningId, false)` is modelled only by its effect that survives: no finish report.
- The delay buttons (components/TodayPlan.tsx:357) only raise an alert; there is nothing to model.
- MockExam.TopicBuilder.constructor: the builder remounts whenever its tab is shown again, re-running the preset effect. The model covers one mount.
- Chatbot.ContextHits: the sort by score is left out, because every kept item scores 1 and the sort is stable.
- Chatbot.Chat.Send: the exchange is modelled as one atomic step. In the source `send` awaits the answer service, and neither the hint chips nor the subject buttons are disabled meanwhile, so a second send or a subject switch can interleave with it; those interleavings are not modelled.
- The loading flag and answer mode of the chat panel are not modelled, and neither is the `SUBJECTS[0] || "toan"` fallback, which never applies.
- components/GiaSuAI.tsx, App.tsx and components/MainDashboard.tsx are not part of this model. They hold a stand-in answer service, view routing and static cards.
- components/ThreeSubjects.tsx contributes only its subject enumeration.
