/** "Today's Plan": the planned study sessions of one learner for one day,
    the single-flight session timer with its focus/break phase, the
    derived display values (remaining time, ordering, totals), the quick-add
    form and the in-memory session store of the demo page. */
module TodayPlan {
  import opened Wrappers
  import opened Arith
  import opened Text
  import opened Lists
  import opened Subjects

  // ===================== Session record =====================

  datatype SessionMode = Tutor | Assess | Handbook

  /** 1 = high, 2 = medium, 3 = low. */
  type Priority = p: int | 1 <= p <= 3 witness 1

  const MediumPriority: Priority := 2

  /** The planned durations the session type admits. */
  type PlannedMinutes = m: int | m == 15 || m == 25 || m == 30 || m == 45 || m == 60 witness 15

  datatype Status = Idle | Running | Done

  /** Progress recorded on a session: hints used and minutes studied. */
  datatype Progress = Progress(usedHints: Option<nat>, elapsed: Option<nat>)

  datatype PlanSession = PlanSession(
    id: string,
    subject: Subject,
    unitId: string,
    unitTitle: string,
    mode: SessionMode,
    plannedMinutes: PlannedMinutes,
    startAt: Option<string>,
    notes: Option<string>,
    priority: Priority,
    status: Option<Status>,
    progress: Option<Progress>)

  /** `s.progress?.elapsed || 0`: minutes already studied, 0 when unrecorded. */
  function ElapsedMinutes(s: PlanSession): nat {
    match s.progress
    case Some(Progress(_, Some(e))) => e
    case _ => 0
  }

  /** `s.progress?.usedHints`: the hint count, when recorded. */
  function UsedHints(s: PlanSession): Option<nat> {
    match s.progress
    case Some(p) => p.usedHints
    case None => None
  }

  predicate IsDone(s: PlanSession) {
    s.status == Some(Done)
  }

  // ===================== Remaining time of a row =====================

  /** `Math.max(0, plannedMinutes*60 - used)` where `used` is the live
      seconds counter of the active row, or the recorded minutes (in
      seconds) of any other row. */
  function RemainingSeconds(s: PlanSession, active: bool, elapsedSeconds: nat): (r: nat)
    ensures r <= s.plannedMinutes * 60
    ensures var used := if active then elapsedSeconds else ElapsedMinutes(s) * 60;
      (r == 0 <==> used >= s.plannedMinutes * 60) &&
      (r > 0 ==> r + used == s.plannedMinutes * 60)
  {
    var used := if active then elapsedSeconds else ElapsedMinutes(s) * 60;
    if s.plannedMinutes * 60 - used > 0 then s.plannedMinutes * 60 - used else 0
  }

  /** The `mm:ss` shown for a remaining time. */
  datatype Clock = Clock(mm: nat, ss: nat)

  function Countdown(remaining: nat): (c: Clock)
    ensures c.ss < 60 && 60 * c.mm + c.ss == remaining
  {
    Clock(remaining / 60, remaining % 60)
  }

  /** A row's countdown never shows more minutes than were planned, and
      shows 00:00 exactly when the planned time is used up. */
  lemma CountdownBounds(s: PlanSession, active: bool, elapsedSeconds: nat)
    ensures Countdown(RemainingSeconds(s, active, elapsedSeconds)).mm <= s.plannedMinutes
    ensures var used := if active then elapsedSeconds else ElapsedMinutes(s) * 60;
      Countdown(RemainingSeconds(s, active, elapsedSeconds)) == Clock(0, 0) <==> used >= s.plannedMinutes * 60
  {
    var r := RemainingSeconds(s, active, elapsedSeconds);
    var c := Countdown(r);
    assert 60 * c.mm < 60 * (s.plannedMinutes + 1);
    MulCancel(60, c.mm, s.plannedMinutes + 1);
  }

  // ===================== Ordering of the displayed list =====================

  /** `a.localeCompare(b) < 0` for the `HH:mm` keys, taken as code-point
      lexicographic order. */
  predicate StrLess(a: string, b: string)
    decreases |a|
  {
    if a == [] then b != []
    else if b == [] then false
    else if a[0] < b[0] then true
    else a[0] == b[0] && StrLess(a[1..], b[1..])
  }

  lemma {:induction false} StrLessIrreflexive(a: string)
    ensures !StrLess(a, a)
    decreases |a|
  {
    if a != [] {
      StrLessIrreflexive(a[1..]);
    }
  }

  lemma {:induction false} StrLessTransitive(a: string, b: string, c: string)
    requires StrLess(a, b) && StrLess(b, c)
    ensures StrLess(a, c)
    decreases |a|
  {
    if a != [] && b != [] && c != [] && a[0] == b[0] && b[0] == c[0] {
      StrLessTransitive(a[1..], b[1..], c[1..]);
    }
  }

  lemma {:induction false} StrLessTotal(a: string, b: string)
    ensures a == b || StrLess(a, b) || StrLess(b, a)
    decreases |a|
  {
    if a != [] && b != [] && a[0] == b[0] {
      StrLessTotal(a[1..], b[1..]);
      if a[1..] == b[1..] {
        assert a == [a[0]] + a[1..] && b == [b[0]] + b[1..];
      }
    }
  }

  /** `s.startAt || "99:99"`: unscheduled sessions sort after every time of
      day. */
  function SortKey(s: PlanSession): string {
    match s.startAt
    case Some(t) => if t == [] then "99:99" else t
    case None => "99:99"
  }

  /** The comparator of the list: earlier start first, then higher priority
      (smaller number) first. */
  predicate Before(a: PlanSession, b: PlanSession) {
    StrLess(SortKey(a), SortKey(b)) || (SortKey(a) == SortKey(b) && a.priority < b.priority)
  }

  /** "Not before" is transitive: Before is a strict weak order, as the
      sort requires of its comparator. */
  lemma NotBeforeTransitive(a: PlanSession, b: PlanSession, c: PlanSession)
    requires !Before(a, b) && !Before(b, c)
    ensures !Before(a, c)
  {
    StrLessTotal(SortKey(a), SortKey(b));
    StrLessTotal(SortKey(b), SortKey(c));
    StrLessIrreflexive(SortKey(a));
    if StrLess(SortKey(a), SortKey(c)) {
      if StrLess(SortKey(b), SortKey(a)) {
        StrLessTransitive(SortKey(b), SortKey(a), SortKey(c));
        StrLessIrreflexive(SortKey(b));
        if StrLess(SortKey(c), SortKey(b)) {
          StrLessTransitive(SortKey(c), SortKey(b), SortKey(c));
          StrLessIrreflexive(SortKey(c));
        }
      }
    }
  }

  lemma BeforeAsymmetric(a: PlanSession, b: PlanSession)
    requires Before(a, b)
    ensures !Before(b, a)
  {
    if StrLess(SortKey(b), SortKey(a)) {
      StrLessTransitive(SortKey(a), SortKey(b), SortKey(a));
      StrLessIrreflexive(SortKey(a));
    }
    StrLessIrreflexive(SortKey(a));
  }

  /** A session with a start time whose first digit is below 9, as every
      `HH:mm` time of day has, comes before an unscheduled one. */
  lemma UnscheduledLast(a: PlanSession, b: PlanSession)
    requires a.startAt.Some? && a.startAt.value != [] && a.startAt.value[0] < '9'
    requires b.startAt.None? || b.startAt == Some([])
    ensures Before(a, b) && !Before(b, a)
  {
    assert SortKey(b) == "99:99";
    assert StrLess(SortKey(a), SortKey(b));
    BeforeAsymmetric(a, b);
  }

  /** No session is listed after one that should come after it. */
  predicate Sorted(s: seq<PlanSession>) {
    forall i, j :: 0 <= i < j < |s| ==> !Before(s[j], s[i])
  }

  /** Inserts x in front of the first element that x is not after; placing
      x ahead of its equals keeps the sort stable. */
  function Insert(x: PlanSession, t: seq<PlanSession>): (r: seq<PlanSession>)
    requires Sorted(t)
    ensures Sorted(r)
    ensures multiset(r) == multiset(t) + multiset{x}
    ensures |r| == |t| + 1
    ensures forall y :: y in r <==> y == x || y in t
  {
    if t == [] || !Before(t[0], x) then
      FrontNotAfter(x, t);
      ConsSorted(x, t);
      [x] + t
    else
      var rest := Insert(x, t[1..]);
      RestNotBefore(x, t, rest);
      ConsSorted(t[0], rest);
      assert t == [t[0]] + t[1..];
      [t[0]] + rest
  }

  /** A sorted list stays sorted under a head that no element should precede. */
  lemma ConsSorted(h: PlanSession, t: seq<PlanSession>)
    requires Sorted(t)
    requires forall j :: 0 <= j < |t| ==> !Before(t[j], h)
    ensures Sorted([h] + t)
  {
    var r := [h] + t;
    forall i, j | 0 <= i < j < |r| ensures !Before(r[j], r[i]) {
      assert r[j] == t[j - 1];
      if i > 0 {
        assert r[i] == t[i - 1];
      }
    }
  }

  /** When x is not after the head of a sorted list, it is after none of it. */
  lemma FrontNotAfter(x: PlanSession, t: seq<PlanSession>)
    requires Sorted(t)
    requires t == [] || !Before(t[0], x)
    ensures forall j :: 0 <= j < |t| ==> !Before(t[j], x)
  {
    forall j | 0 <= j < |t| ensures !Before(t[j], x) {
      if j > 0 {
        NotBeforeTransitive(t[j], t[0], x);
      }
    }
  }

  /** When x goes after the head, the head precedes everything inserted
      behind it. */
  lemma RestNotBefore(x: PlanSession, t: seq<PlanSession>, rest: seq<PlanSession>)
    requires Sorted(t) && t != [] && Before(t[0], x)
    requires forall y :: y in rest <==> y == x || y in t[1..]
    ensures forall j :: 0 <= j < |rest| ==> !Before(rest[j], t[0])
  {
    forall j | 0 <= j < |rest| ensures !Before(rest[j], t[0]) {
      var y := rest[j];
      assert y in rest;
      if y == x {
        BeforeAsymmetric(t[0], x);
      } else {
        var k :| 0 <= k < |t[1..]| && t[1..][k] == y;
        assert t[k + 1] == y;
      }
    }
  }

  /** The stable sort of the source's `useMemo`. */
  function SortSessions(s: seq<PlanSession>): (r: seq<PlanSession>)
    ensures Sorted(r)
    ensures multiset(r) == multiset(s)
    ensures |r| == |s|
  {
    if s == [] then []
    else
      assert s == [s[0]] + s[1..];
      Insert(s[0], SortSessions(s[1..]))
  }

  /** Sessions the comparator cannot tell apart from e: same key and same
      priority. */
  function TiedWith(e: PlanSession): PlanSession -> bool {
    (a: PlanSession) => !Before(a, e) && !Before(e, a)
  }

  /** Inserting into a sorted list keeps the new session ahead of the
      sessions it is tied with: every class of tied sessions is listed as in
      x followed by t. */
  lemma {:induction false} InsertStable(x: PlanSession, t: seq<PlanSession>, e: PlanSession)
    requires Sorted(t)
    ensures Filter(Insert(x, t), TiedWith(e)) == Filter([x] + t, TiedWith(e))
    decreases |t|
  {
    var p := TiedWith(e);
    if t != [] && Before(t[0], x) {
      var t1 := t[1..];
      assert Sorted(t1) by {
        forall i, j | 0 <= i < j < |t1| ensures !Before(t1[j], t1[i]) {
          assert t1[i] == t[i + 1] && t1[j] == t[j + 1];
        }
      }
      InsertStable(x, t1, e);
      assert Insert(x, t) == [t[0]] + Insert(x, t1);
      assert ([t[0]] + Insert(x, t1))[1..] == Insert(x, t1);
      assert ([x] + t)[1..] == t && t == [t[0]] + t1 && t[1..] == t1;
      assert ([x] + t1)[1..] == t1;
      if p(t[0]) && p(x) {
        NotBeforeTransitive(t[0], e, x);
        assert false;
      }
    }
  }

  /** The sort is stable: the sessions tied with any e (same start key and
      priority) keep their input order. */
  lemma {:induction false} SortStable(s: seq<PlanSession>, e: PlanSession)
    ensures Filter(SortSessions(s), TiedWith(e)) == Filter(s, TiedWith(e))
    decreases |s|
  {
    if s != [] {
      SortStable(s[1..], e);
      InsertStable(s[0], SortSessions(s[1..]), e);
      assert ([s[0]] + SortSessions(s[1..]))[1..] == SortSessions(s[1..]);
    }
  }

  /** The rows shown for the selected subject: the full list sorted, then
      filtered by subject. */
  function DisplayedSessions(all: seq<PlanSession>, subject: Subject): seq<PlanSession> {
    Filter(SortSessions(all), OfSubject(subject))
  }

  /** `s.subject === subject` as a filter predicate. */
  function OfSubject(subject: Subject): PlanSession -> bool {
    (s: PlanSession) => s.subject == subject
  }

  /** `x.id !== id` as a filter predicate. */
  function OtherId(id: string): PlanSession -> bool {
    (x: PlanSession) => x.id != id
  }

  lemma {:induction false} FilterKeepsSorted(s: seq<PlanSession>, p: PlanSession -> bool)
    requires Sorted(s)
    ensures Sorted(Filter(s, p))
    decreases |s|
  {
    if s != [] {
      FilterKeepsSorted(s[1..], p);
      var rest := Filter(s[1..], p);
      forall j | 0 <= j < |rest| ensures !Before(rest[j], s[0]) {
        var k :| 0 <= k < |s[1..]| && s[1..][k] == rest[j];
        assert s[k + 1] == rest[j];
      }
    }
  }

  lemma {:induction false} FilterMultiplicity<T>(s: seq<T>, p: T -> bool, x: T)
    ensures multiset(Filter(s, p))[x] == if p(x) then multiset(s)[x] else 0
    decreases |s|
  {
    if s != [] {
      FilterMultiplicity(s[1..], p, x);
      assert s == [s[0]] + s[1..];
    }
  }

  /** The displayed list holds exactly the sessions of the selected subject,
      each as often as in the full list, in sorted order. */
  lemma DisplayedIsSortedSubjectSlice(all: seq<PlanSession>, subject: Subject)
    ensures Sorted(DisplayedSessions(all, subject))
    ensures multiset(DisplayedSessions(all, subject)) == multiset(Filter(all, OfSubject(subject)))
    ensures forall i :: 0 <= i < |DisplayedSessions(all, subject)| ==> DisplayedSessions(all, subject)[i].subject == subject
  {
    var p := OfSubject(subject);
    FilterKeepsSorted(SortSessions(all), p);
    forall x ensures multiset(Filter(SortSessions(all), p))[x] == multiset(Filter(all, p))[x] {
      FilterMultiplicity(SortSessions(all), p, x);
      FilterMultiplicity(all, p, x);
    }
  }

  // ===================== Totals =====================

  function SumPlanned(s: seq<PlanSession>): int {
    if s == [] then 0 else s[0].plannedMinutes + SumPlanned(s[1..])
  }

  /** `sumElapsedMinutes`: recorded minutes, a missing record counting 0. */
  function SumElapsed(s: seq<PlanSession>): nat {
    if s == [] then 0 else ElapsedMinutes(s[0]) + SumElapsed(s[1..])
  }

  datatype Totals = Totals(planned: int, doneCount: nat, count: nat)

  /** `totalsAll`: scheduled minutes, completed sessions and all sessions. */
  function TotalsAll(s: seq<PlanSession>): (t: Totals)
    ensures t.planned == SumPlanned(s) && t.doneCount == Count(s, IsDone)
    ensures t.doneCount <= t.count == |s|
    ensures 15 * |s| <= t.planned <= 60 * |s|
  {
    PlannedBounds(s);
    Totals(SumPlanned(s), Count(s, IsDone), |s|)
  }

  /** The planned total of two lists together is the sum of their totals. */
  lemma {:induction false} SumPlannedAppend(a: seq<PlanSession>, b: seq<PlanSession>)
    ensures SumPlanned(a + b) == SumPlanned(a) + SumPlanned(b)
    decreases |a|
  {
    if a == [] {
      assert a + b == b;
    } else {
      assert (a + b)[1..] == a[1..] + b;
      SumPlannedAppend(a[1..], b);
    }
  }

  lemma {:induction false} PlannedBounds(s: seq<PlanSession>)
    ensures 15 * |s| <= SumPlanned(s) <= 60 * |s|
  {
    if s != [] {
      PlannedBounds(s[1..]);
    }
  }

  // ===================== Store operations of the demo page =====================

  /** `onFinishSession`: the session becomes done and the reported minutes
      are added to its recorded minutes; the hint count is kept. */
  function FinishOne(x: PlanSession, minutes: nat): (y: PlanSession)
    ensures IsDone(y) && ElapsedMinutes(y) == ElapsedMinutes(x) + minutes
    ensures UsedHints(y) == UsedHints(x)
    ensures y.(status := x.status, progress := x.progress) == x
  {
    var hints := match x.progress case Some(p) => p.usedHints case None => None;
    x.(status := Some(Done), progress := Some(Progress(hints, Some(ElapsedMinutes(x) + minutes))))
  }

  function FinishIn(ss: seq<PlanSession>, id: string, minutes: nat): (r: seq<PlanSession>)
    ensures |r| == |ss|
    ensures forall i :: 0 <= i < |ss| ==> r[i] == if ss[i].id == id then FinishOne(ss[i], minutes) else ss[i]
  {
    if ss == [] then []
    else [if ss[0].id == id then FinishOne(ss[0], minutes) else ss[0]] + FinishIn(ss[1..], id, minutes)
  }

  function CountId(ss: seq<PlanSession>, id: string): nat {
    if ss == [] then 0 else (if ss[0].id == id then 1 else 0) + CountId(ss[1..], id)
  }

  /** Finishing adds the reported minutes once per session carrying the id
      to the day's studied minutes. */
  lemma {:induction false} FinishAddsMinutes(ss: seq<PlanSession>, id: string, minutes: nat)
    ensures SumElapsed(FinishIn(ss, id, minutes)) == SumElapsed(ss) + minutes * CountId(ss, id)
    decreases |ss|
  {
    if ss != [] {
      var t := ss[1..];
      var head := if ss[0].id == id then FinishOne(ss[0], minutes) else ss[0];
      FinishAddsMinutes(t, id, minutes);
      assert FinishIn(ss, id, minutes) == [head] + FinishIn(t, id, minutes);
      SumElapsedCons(head, FinishIn(t, id, minutes));
      if ss[0].id == id {
        assert minutes * (CountId(t, id) + 1) == minutes * CountId(t, id) + minutes;
      }
    }
  }

  lemma SumElapsedCons(a: PlanSession, b: seq<PlanSession>)
    ensures SumElapsed([a] + b) == ElapsedMinutes(a) + SumElapsed(b)
  {
    assert ([a] + b)[1..] == b;
  }

  /** A `Partial<PlanSession>`: None leaves a field alone. For the optional
      fields Some(None) is a key present with the value `undefined`. */
  datatype Patch = Patch(
    id: Option<string>,
    subject: Option<Subject>,
    unitId: Option<string>,
    unitTitle: Option<string>,
    mode: Option<SessionMode>,
    plannedMinutes: Option<PlannedMinutes>,
    startAt: Option<Option<string>>,
    notes: Option<Option<string>>,
    priority: Option<Priority>,
    status: Option<Option<Status>>,
    progress: Option<Option<Progress>>)

  /** `{ ...x, ...patch }`: every field the patch carries overrides x's. */
  function ApplyPatch(x: PlanSession, p: Patch): PlanSession {
    PlanSession(
      p.id.GetOr(x.id), p.subject.GetOr(x.subject), p.unitId.GetOr(x.unitId),
      p.unitTitle.GetOr(x.unitTitle), p.mode.GetOr(x.mode), p.plannedMinutes.GetOr(x.plannedMinutes),
      p.startAt.GetOr(x.startAt), p.notes.GetOr(x.notes), p.priority.GetOr(x.priority),
      p.status.GetOr(x.status), p.progress.GetOr(x.progress))
  }

  /** A patch replaces the fields it carries and keeps all others, and an
      empty patch changes nothing. */
  lemma PatchFields(x: PlanSession, p: Patch)
    ensures p.notes.Some? ==> ApplyPatch(x, p).notes == p.notes.value
    ensures p.notes.None? ==> ApplyPatch(x, p).notes == x.notes
    ensures p.id.None? ==> ApplyPatch(x, p).id == x.id
    ensures p.status.None? && p.progress.None? ==>
      ApplyPatch(x, p).status == x.status && ApplyPatch(x, p).progress == x.progress
    ensures p == Patch(None, None, None, None, None, None, None, None, None, None, None) ==> ApplyPatch(x, p) == x
  {
  }

  function UpdateIn(ss: seq<PlanSession>, id: string, p: Patch): (r: seq<PlanSession>)
    ensures |r| == |ss|
    ensures forall i :: 0 <= i < |ss| ==> r[i] == if ss[i].id == id then ApplyPatch(ss[i], p) else ss[i]
  {
    if ss == [] then []
    else [if ss[0].id == id then ApplyPatch(ss[0], p) else ss[0]] + UpdateIn(ss[1..], id, p)
  }

  /** Applying the same update twice is applying it once, as long as the
      patch does not move the session to another id. */
  lemma UpdateIdempotent(ss: seq<PlanSession>, id: string, p: Patch)
    requires p.id.None? || p.id == Some(id)
    ensures UpdateIn(UpdateIn(ss, id, p), id, p) == UpdateIn(ss, id, p)
  {
    var once := UpdateIn(ss, id, p);
    var twice := UpdateIn(once, id, p);
    forall i | 0 <= i < |ss| ensures twice[i] == once[i] {
      if ss[i].id == id {
        assert once[i].id == id;
      } else {
        assert once[i] == ss[i];
      }
    }
  }

  /** `ss.filter(x => x.id !== id)`. */
  function DeleteIn(ss: seq<PlanSession>, id: string): (r: seq<PlanSession>)
    ensures forall i :: 0 <= i < |r| ==> r[i].id != id
    ensures forall i :: 0 <= i < |ss| && ss[i].id != id ==> ss[i] in r
  {
    Filter(ss, OtherId(id))
  }

  /** Deleting keeps the other sessions in their order, and deleting an id
      that is not there changes nothing. */
  lemma DeleteKeepsOthers(ss: seq<PlanSession>, id: string)
    ensures IsSubsequence(DeleteIn(ss, id), ss)
    ensures |DeleteIn(ss, id)| == |ss| - CountId(ss, id)
    ensures CountId(ss, id) == 0 ==> DeleteIn(ss, id) == ss
  {
    FilterIsSubsequence(ss, OtherId(id));
    DeleteLength(ss, id);
    if CountId(ss, id) == 0 {
      NoIdMeansAbsent(ss, id);
      FilterAll(ss, OtherId(id));
    }
  }

  lemma {:induction false} DeleteLength(ss: seq<PlanSession>, id: string)
    ensures |Filter(ss, OtherId(id))| == |ss| - CountId(ss, id)
    decreases |ss|
  {
    if ss != [] {
      DeleteLength(ss[1..], id);
    }
  }

  lemma {:induction false} NoIdMeansAbsent(ss: seq<PlanSession>, id: string)
    requires CountId(ss, id) == 0
    ensures forall i :: 0 <= i < |ss| ==> ss[i].id != id
    decreases |ss|
  {
    if ss != [] {
      NoIdMeansAbsent(ss[1..], id);
      forall i | 1 <= i < |ss| ensures ss[i].id != id {
        assert ss[1..][i - 1] == ss[i];
      }
    }
  }

  // ===================== Quick add =====================

  /** The payload the quick-add form hands to `onQuickAdd`. */
  datatype Draft = Draft(subject: Subject, unitId: string, unitTitle: string, mode: SessionMode,
                         plannedMinutes: PlannedMinutes, priority: Priority)

  /** `handleAdd`: a blank title is refused; otherwise the trimmed title,
      the trimmed unit id (or the random one when that is blank) and
      priority 2. */
  function MakeDraft(title: string, subject: Subject, mode: SessionMode, minutes: PlannedMinutes,
                     unitIdInput: string, randomUnitId: string): (r: Option<Draft>)
    ensures r.None? <==> IsBlank(title)
    ensures r.Some? ==> r.value.unitTitle != [] && r.value.unitTitle == Trim(title)
    ensures r.Some? ==>
      r.value.priority == MediumPriority && r.value.subject == subject && r.value.mode == mode && r.value.plannedMinutes == minutes
    ensures r.Some? ==> r.value.unitId == if IsBlank(unitIdInput) then randomUnitId else Trim(unitIdInput)
  {
    if IsBlank(title) then None
    else
      var uid := Trim(unitIdInput);
      Some(Draft(subject, if uid == [] then randomUnitId else uid, Trim(title), mode, minutes, MediumPriority))
  }

  /** `{ id, ...draft }`: a new idle session with no start time, notes,
      status or progress. */
  function FromDraft(id: string, d: Draft): (s: PlanSession)
    ensures s.id == id && s.unitTitle == d.unitTitle && s.priority == d.priority
    ensures s.subject == d.subject && s.unitId == d.unitId && s.mode == d.mode
    ensures s.plannedMinutes == d.plannedMinutes && s.startAt.None? && s.notes.None?
    ensures s.status.None? && s.progress.None? && ElapsedMinutes(s) == 0
  {
    PlanSession(id, d.subject, d.unitId, d.unitTitle, d.mode, d.plannedMinutes, None, None, d.priority, None, None)
  }

  /** The quick-add form: its input fields are state that `handleAdd`
      clears after a successful add. */
  class QuickAddForm {
    var title: string
    var subject: Subject
    var mode: SessionMode
    var minutes: PlannedMinutes
    var unitId: string

    constructor (defaultSubject: Subject)
      ensures title == [] && unitId == [] && subject == defaultSubject
      ensures mode == Tutor && minutes == 25
    {
      title, subject, mode, minutes, unitId := [], defaultSubject, Tutor, 25, [];
    }

    /** The effect that follows the page's subject filter. */
    method SyncSubject(defaultSubject: Subject)
      modifies this
      ensures subject == defaultSubject
      ensures title == old(title) && unitId == old(unitId) && mode == old(mode) && minutes == old(minutes)
    {
      subject := defaultSubject;
    }

    method HandleAdd(randomUnitId: string) returns (draft: Option<Draft>)
      modifies this
      ensures draft == MakeDraft(old(title), old(subject), old(mode), old(minutes), old(unitId), randomUnitId)
      ensures draft.Some? ==> title == [] && unitId == []
      ensures draft.None? ==> title == old(title) && unitId == old(unitId)
      ensures subject == old(subject) && mode == old(mode) && minutes == old(minutes)
    {
      if IsBlank(title) {
        return None;
      }
      draft := MakeDraft(title, subject, mode, minutes, unitId, randomUnitId);
      title := [];
      unitId := [];
    }
  }

  /** The session list of the demo page, reassigned by its handlers. */
  class PlanStore {
    var sessions: seq<PlanSession>

    constructor (initial: seq<PlanSession>)
      ensures sessions == initial
    {
      sessions := initial;
    }

    method OnFinish(id: string, minutes: nat)
      modifies this
      ensures sessions == FinishIn(old(sessions), id, minutes)
      ensures SumElapsed(sessions) == SumElapsed(old(sessions)) + minutes * CountId(old(sessions), id)
    {
      FinishAddsMinutes(sessions, id, minutes);
      sessions := FinishIn(sessions, id, minutes);
    }

    method OnUpdate(id: string, patch: Patch)
      modifies this
      ensures sessions == UpdateIn(old(sessions), id, patch)
    {
      sessions := UpdateIn(sessions, id, patch);
    }

    method OnDelete(id: string)
      modifies this
      ensures sessions == DeleteIn(old(sessions), id)
      ensures IsSubsequence(sessions, old(sessions))
    {
      DeleteKeepsOthers(sessions, id);
      sessions := DeleteIn(sessions, id);
    }

    /** `onQuickAdd`: the new session goes to the front of the list. */
    method OnQuickAdd(newId: string, d: Draft)
      modifies this
      ensures sessions == [FromDraft(newId, d)] + old(sessions)
      ensures TotalsAll(sessions).planned == TotalsAll(old(sessions)).planned + d.plannedMinutes
      ensures TotalsAll(sessions).count == TotalsAll(old(sessions)).count + 1
    {
      SumPlannedAppend([FromDraft(newId, d)], sessions);
      sessions := [FromDraft(newId, d)] + sessions;
    }
  }

  // ===================== Session timer =====================

  datatype Phase = Focus | Break

  /** The calls the timer makes to `onStartSession` and `onFinishSession`. */
  datatype TimerEvent = Started(id: string) | Finished(id: string, minutes: nat)

  /** The timer state of the plan page: the one running session id, the
      seconds counter, the phase and whether the one-second interval is
      armed. */
  class SessionTimer {
    var runningId: Option<string>
    var elapsed: nat
    var phase: Phase
    var ticking: bool
    ghost var events: seq<TimerEvent>

    constructor ()
      ensures runningId == None && elapsed == 0 && phase == Focus && !ticking && events == []
    {
      runningId, elapsed, phase, ticking := None, 0, Focus, false;
      events := [];
    }

    /** `active={runningId===s.id}`: at most one row is active, since there
        is one running id. */
    predicate IsActive(id: string)
      reads this
    {
      runningId == Some(id)
    }

    /** `elapsedSeconds={runningId===s.id ? elapsed : 0}`. */
    function ElapsedFor(id: string): (e: nat)
      reads this
      ensures IsActive(id) ==> e == elapsed
      ensures !IsActive(id) ==> e == 0
    {
      if IsActive(id) then elapsed else 0
    }

    /** One firing of the interval: `setElapsed(t => t + 1)`. */
    method Tick()
      modifies this
      ensures elapsed == if old(ticking) then old(elapsed) + 1 else old(elapsed)
      ensures runningId == old(runningId) && phase == old(phase) && ticking == old(ticking)
      ensures events == old(events)
    {
      if ticking {
        elapsed := elapsed + 1;
      }
    }

    /** Starting a session pre-empts the running one without reporting it,
        then runs the new one from zero in the focus phase. */
    method Start(id: string)
      modifies this
      ensures runningId == Some(id) && phase == Focus && elapsed == 0 && ticking
      ensures events == old(events) + [Started(id)]
    {
      // `if (runningId && runningId !== id)`: the empty id is falsy
      if runningId.Some? && runningId.value != [] && runningId.value != id {
        var _ := Stop(runningId.value, false);
      }
      runningId := Some(id);
      phase := Focus;
      elapsed := 0;
      events := events + [Started(id)];
      ticking := true;
    }

    /** Disarms the interval; the counter freezes. */
    method Pause()
      modifies this
      ensures !ticking
      ensures runningId == old(runningId) && elapsed == old(elapsed) && phase == old(phase)
      ensures events == old(events)
    {
      ticking := false;
    }

    /** Re-arms the interval only when it is not armed already. */
    method Resume()
      modifies this
      ensures ticking
      ensures runningId == old(runningId) && elapsed == old(elapsed) && phase == old(phase)
      ensures events == old(events)
    {
      if !ticking {
        ticking := true;
      }
    }

    /** Ends the session: disarms, clears the running id and the counter,
        and reports `Math.round(elapsed/60)` minutes only when completed. */
    method Stop(id: string, completed: bool) returns (finish: Option<TimerEvent>)
      modifies this
      ensures runningId == None && !ticking && elapsed == 0 && phase == old(phase)
      ensures finish == if completed then Some(Finished(id, RoundMinutes(old(elapsed)))) else None
      ensures events == old(events) + if completed then [finish.value] else []
    {
      ticking := false;
      runningId := None;
      if completed {
        finish := Some(Finished(id, RoundMinutes(elapsed)));
        events := events + [finish.value];
      } else {
        finish := None;
      }
      elapsed := 0;
    }

    /** Flips focus and break and restarts the counter; the running id and
        the interval are untouched. */
    method TogglePhase()
      modifies this
      ensures phase == if old(phase) == Focus then Break else Focus
      ensures elapsed == 0 && runningId == old(runningId) && ticking == old(ticking)
      ensures events == old(events)
    {
      phase := if phase == Focus then Break else Focus;
      elapsed := 0;
    }
  }

  /** The stop button of a row wired to the demo store: the finish report,
      if any, is recorded on the session. */
  method StopAndRecord(timer: SessionTimer, store: PlanStore, id: string, completed: bool)
    modifies timer, store
    ensures timer.runningId == None && !timer.ticking && timer.elapsed == 0 && timer.phase == old(timer.phase)
    ensures timer.events == old(timer.events) + if completed then [Finished(id, RoundMinutes(old(timer.elapsed)))] else []
    ensures store.sessions == if completed then FinishIn(old(store.sessions), id, RoundMinutes(old(timer.elapsed)))
                              else old(store.sessions)
  {
    var finish := timer.Stop(id, completed);
    if finish.Some? {
      store.OnFinish(finish.value.id, finish.value.minutes);
    }
  }
}
