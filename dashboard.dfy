/** The student home dashboard: the weekly-goal percentage and its progress
    bar, the quick-exam columns, the weak-unit summary line and the trend
    lists. */
module Dashboard {
  import opened Wrappers
  import opened Arith
  import opened Text
  import opened Lists

  // ===================== Weekly goal =====================

  datatype SubjectDone = SubjectDone(subject: string, done: nat)

  /** Minutes aimed at and minutes done this week, with a chip per subject. */
  datatype WeeklyGoal = WeeklyGoal(minutesTarget: nat, minutesDone: nat, bySubject: seq<SubjectDone>)

  /** `pctWeek`: the minutes done as a whole percentage of the target,
      rounded to the nearest integer; a target of 0 is divided as if it were
      1, so the quotient is always defined. */
  function PctWeek(g: WeeklyGoal): (p: nat)
    ensures var t := Max(1, g.minutesTarget);
      2 * t * p <= 200 * g.minutesDone + t < 2 * t * p + 2 * t
  {
    RoundDiv(100 * g.minutesDone, Max(1, g.minutesTarget))
  }

  /** `ProgressBar`: the bar's width in percent, the value clamped to 0..100. */
  function BarWidth(value: int): (w: int)
    ensures 0 <= w <= 100
    ensures 0 <= value <= 100 ==> w == value
    ensures value < 0 ==> w == 0
    ensures value > 100 ==> w == 100
  {
    ClampPercent(value)
  }

  /** With no target set, every minute done counts as a whole percent. */
  lemma PctWeekNoTarget(g: WeeklyGoal)
    requires g.minutesTarget == 0
    ensures PctWeek(g) == 100 * g.minutesDone
  {
    RoundDivUnique(100 * g.minutesDone, 1, 100 * g.minutesDone);
  }

  /** Meeting the target exactly is 100 percent. */
  lemma PctWeekMet(g: WeeklyGoal)
    requires g.minutesTarget > 0 && g.minutesDone == g.minutesTarget
    ensures PctWeek(g) == 100
  {
    var t := g.minutesTarget;
    RoundDivBetween(100 * t, t, 100, 100);
  }

  /** Up to the target the percentage stays within 0..100, and the bar then
      shows it unchanged. */
  lemma PctWeekWithinTarget(g: WeeklyGoal)
    requires g.minutesDone <= g.minutesTarget
    ensures PctWeek(g) <= 100
    ensures BarWidth(PctWeek(g)) == PctWeek(g)
  {
    var t := Max(1, g.minutesTarget);
    assert 100 * g.minutesDone <= 100 * t;
    RoundDivBetween(100 * g.minutesDone, t, 0, 100);
  }

  /** Past the target the percentage is at least 100 and the bar is full,
      however far past it is. */
  lemma PctWeekPastTarget(g: WeeklyGoal)
    requires g.minutesDone > g.minutesTarget
    ensures PctWeek(g) >= 100
    ensures BarWidth(PctWeek(g)) == 100
  {
    var t := Max(1, g.minutesTarget);
    assert g.minutesDone >= t;
    RoundDivAtLeast(100 * g.minutesDone, t, 100);
  }

  // ===================== Quick exams =====================

  datatype ExamType = PresetExam | AiExam

  datatype QuickExam = QuickExam(id: string, title: string, kind: ExamType)

  /** The number of exams each quick-exam column lists. */
  const QuickExamCount: nat := 3

  /** Each column shows the first three exams given to it, in order. */
  function QuickColumn(exams: seq<QuickExam>): (shown: seq<QuickExam>)
    ensures |shown| == Min(QuickExamCount, |exams|)
    ensures shown == exams[..|shown|]
  {
    Take(exams, QuickExamCount)
  }

  /** Clicking an exam starts an assessment in that column's mode with the
      exam's id. */
  datatype AssessStart = AssessStart(mode: ExamType, examId: Option<string>)

  function StartFromColumn(mode: ExamType, exams: seq<QuickExam>, k: nat): (start: Option<AssessStart>)
    ensures start.Some? <==> k < Min(QuickExamCount, |exams|)
    ensures start.Some? ==> start.value == AssessStart(mode, Some(exams[k].id))
  {
    var shown := QuickColumn(exams);
    if k < |shown| then Some(AssessStart(mode, Some(shown[k].id))) else None
  }

  // ===================== Snapshot =====================

  /** The dash shown in place of an empty list. */
  const NoneShown: string := "—"

  /** The weak-unit line: the units joined by ", ", or the dash when that
      text is empty. */
  function WeakSummary(weakUnits: seq<string>): (line: string)
    ensures Join(weakUnits, ", ") != [] ==> line == Join(weakUnits, ", ")
    ensures Join(weakUnits, ", ") == [] ==> line == NoneShown
  {
    var joined := Join(weakUnits, ", ");
    if joined == [] then NoneShown else joined
  }

  /** The joined text is empty exactly for no units or a single empty one:
      two or more units always leave the separator behind. */
  lemma JoinEmpty(parts: seq<string>)
    ensures Join(parts, ", ") == [] <==> parts == [] || parts == [[]]
  {
    if |parts| >= 2 {
      assert |Join(parts, ", ")| >= 2;
    }
  }

  /** So the dash stands in for exactly those two lists, and any other list
      is shown as its joined text, which starts with the first unit. */
  lemma WeakSummaryDash(weakUnits: seq<string>)
    ensures weakUnits == [] || weakUnits == [[]] ==> WeakSummary(weakUnits) == NoneShown
    ensures !(weakUnits == [] || weakUnits == [[]]) ==>
      WeakSummary(weakUnits) == Join(weakUnits, ", ") && weakUnits[0] <= WeakSummary(weakUnits)
  {
    JoinEmpty(weakUnits);
  }

  // ===================== Trends =====================

  /** One point of a trend chart; `caption` is the chart label (`label` is a Dafny keyword). */
  datatype TrendPoint = TrendPoint(caption: string, value: int)

  /** The number of trend points a metric list shows. */
  const TrendWindow: nat := 6

  /** `MetricList` shows the last six points, oldest first. */
  function MetricTail(points: seq<TrendPoint>): (shown: seq<TrendPoint>)
    ensures |shown| == Min(TrendWindow, |points|)
    ensures shown == points[|points| - |shown|..]
  {
    TakeLast(points, TrendWindow)
  }

  /** Appending a point to a full window drops exactly the oldest shown
      point. */
  lemma MetricTailSlides(points: seq<TrendPoint>, p: TrendPoint)
    requires |points| >= TrendWindow
    ensures MetricTail(points + [p]) == MetricTail(points)[1..] + [p]
  {
    var n := |points|;
    var a := MetricTail(points + [p]);
    var b := MetricTail(points)[1..] + [p];
    assert |a| == TrendWindow == |b|;
    forall i | 0 <= i < TrendWindow
      ensures a[i] == b[i]
    {
      assert a[i] == (points + [p])[n + 1 - TrendWindow + i];
    }
  }
}
