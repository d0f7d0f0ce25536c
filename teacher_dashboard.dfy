/** The teacher portal: the class/name filter over the weekly student rows,
    the checkbox selection, the per-student alert rules and the alert panel,
    and the weekly class roll-up of the demo page. */
module TeacherDashboard {
  import opened Wrappers
  import opened Arith
  import opened Text
  import opened Lists
  import opened Subjects

  datatype Student = Student(id: string, name: string, className: string)

  /** One subject's weekly numbers; the fractional assessment average is not
      part of this model. */
  datatype SubjectStat = SubjectStat(subject: Subject, masteryPct: int, timeMinutes: nat, hints: nat)

  datatype RiskLevel = Ok | Warn | Crit

  datatype StudentRow = StudentRow(
    student: Student,
    adherencePct: nat,
    studyMinutes: nat,
    riskLevel: RiskLevel,
    weakestUnits: seq<UnitRef>,
    subjects: seq<SubjectStat>)

  // ===================== Alert rules =====================

  datatype AlertLevel = AlertWarn | AlertCrit

  /** What an alert's message reports; the message text itself is built
      from these values and the student's name. */
  datatype AlertReason =
    | LowAdherence(pct: nat)
    | HeavyHints(subject: Subject, hints: nat)
    | ReviewUnit

  datatype Alert = Alert(level: AlertLevel, reason: AlertReason, unit: Option<UnitRef>, studentId: string)

  /** A subject counts as hint-heavy from 6 hints on. */
  const HeavyHintThreshold: nat := 6

  /** A plan adherence below 60% is critical. */
  const AdherenceFloor: nat := 60

  function IsHeavy(s: SubjectStat): bool {
    s.hints >= HeavyHintThreshold
  }

  /** The alerts of one row, in the order the rules push them. */
  function Alerts(r: StudentRow): seq<Alert> {
    var id := r.student.id;
    (if r.adherencePct < AdherenceFloor then [Alert(AlertCrit, LowAdherence(r.adherencePct), None, id)] else [])
    + (match FindIndex(r.subjects, IsHeavy)
       case Some(k) => [Alert(AlertWarn, HeavyHints(r.subjects[k].subject, r.subjects[k].hints), None, id)]
       case None => [])
    + (if |r.weakestUnits| > 0 then [Alert(AlertWarn, ReviewUnit, Some(r.weakestUnits[0]), id)] else [])
  }

  /** `riskyRows`: the list is built by successive pushes. */
  method RiskyRows(r: StudentRow) returns (list: seq<Alert>)
    ensures list == Alerts(r)
    ensures |list| <= 3
  {
    list := [];
    if r.adherencePct < AdherenceFloor {
      list := list + [Alert(AlertCrit, LowAdherence(r.adherencePct), None, r.student.id)];
    }
    if exists i :: 0 <= i < |r.subjects| && IsHeavy(r.subjects[i]) {
      var k := FindIndex(r.subjects, IsHeavy).value;
      list := list + [Alert(AlertWarn, HeavyHints(r.subjects[k].subject, r.subjects[k].hints), None, r.student.id)];
    }
    if |r.weakestUnits| > 0 {
      list := list + [Alert(AlertWarn, ReviewUnit, Some(r.weakestUnits[0]), r.student.id)];
    }
  }

  /** The position of a reason in the fixed rule order. */
  function Rank(a: Alert): nat {
    match a.reason
    case LowAdherence(_) => 0
    case HeavyHints(_, _) => 1
    case ReviewUnit => 2
  }

  /** At most three alerts, strictly in rule order (so each rule fires at most
      once), all for the row's student. */
  lemma AlertsOrdered(r: StudentRow)
    ensures |Alerts(r)| <= 3
    ensures forall i, j :: 0 <= i < j < |Alerts(r)| ==> Rank(Alerts(r)[i]) < Rank(Alerts(r)[j])
    ensures forall i :: 0 <= i < |Alerts(r)| ==> Alerts(r)[i].studentId == r.student.id
  {
  }

  /** The critical alert appears exactly when adherence is below 60%, and it
      is then the first alert; it is the only critical one. */
  lemma CritAlert(r: StudentRow)
    ensures (exists i :: 0 <= i < |Alerts(r)| && Alerts(r)[i].level == AlertCrit) <==> r.adherencePct < AdherenceFloor
    ensures r.adherencePct < AdherenceFloor ==>
      Alerts(r)[0] == Alert(AlertCrit, LowAdherence(r.adherencePct), None, r.student.id)
    ensures forall i :: 0 < i < |Alerts(r)| ==> Alerts(r)[i].level == AlertWarn
  {
    if r.adherencePct < AdherenceFloor {
      assert Alerts(r)[0].level == AlertCrit;
    }
  }

  /** A hints warning appears exactly when some subject has 6 or more hints,
      and it names the first such subject. */
  lemma HintsAlert(r: StudentRow)
    ensures (exists i :: 0 <= i < |Alerts(r)| && Alerts(r)[i].reason.HeavyHints?) <==>
      (exists k :: 0 <= k < |r.subjects| && r.subjects[k].hints >= 6)
    ensures forall i :: 0 <= i < |Alerts(r)| && Alerts(r)[i].reason.HeavyHints? ==>
      exists k :: 0 <= k < |r.subjects| && r.subjects[k].hints >= 6
        && (forall j :: 0 <= j < k ==> r.subjects[j].hints < 6)
        && Alerts(r)[i].reason == HeavyHints(r.subjects[k].subject, r.subjects[k].hints)
  {
    var f := FindIndex(r.subjects, IsHeavy);
    if f.Some? {
      var i := if r.adherencePct < AdherenceFloor then 1 else 0;
      assert Alerts(r)[i].reason.HeavyHints?;
      assert IsHeavy(r.subjects[f.value]);
    } else {
      forall k | 0 <= k < |r.subjects| ensures r.subjects[k].hints < 6 {
        assert !IsHeavy(r.subjects[k]);
      }
    }
  }

  /** The review warning appears exactly when the row has a weakest unit, it
      links that first unit, and no other alert links a unit. */
  lemma WeakUnitAlert(r: StudentRow)
    ensures (exists i :: 0 <= i < |Alerts(r)| && Alerts(r)[i].unit.Some?) <==> |r.weakestUnits| > 0
    ensures forall i :: 0 <= i < |Alerts(r)| && Alerts(r)[i].unit.Some? ==>
      i == |Alerts(r)| - 1 && Alerts(r)[i].reason == ReviewUnit && Alerts(r)[i].unit == Some(r.weakestUnits[0])
  {
    if |r.weakestUnits| > 0 {
      assert Alerts(r)[|Alerts(r)| - 1].unit.Some?;
    }
  }

  // ===================== Filtered rows =====================

  /** A row as the table shows it: with the stat of the selected subject
      (`find`, which may come back empty). */
  datatype ViewRow = ViewRow(row: StudentRow, subjectStat: Option<SubjectStat>)

  function OfSubject(subject: Subject): SubjectStat -> bool {
    (s: SubjectStat) => s.subject == subject
  }

  /** The row filter: the selected class, and a name containing the query
      when one is typed (both lowercased). */
  predicate Keeps(classFilter: string, q: string, r: StudentRow) {
    r.student.className == classFilter && (q == [] || Contains(Lower(r.student.name), Lower(q)))
  }

  function Keep(classFilter: string, q: string): StudentRow -> bool {
    (r: StudentRow) => Keeps(classFilter, q, r)
  }

  function WithStat(rows: seq<StudentRow>, subject: Subject): (v: seq<ViewRow>)
    ensures |v| == |rows|
    ensures forall i :: 0 <= i < |rows| ==> v[i].row == rows[i]
    ensures forall i :: 0 <= i < |rows| ==>
      v[i].subjectStat == (match FindIndex(rows[i].subjects, OfSubject(subject))
                           case Some(k) => Some(rows[i].subjects[k])
                           case None => None)
  {
    if rows == [] then []
    else
      var stat := match FindIndex(rows[0].subjects, OfSubject(subject))
        case Some(k) => Some(rows[0].subjects[k])
        case None => None;
      [ViewRow(rows[0], stat)] + WithStat(rows[1..], subject)
  }

  function FilteredRows(rows: seq<StudentRow>, classFilter: string, subject: Subject, q: string): seq<ViewRow> {
    WithStat(Filter(rows, Keep(classFilter, q)), subject)
  }

  function RowsOf(v: seq<ViewRow>): (r: seq<StudentRow>)
    ensures |r| == |v| && forall i :: 0 <= i < |v| ==> r[i] == v[i].row
  {
    if v == [] then [] else [v[0].row] + RowsOf(v[1..])
  }

  /** The table lists, in their original order, exactly the rows of the
      selected class whose name matches; with no query every row of the
      class is listed. */
  lemma FilteredRowsSpec(rows: seq<StudentRow>, classFilter: string, subject: Subject, q: string)
    ensures IsSubsequence(RowsOf(FilteredRows(rows, classFilter, subject, q)), rows)
    ensures forall i :: 0 <= i < |RowsOf(FilteredRows(rows, classFilter, subject, q))| ==>
      RowsOf(FilteredRows(rows, classFilter, subject, q))[i].student.className == classFilter
    ensures forall i :: 0 <= i < |RowsOf(FilteredRows(rows, classFilter, subject, q))| ==>
      q == [] || Contains(Lower(RowsOf(FilteredRows(rows, classFilter, subject, q))[i].student.name), Lower(q))
    ensures forall i ::
      (0 <= i < |rows| && rows[i].student.className == classFilter
       && (q == [] || Contains(Lower(rows[i].student.name), Lower(q)))) ==>
      rows[i] in RowsOf(FilteredRows(rows, classFilter, subject, q))
    ensures q == [] ==> RowsOf(FilteredRows(rows, classFilter, subject, q)) == Filter(rows, Keep(classFilter, []))
  {
    var kept := Filter(rows, Keep(classFilter, q));
    assert RowsOf(WithStat(kept, subject)) == kept;
    FilterIsSubsequence(rows, Keep(classFilter, q));
    forall i | 0 <= i < |kept|
      ensures kept[i].student.className == classFilter
      ensures q == [] || Contains(Lower(kept[i].student.name), Lower(q))
    {
      assert Keep(classFilter, q)(kept[i]);
    }
    forall i | 0 <= i < |rows| && rows[i].student.className == classFilter
      && (q == [] || Contains(Lower(rows[i].student.name), Lower(q)))
      ensures rows[i] in kept
    {
      assert Keep(classFilter, q)(rows[i]);
    }
  }

  /** The mastery bar of a row: `masteryPct || 0` clamped to [0, 100]. */
  function MasteryWidth(stat: Option<SubjectStat>): (w: int)
    ensures 0 <= w <= 100
    ensures stat.None? ==> w == 0
    ensures stat.Some? && 0 <= stat.value.masteryPct <= 100 ==> w == stat.value.masteryPct
  {
    ClampPercent(if stat.Some? then stat.value.masteryPct else 0)
  }

  /** The weak-unit chips of a row: its first two weakest units. */
  function WeakChips(r: StudentRow): (c: seq<UnitRef>)
    ensures |c| == Min(2, |r.weakestUnits|) && c == r.weakestUnits[..|c|]
  {
    Take(r.weakestUnits, 2)
  }

  // ===================== Selection =====================

  function IdsOf(v: seq<ViewRow>): (ids: seq<string>)
    ensures |ids| == |v| && forall i :: 0 <= i < |v| ==> ids[i] == v[i].row.student.id
  {
    if v == [] then [] else [v[0].row.student.id] + IdsOf(v[1..])
  }

  /** The header checkbox: something is selected and the selection is as
      long as the table. Only the lengths are compared, not the ids. */
  predicate CheckedAll(selected: seq<string>, shown: seq<ViewRow>) {
    |selected| > 0 && |selected| == |shown|
  }

  /** The header checkbox is ticked for a selection that misses a shown row
      when the selection holds as many other ids. */
  lemma CheckedAllComparesLengths()
    ensures var shown := [ViewRow(StudentRow(Student("st2", "Linh", "9A"), 55, 140, Crit, [], []), None)];
      CheckedAll(["st1"], shown) && "st2" !in ["st1"]
  {
  }

  /** The selected student ids of the table. */
  class Selection {
    var selected: seq<string>

    constructor ()
      ensures selected == []
    {
      selected := [];
    }

    /** The row checkbox: add an absent id, remove a present one. */
    method ToggleOne(id: string)
      modifies this
      ensures selected == ToggleMember(old(selected), id)
      ensures id in selected <==> id !in old(selected)
    {
      selected := ToggleMember(selected, id);
    }

    /** The header checkbox: clear when everything is checked, otherwise
        select exactly the shown rows. */
    method ToggleAll(shown: seq<ViewRow>)
      modifies this
      ensures selected == if CheckedAll(old(selected), shown) then [] else IdsOf(shown)
      ensures CheckedAll(old(selected), shown) || shown == [] || CheckedAll(selected, shown)
    {
      if CheckedAll(selected, shown) {
        selected := [];
      } else {
        selected := IdsOf(shown);
      }
    }
  }

  // ===================== Alert panel =====================

  /** `filteredRows.flatMap(riskyRows)`. */
  function AllAlerts(v: seq<ViewRow>): seq<Alert> {
    if v == [] then [] else Alerts(v[0].row) + AllAlerts(v[1..])
  }

  /** The panel: the first six alerts. */
  function Highlights(v: seq<ViewRow>): (h: seq<Alert>)
    ensures |h| == Min(6, |AllAlerts(v)|) && h == AllAlerts(v)[..|h|]
  {
    Take(AllAlerts(v), 6)
  }

  /** The "no notable alerts" note: rows are shown and none yields an alert. */
  predicate NoAlertsNote(v: seq<ViewRow>) {
    |v| > 0 && forall i :: 0 <= i < |v| ==> Alerts(v[i].row) == []
  }

  lemma {:induction false} AllAlertsEmpty(v: seq<ViewRow>)
    ensures AllAlerts(v) == [] <==> forall i :: 0 <= i < |v| ==> Alerts(v[i].row) == []
    decreases |v|
  {
    if v != [] {
      AllAlertsEmpty(v[1..]);
      assert forall i :: 1 <= i < |v| ==> v[1..][i - 1] == v[i];
    }
  }

  lemma {:induction false} AllAlertsBound(v: seq<ViewRow>)
    ensures |AllAlerts(v)| <= 3 * |v|
    decreases |v|
  {
    if v != [] {
      AlertsOrdered(v[0].row);
      AllAlertsBound(v[1..]);
    }
  }

  /** The note shows exactly when rows are shown but the panel is empty, and
      a panel can only be empty that way or with no rows. */
  lemma NoteIffEmptyPanel(v: seq<ViewRow>)
    ensures NoAlertsNote(v) <==> |v| > 0 && Highlights(v) == []
    ensures |Highlights(v)| <= 3 * |v|
  {
    AllAlertsEmpty(v);
    AllAlertsBound(v);
  }

  // ===================== Weekly roll-up =====================

  datatype ClassWeekly = ClassWeekly(totalMinutes: nat, adherenceAvg: nat, warn: nat, crit: nat)

  function InClass(classFilter: string): StudentRow -> bool {
    (r: StudentRow) => r.student.className == classFilter
  }

  function SumMinutes(rows: seq<StudentRow>): nat {
    if rows == [] then 0 else rows[0].studyMinutes + SumMinutes(rows[1..])
  }

  function SumAdherence(rows: seq<StudentRow>): nat {
    if rows == [] then 0 else rows[0].adherencePct + SumAdherence(rows[1..])
  }

  function HasLevel(level: RiskLevel): StudentRow -> bool {
    (r: StudentRow) => r.riskLevel == level
  }

  /** The demo page's class summary: summed minutes, the rounded average
      adherence (0 for an empty class) and the warn/crit counts by the rows'
      own risk level. */
  function Weekly(rows: seq<StudentRow>, classFilter: string): ClassWeekly {
    var cls := Filter(rows, InClass(classFilter));
    ClassWeekly(SumMinutes(cls), RoundDiv(SumAdherence(cls), Max(1, |cls|)),
                Count(cls, HasLevel(Warn)), Count(cls, HasLevel(Crit)))
  }

  lemma {:induction false} LevelCounts(rows: seq<StudentRow>)
    ensures Count(rows, HasLevel(Warn)) + Count(rows, HasLevel(Crit)) <= |rows|
    decreases |rows|
  {
    if rows != [] {
      LevelCounts(rows[1..]);
    }
  }

  lemma {:induction false} AdherenceSumBounds(rows: seq<StudentRow>, lo: nat, hi: nat)
    requires forall i :: 0 <= i < |rows| ==> lo <= rows[i].adherencePct <= hi
    ensures lo * |rows| <= SumAdherence(rows) <= hi * |rows|
    decreases |rows|
  {
    if rows != [] {
      AdherenceSumBounds(rows[1..], lo, hi);
      assert lo * |rows| == lo + lo * (|rows| - 1);
      assert hi * |rows| == hi + hi * (|rows| - 1);
    }
  }

  /** An empty class rolls up to zeros; otherwise the average adherence lies
      between the smallest and the largest row adherence, and the two risk
      counts never exceed the class size. */
  lemma WeeklyBounds(rows: seq<StudentRow>, classFilter: string, lo: nat, hi: nat)
    requires forall i :: 0 <= i < |rows| && rows[i].student.className == classFilter ==>
      lo <= rows[i].adherencePct <= hi
    ensures var cls := Filter(rows, InClass(classFilter));
      Weekly(rows, classFilter).warn + Weekly(rows, classFilter).crit <= |cls|
      && (cls == [] ==> Weekly(rows, classFilter) == ClassWeekly(0, 0, 0, 0))
      && (cls != [] ==> lo <= Weekly(rows, classFilter).adherenceAvg <= hi)
  {
    var cls := Filter(rows, InClass(classFilter));
    LevelCounts(cls);
    if cls != [] {
      forall i | 0 <= i < |cls| ensures lo <= cls[i].adherencePct <= hi {
        var j :| 0 <= j < |rows| && rows[j] == cls[i];
      }
      AdherenceSumBounds(cls, lo, hi);
      RoundDivBetween(SumAdherence(cls), |cls|, lo, hi);
    }
  }
}
