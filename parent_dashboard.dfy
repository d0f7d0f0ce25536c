/** The guardian portal: the fixed two-subject progress table, class-code
    validation, the student shown, the weekly goals and the notification
    switch. */
module ParentDashboard {
  import opened Wrappers
  import opened Arith
  import opened Lists
  import opened Subjects

  datatype Student = Student(id: string, name: string, grade: string, className: Option<string>)

  /** One subject's weekly summary; the fractional assessment average is not
      part of this model. */
  datatype SubjectSummary = SubjectSummary(subject: Subject, masteryPct: int, timeMinutes: nat, hints: nat)

  /** The entry a subject the input does not mention gets. */
  function ZeroSummary(k: Subject): (z: SubjectSummary)
    ensures z.subject == k && z.masteryPct == 0 && z.timeMinutes == 0 && z.hints == 0
  {
    SubjectSummary(k, 0, 0, 0)
  }

  function About(k: Subject): SubjectSummary -> bool {
    (s: SubjectSummary) => s.subject == k
  }

  /** `map.get(k) || zero`, the map being built from the list, so the last
      entry for a subject wins. */
  function EntryFor(ss: seq<SubjectSummary>, k: Subject): SubjectSummary {
    match FindLastIndex(ss, About(k))
    case Some(j) => ss[j]
    case None => ZeroSummary(k)
  }

  /** The progress table: one entry per subject, in the fixed order. */
  function SubjectTable(ss: seq<SubjectSummary>): seq<SubjectSummary> {
    [EntryFor(ss, Toan), EntryFor(ss, TiengAnh)]
  }

  /** Whatever the input, the table has exactly the two subjects in order;
      each entry is the last input entry for its subject, unchanged, or an
      all-zero entry when the input has none. */
  lemma SubjectTableShape(ss: seq<SubjectSummary>)
    ensures |SubjectTable(ss)| == |AllSubjects| == 2
    ensures forall i :: 0 <= i < 2 ==> SubjectTable(ss)[i].subject == AllSubjects[i]
    ensures forall i :: 0 <= i < 2 && (forall j :: 0 <= j < |ss| ==> ss[j].subject != AllSubjects[i]) ==>
      SubjectTable(ss)[i] == ZeroSummary(AllSubjects[i])
    ensures forall i, j ::
      (0 <= i < 2 && 0 <= j < |ss| && ss[j].subject == AllSubjects[i]
       && (forall l :: j < l < |ss| ==> ss[l].subject != AllSubjects[i])) ==>
      SubjectTable(ss)[i] == ss[j]
  {
    forall i | 0 <= i < 2 ensures SubjectTable(ss)[i].subject == AllSubjects[i] {
      var k := AllSubjects[i];
      assert SubjectTable(ss)[i] == EntryFor(ss, k);
      match FindLastIndex(ss, About(k))
      case Some(j) => assert About(k)(ss[j]);
      case None =>
    }
    forall i, j | 0 <= i < 2 && 0 <= j < |ss| && ss[j].subject == AllSubjects[i]
      && (forall l :: j < l < |ss| ==> ss[l].subject != AllSubjects[i])
      ensures SubjectTable(ss)[i] == ss[j]
    {
      var k := AllSubjects[i];
      assert SubjectTable(ss)[i] == EntryFor(ss, k);
      assert About(k)(ss[j]);
      var f := FindLastIndex(ss, About(k));
      assert f.Some? && f.value == j;
    }
    forall i | 0 <= i < 2 && forall j :: 0 <= j < |ss| ==> ss[j].subject != AllSubjects[i]
      ensures SubjectTable(ss)[i] == ZeroSummary(AllSubjects[i])
    {
      var k := AllSubjects[i];
      assert SubjectTable(ss)[i] == EntryFor(ss, k);
      forall j | 0 <= j < |ss| ensures !About(k)(ss[j]) {
      }
    }
  }

  /** `coerceClassName`: a given, non-empty, known class code is kept;
      anything else becomes undefined. */
  function CoerceClassName(c: Option<string>): (r: Option<string>)
    ensures r.Some? <==> c.Some? && c.value != [] && c.value in ClassOptions
    ensures r.Some? ==> r == c
  {
    if c.Some? && c.value != [] && c.value in ClassOptions then c else None
  }

  function HasId(id: string): Student -> bool {
    (s: Student) => s.id == id
  }

  /** The student shown: the first with the selected id, else the first
      student, and none at all for an empty list. */
  function PickStudent(students: seq<Student>, selectedId: string): (r: Option<Student>)
    ensures r.None? <==> students == []
    ensures r.Some? ==> r.value in students
    ensures r.Some? && r.value.id != selectedId ==>
      r == Some(students[0]) && forall i :: 0 <= i < |students| ==> students[i].id != selectedId
    ensures (exists i :: 0 <= i < |students| && students[i].id == selectedId) ==> r.Some? && r.value.id == selectedId
    ensures forall k :: 0 <= k < |students| && students[k].id == selectedId ==>
      (forall j :: 0 <= j < k ==> students[j].id != selectedId) ==> r == Some(students[k])
  {
    match FindIndex(students, HasId(selectedId))
    case Some(i) => Some(students[i])
    case None => if students == [] then None else Some(students[0])
  }

  /** The weekly time goal: at least 120 minutes, more when the learner
      already studies more. */
  function TargetMinutes(studyMinutes: nat): (t: nat)
    ensures t >= 120 && t >= studyMinutes
    ensures t == 120 || t == studyMinutes
  {
    Max(120, studyMinutes)
  }

  /** `props.focusUnits || weekly.weakestUnits`: a supplied list, even an
      empty one, is used as is; only a missing one falls back. */
  function FocusUnits(supplied: Option<seq<UnitRef>>, weakestUnits: seq<UnitRef>): (f: seq<UnitRef>)
    ensures supplied.Some? ==> f == supplied.value
    ensures supplied.None? ==> f == weakestUnits
  {
    supplied.GetOr(weakestUnits)
  }

  /** The goal box lists the first three focus units. */
  function ShownFocusUnits(supplied: Option<seq<UnitRef>>, weakestUnits: seq<UnitRef>): (u: seq<UnitRef>)
    ensures |u| == Min(3, |FocusUnits(supplied, weakestUnits)|) <= 3
    ensures u == FocusUnits(supplied, weakestUnits)[..|u|]
  {
    Take(FocusUnits(supplied, weakestUnits), 3)
  }

  /** The width of a subject's mastery bar. */
  function MasteryWidth(s: SubjectSummary): (w: int)
    ensures 0 <= w <= 100
    ensures 0 <= s.masteryPct <= 100 ==> w == s.masteryPct
  {
    ClampPercent(s.masteryPct)
  }

  /** The notification switch; each toggle reports the new value to the
      `onToggleNotifications` callback, logged here. */
  class Notifications {
    var enabled: bool
    ghost var reported: seq<bool>

    constructor ()
      ensures enabled && reported == []
    {
      enabled := true;
      reported := [];
    }

    method Toggle() returns (now: bool)
      modifies this
      ensures enabled == !old(enabled) && now == enabled
      ensures reported == old(reported) + [now]
    {
      enabled := !enabled;
      now := enabled;
      reported := reported + [now];
    }
  }
}
