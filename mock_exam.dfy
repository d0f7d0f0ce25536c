/** The exam-practice page: the keyboard shortcuts, the topic builder's
    presets, the mock-exam library and history filters, and the static unit
    and exam tables. */
module MockExam {
  import opened Wrappers
  import opened Text
  import opened Lists
  import opened Subjects

  datatype Grade = Grade8 | Grade9

  datatype Tab = TopicTab | MockTab | SmartTab | HistoryTab

  datatype Difficulty = Easy | Medium | Hard

  datatype MockExamEntry = MockExamEntry(id: string, title: string, subject: Subject, grade: Grade,
                                         minutes: nat, difficulty: Difficulty, units: seq<string>, available: bool)

  /** A past attempt; the fractional score is not part of this model. */
  datatype HistoryItem = HistoryItem(id: string, title: string, subject: Subject, minutes: nat, date: string)

  // ===================== Static tables =====================

  const Units: seq<UnitRef> := [
    UnitRef("u1", "Giải bài toán bằng cách lập hệ PT", Toan),
    UnitRef("u2", "Hệ thức Vi-ét", Toan),
    UnitRef("u3", "Hàm số y = ax^2", Toan),
    UnitRef("u7", "Present Perfect", TiengAnh),
    UnitRef("u8", "Reading – Inference", TiengAnh)
  ]

  const Mocks: seq<MockExamEntry> := [
    MockExamEntry("m1", "Đề 2024 – THPT A", Toan, Grade9, 45, Medium, ["u1", "u2"], true),
    MockExamEntry("m2", "Đề 2024 – EN Trial B", TiengAnh, Grade9, 45, Medium, ["u7", "u8"], true),
    MockExamEntry("m3", "Đề Mini – Algebra", Toan, Grade8, 30, Easy, ["u2", "u3"], false)
  ]

  const History: seq<HistoryItem> := [
    HistoryItem("h1", "Mini 15' – Hệ PT", Toan, 15, "2025-10-17 19:40"),
    HistoryItem("h2", "Reading – Inference", TiengAnh, 20, "2025-10-16 20:10")
  ]

  function HasUnitId(uid: string): UnitRef -> bool {
    (u: UnitRef) => u.id == uid
  }

  /** `UNITS.find(x => x.id === uid)`. */
  function UnitFor(uid: string): (r: Option<UnitRef>)
    ensures r.Some? ==> r.value in Units && r.value.id == uid
    ensures r.None? ==> forall i :: 0 <= i < |Units| ==> Units[i].id != uid
  {
    match FindIndex(Units, HasUnitId(uid))
    case Some(i) => Some(Units[i])
    case None => None
  }

  /** Unit and exam ids are unique within their tables. */
  lemma TableIdsUnique()
    ensures forall i, j :: 0 <= i < j < |Units| ==> Units[i].id != Units[j].id
    ensures forall i, j :: 0 <= i < j < |Mocks| ==> Mocks[i].id != Mocks[j].id
  {
  }

  /** The lookup finds the one table entry carrying the id. */
  lemma UnitForEntry(uid: string, i: nat)
    requires i < |Units| && Units[i].id == uid
    ensures UnitFor(uid) == Some(Units[i])
  {
    TableIdsUnique();
    assert HasUnitId(uid)(Units[i]);
    var k := FindIndex(Units, HasUnitId(uid)).value;
    assert HasUnitId(uid)(Units[k]);
  }

  /** Every unit an exam lists is in the unit table, of the exam's own
      subject, so the unit-chip lookup always finds it. */
  lemma MocksReferToKnownUnits()
    ensures forall m, j :: 0 <= m < |Mocks| && 0 <= j < |Mocks[m].units| ==>
      UnitFor(Mocks[m].units[j]).Some? && UnitFor(Mocks[m].units[j]).value.subject == Mocks[m].subject
  {
    forall m, j | 0 <= m < |Mocks| && 0 <= j < |Mocks[m].units|
      ensures UnitFor(Mocks[m].units[j]).Some? && UnitFor(Mocks[m].units[j]).value.subject == Mocks[m].subject
    {
      var i := [[0, 1], [3, 4], [1, 2]][m][j];
      UnitForEntry(Mocks[m].units[j], i);
    }
  }

  // ===================== Page configuration and shortcuts =====================

  /** The page state the shortcuts and builders write: subject, grade, tab,
      and the summary's minutes and question count. */
  class ExamPage {
    var subject: Subject
    var grade: Grade
    var tab: Tab
    var minutes: int
    var items: int

    constructor ()
      ensures subject == Toan && grade == Grade9 && tab == TopicTab && minutes == 15 && items == 10
    {
      subject, grade, tab, minutes, items := Toan, Grade9, TopicTab, 15, 10;
    }

    /** The keydown handler. */
    method OnKey(key: string, alt: bool)
      modifies this
      ensures subject == old(subject) && grade == old(grade)
      ensures alt ==> minutes == old(minutes) && items == old(items)
      ensures alt ==> tab == (if key == "1" then TopicTab else if key == "2" then MockTab
                               else if key == "3" then SmartTab else if key == "4" then HistoryTab else old(tab))
      ensures !alt ==> tab == old(tab)
      ensures !alt ==> minutes == (if key == "1" then 15 else if key == "2" then 30 else if key == "3" then 45 else old(minutes))
      ensures !alt ==> items == (if Lower(key) == "q" then 10 else if Lower(key) == "w" then 20
                                 else if Lower(key) == "e" then 30 else old(items))
    {
      if alt {
        if key == "1" { tab := TopicTab; }
        if key == "2" { tab := MockTab; }
        if key == "3" { tab := SmartTab; }
        if key == "4" { tab := HistoryTab; }
      } else {
        if key in ["1", "2", "3"] {
          minutes := if key == "1" then 15 else if key == "2" then 30 else 45;
        }
        var k := Lower(key);
        if k in ["q", "w", "e"] {
          items := if k == "q" then 10 else if k == "w" then 20 else 30;
        }
      }
    }

    method SelectTab(t: Tab)
      modifies this
      ensures tab == t && subject == old(subject) && grade == old(grade)
      ensures minutes == old(minutes) && items == old(items)
    {
      tab := t;
    }

    method SelectSubject(s: Subject)
      modifies this
      ensures subject == s && tab == old(tab) && grade == old(grade)
      ensures minutes == old(minutes) && items == old(items)
    {
      subject := s;
    }

    method SelectGrade(g: Grade)
      modifies this
      ensures grade == g && tab == old(tab) && subject == old(subject)
      ensures minutes == old(minutes) && items == old(items)
    {
      grade := g;
    }

    /** A minute chip of the smart builder (15, 30, 45 or 60): minutes only. */
    method SmartMinuteChip(t: int)
      requires t == 15 || t == 30 || t == 45 || t == 60
      modifies this
      ensures minutes == t && items == old(items) && tab == old(tab)
      ensures subject == old(subject) && grade == old(grade)
    {
      minutes := t;
    }
  }

  /** The plain shortcuts never interfere: a minutes key is never also a
      question-count key, so one key press changes at most one of the two. */
  lemma ShortcutKeysDisjoint(key: string)
    ensures key in ["1", "2", "3"] ==> Lower(key) !in ["q", "w", "e"]
  {
    if key in ["1", "2", "3"] {
      assert |key| == 1 && LowerChar(key[0]) == key[0];
      assert Lower(key) == key;
    }
  }

  // ===================== Topic builder =====================

  datatype Mode = Mini | Short | Full | Targeted

  datatype Preset = Preset(minutes: int, items: int)

  function PresetOf(m: Mode): Preset {
    match m
    case Mini => Preset(15, 10)
    case Short => Preset(30, 20)
    case Full => Preset(45, 30)
    case Targeted => Preset(20, 12)
  }

  /** The mode a minute chip selects. */
  function ChipMode(t: int): (m: Mode)
    ensures m != Targeted
    ensures t == 15 || t == 30 || t == 45 ==> PresetOf(m).minutes == t
  {
    if t == 15 then Mini else if t == 30 then Short else Full
  }

  /** The topic tab: its mode and picked unit ids; it writes the page's
      minutes and question count through the preset effect. */
  class TopicBuilder {
    var mode: Mode
    var picked: seq<string>

    /** Mounting the tab runs the preset effect once for the initial mode. */
    constructor (page: ExamPage)
      modifies page
      ensures mode == Mini && picked == []
      ensures page.minutes == 15 && page.items == 10
      ensures page.tab == old(page.tab) && page.subject == old(page.subject) && page.grade == old(page.grade)
    {
      mode := Mini;
      picked := [];
      page.minutes := 15;
      page.items := 10;
    }

    /** Setting the mode re-runs the effect only when it changes; the effect
        writes the preset except for the targeted mode. */
    method SetMode(k: Mode, page: ExamPage)
      modifies this, page
      ensures mode == k && picked == old(picked)
      ensures page.tab == old(page.tab) && page.subject == old(page.subject) && page.grade == old(page.grade)
      ensures k != old(mode) && k != Targeted ==>
        page.minutes == PresetOf(k).minutes && page.items == PresetOf(k).items
      ensures k == old(mode) || k == Targeted ==>
        page.minutes == old(page.minutes) && page.items == old(page.items)
    {
      var changed := k != mode;
      mode := k;
      if changed && mode != Targeted {
        page.minutes := PresetOf(mode).minutes;
        page.items := PresetOf(mode).items;
      }
    }

    /** A minute chip: set the minutes, then switch to the matching mode, whose
        preset (if the mode changed) also resets the question count. */
    method MinuteChip(t: int, page: ExamPage)
      requires t == 15 || t == 30 || t == 45
      modifies this, page
      ensures page.minutes == t && mode == ChipMode(t) && picked == old(picked)
      ensures page.items == if ChipMode(t) != old(mode) then PresetOf(ChipMode(t)).items else old(page.items)
      ensures page.tab == old(page.tab) && page.subject == old(page.subject) && page.grade == old(page.grade)
    {
      page.minutes := t;
      SetMode(ChipMode(t), page);
    }

    /** A question-count chip (10, 20 or 30). */
    method ItemsChip(n: int, page: ExamPage)
      requires n == 10 || n == 20 || n == 30
      modifies page
      ensures page.items == n && page.minutes == old(page.minutes) && page.tab == old(page.tab)
      ensures page.subject == old(page.subject) && page.grade == old(page.grade)
    {
      page.items := n;
    }

    /** A unit checkbox: add an absent id, remove a present one. */
    method Toggle(id: string)
      modifies this
      ensures picked == ToggleMember(old(picked), id) && mode == old(mode)
      ensures id in picked <==> id !in old(picked)
    {
      picked := ToggleMember(picked, id);
    }
  }

  /** The units the topic tab offers: all units of the selected subject, in
      table order, and no others. */
  function TopicUnits(subject: Subject): (u: seq<UnitRef>)
    ensures IsSubsequence(u, Units)
    ensures forall x :: x in u <==> x in Units && x.subject == subject
  {
    var p := (x: UnitRef) => x.subject == subject;
    FilterIsSubsequence(Units, p);
    assert forall x :: x in Units && x.subject == subject ==> p(x);
    Filter(Units, p)
  }

  // ===================== Library and history filters =====================

  datatype DifficultyFilter = AnyDifficulty | EasyOnly | MediumOnly | HardOnly

  predicate DifficultyMatches(d: DifficultyFilter, x: Difficulty) {
    d == AnyDifficulty || (d == EasyOnly && x == Easy) || (d == MediumOnly && x == Medium)
    || (d == HardOnly && x == Hard)
  }

  predicate ExamMatches(subject: Subject, grade: Grade, q: string, d: DifficultyFilter, m: MockExamEntry) {
    m.subject == subject && m.grade == grade && (q == [] || Contains(Lower(m.title), Lower(q)))
    && DifficultyMatches(d, m.difficulty)
  }

  function ExamFilter(subject: Subject, grade: Grade, q: string, d: DifficultyFilter): MockExamEntry -> bool {
    (m: MockExamEntry) => ExamMatches(subject, grade, q, d, m)
  }

  function MockLibrary(mocks: seq<MockExamEntry>, subject: Subject, grade: Grade, q: string, d: DifficultyFilter): seq<MockExamEntry> {
    Filter(mocks, ExamFilter(subject, grade, q, d))
  }

  /** The library lists, in table order, exactly the exams that match
      subject, grade, title query and difficulty. */
  lemma MockLibrarySpec(mocks: seq<MockExamEntry>, subject: Subject, grade: Grade, q: string, d: DifficultyFilter)
    ensures IsSubsequence(MockLibrary(mocks, subject, grade, q, d), mocks)
    ensures forall m :: m in MockLibrary(mocks, subject, grade, q, d) <==> m in mocks && ExamMatches(subject, grade, q, d, m)
  {
    var p := ExamFilter(subject, grade, q, d);
    FilterIsSubsequence(mocks, p);
    forall m ensures m in MockLibrary(mocks, subject, grade, q, d) <==> m in mocks && ExamMatches(subject, grade, q, d, m) {
      if m in mocks && ExamMatches(subject, grade, q, d, m) {
        var i :| 0 <= i < |mocks| && mocks[i] == m;
        assert p(mocks[i]);
      }
      if m in MockLibrary(mocks, subject, grade, q, d) {
        var i :| 0 <= i < |MockLibrary(mocks, subject, grade, q, d)| && MockLibrary(mocks, subject, grade, q, d)[i] == m;
        assert p(m);
      }
    }
  }

  /** With the demo table: grade-9 mathematics with no query and any
      difficulty lists exactly the 2024 THPT exam. */
  lemma MockLibraryExample()
    ensures MockLibrary(Mocks, Toan, Grade9, "", AnyDifficulty) == [Mocks[0]]
  {
    assert ExamFilter(Toan, Grade9, "", AnyDifficulty)(Mocks[0]);
    assert !ExamFilter(Toan, Grade9, "", AnyDifficulty)(Mocks[1]);
    assert !ExamFilter(Toan, Grade9, "", AnyDifficulty)(Mocks[2]);
    assert Mocks[1..][1..] == [Mocks[2]];
  }

  function HistoryOf(subject: Subject): HistoryItem -> bool {
    (h: HistoryItem) => h.subject == subject
  }

  function HistoryList(history: seq<HistoryItem>, subject: Subject): seq<HistoryItem> {
    Filter(history, HistoryOf(subject))
  }

  /** The history tab lists exactly the attempts of the subject, in order. */
  lemma HistoryListSpec(history: seq<HistoryItem>, subject: Subject)
    ensures IsSubsequence(HistoryList(history, subject), history)
    ensures forall i :: 0 <= i < |HistoryList(history, subject)| ==> HistoryList(history, subject)[i].subject == subject
    ensures forall i :: 0 <= i < |history| && history[i].subject == subject ==> history[i] in HistoryList(history, subject)
    ensures |HistoryList(history, Toan)| + |HistoryList(history, TiengAnh)| == |history|
  {
    FilterIsSubsequence(history, HistoryOf(subject));
    forall i | 0 <= i < |HistoryList(history, subject)| ensures HistoryList(history, subject)[i].subject == subject {
      assert HistoryOf(subject)(HistoryList(history, subject)[i]);
    }
    forall i | 0 <= i < |history| && history[i].subject == subject ensures history[i] in HistoryList(history, subject) {
      assert HistoryOf(subject)(history[i]);
    }
    HistorySplit(history);
  }

  lemma {:induction false} HistorySplit(history: seq<HistoryItem>)
    ensures |HistoryList(history, Toan)| + |HistoryList(history, TiengAnh)| == |history|
    decreases |history|
  {
    if history != [] {
      HistorySplit(history[1..]);
    }
  }
}
