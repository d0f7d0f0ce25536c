/** The exam knowledge base: subject-slug coercion, the core-notes lookup
    by topic, the quick-summary points and the topic search. */
module KnowledgeBase {
  import opened Wrappers
  import opened Text
  import opened Lists

  /** The subject slugs the page accepts, in display order. */
  const SubjectSlugs: seq<string> := ["toan", "tieng-anh"]

  const DefaultSlug: string := "toan"

  // ===================== Core notes =====================

  datatype NoteEntry = NoteEntry(key: string, notes: seq<string>)

  /** One subject's notes, keyed by short topic names in table order. */
  datatype SubjectNotes = SubjectNotes(subject: string, entries: seq<NoteEntry>)

  /** The core notes of mathematics, keyed by topic. */
  const MathNotes: seq<NoteEntry> := [
    NoteEntry("hàm số", [
        "Đồ thị y=ax+b là đường thẳng: a ≠ 0 (hệ số góc); a>0 ↑, a<0 ↓.",
        "Tọa độ giao trục: cắt Oy tại (0,b), cắt Ox khi y=0 ⇒ x = -b/a.",
        "Xác định đường thẳng qua 2 điểm: hệ số góc k = (y2−y1)/(x2−x1); phương trình y = kx + y1 − kx1.",
        "Nhận dạng đề: tìm giao điểm, song song (a1=a2), vuông góc (a1·a2=-1)."]),
    NoteEntry("hệ phương trình", [
        "Dạng cơ bản: thế / cộng – trừ / quy về 1 ẩn.",
        "Hệ đối xứng hoặc đặt ẩn phụ u=x+y, v=xy khi xuất hiện x+y, xy.",
        "Điều kiện nghiệm: ∆ ≠ 0 (hệ Cramer); chú ý mẫu khác 0 nếu có phân thức."]),
    NoteEntry("đồng dạng", [
        "AA/HS cạnh tỉ lệ/góc xen kẽ – so le trong → tam giác đồng dạng.",
        "Suy ra tỉ lệ cạnh tương ứng; áp dụng tìm đoạn thẳng/chiều cao/diện tích.",
        "Bẫy: xác định đúng cặp góc tương ứng; sơ đồ hình để không nhầm."]),
    NoteEntry("đường tròn", [
        "Tiếp tuyến vuông góc bán kính tại tiếp điểm.",
        "Góc nội tiếp = 1/2 số đo cung chắn; góc tạo bởi tiếp tuyến & dây = góc nội tiếp cùng chắn cung.",
        "Tính chất cát tuyến – tiếp tuyến: PA² = PB·PC (P ngoài đường tròn)."]),
    NoteEntry("bất phương trình", [
        "Quy tắc chuyển vế, đổi dấu khi nhân/chia số âm.",
        "Dạng trị tuyệt đối: tách 2 trường hợp theo dấu biểu thức.",
        "Vẽ trục số để biểu diễn nghiệm; hợp giao khoảng."]),
    NoteEntry("bậc nhất/bậc hai", [
        "PT bậc hai: ∆ = b² − 4ac; nghiệm: x = (-b ± √∆)/(2a).",
        "Đổi biến khi xuất hiện dạng x + 1/x, đặt t = x + 1/x (điều kiện x ≠ 0).",
        "Nhớ Viète: x1 + x2 = -b/a; x1·x2 = c/a."]),
    NoteEntry("tam giác vuông", [
        "Pytago: a² = b² + c²; hệ thức lượng: h² = mn, a² = c·ca’, b² = c·cb’.",
        "Sin/Cos trong tam giác vuông: sin = đối/huyền, cos = kề/huyền."]),
    NoteEntry("bài toán thực tế", [
        "Tỉ lệ: y ∼ kx; năng suất: khối lượng = năng suất × thời gian.",
        "Chuyển động đều: s = v·t; ngược chiều cộng vận tốc, cùng chiều trừ."]),
    NoteEntry("căn bậc hai", [
        "Quy tắc: √ab = √a√b (a,b≥0); khử mẫu; liên hợp khi có dạng √a ± √b.",
        "Điều kiện xác định khi có căn: biểu thức dưới căn ≥ 0."]),
    NoteEntry("tọa độ", [
        "Độ dài đoạn thẳng: d(A,B)=√((x2-x1)²+(y2-y1)²); trung điểm M((x1+x2)/2,(y1+y2)/2).",
        "Phương trình đường thẳng qua điểm A(x0,y0) có hệ số góc k: y−y0 = k(x−x0)."])
  ]

  /** The core notes of literature, keyed by topic. */
  const LiteratureNotes: seq<NoteEntry> := [
    NoteEntry("phương thức", [
        "PTBĐ chính: tự sự, miêu tả, biểu cảm, thuyết minh, nghị luận, hành chính–công vụ.",
        "Biện pháp tu từ hay hỏi: ẩn dụ, hoán dụ, so sánh, điệp, nói quá, chơi chữ; tác dụng: gợi hình/gợi cảm/nhấn mạnh."]),
    NoteEntry("thông điệp", [
        "Xác định đối tượng, hoàn cảnh; tác giả muốn gửi gắm giá trị/quan niệm gì.",
        "Thái độ/ngữ điệu: đồng cảm – phê phán – trân trọng… dẫn chứng 1–2 câu then chốt."]),
    NoteEntry("200 chữ", [
        "Bố cục: Mở (nêu vấn đề) – Thân (giải thích, phân tích, phản biện, dẫn chứng) – Kết (bài học/nhắn gửi).",
        "5 tiêu chí: đúng đề; lập luận rõ; dẫn chứng phù hợp; diễn đạt; chính tả."]),
    NoteEntry("nhân vật/chi tiết", [
        "Nêu lai lịch – diễn biến – phẩm chất; chi tiết nghệ thuật (mang tính biểu tượng).",
        "Gắn bài học/ý nghĩa nhân văn; liên hệ thực tiễn học đường."]),
    NoteEntry("mở/kết", [
        "Mở tự nhiên – đi thẳng vấn đề; kết mở rộng—liên hệ bản thân/xã hội, tránh sáo rỗng."])
  ]

  /** The core notes of English, keyed by topic. */
  const EnglishNotes: seq<NoteEntry> := [
    NoteEntry("tenses", [
        "Hiện tại đơn: S + V(s/es) (thói quen, sự thật). Hiện tại tiếp diễn: S + am/is/are + V-ing (đang diễn ra).",
        "Quá khứ đơn: V2/ed; Hiện tại hoàn thành: have/has + P2 (kinh nghiệm/ảnh hưởng tới hiện tại)."]),
    NoteEntry("passive", [
        "Bị động: S + be + P2 (+ by O); thì nào → be chia thì đó.",
        "Tường thuật: lùi thì cơ bản; đổi đại từ/trạng ngữ chỉ thời gian – nơi chốn."]),
    NoteEntry("conditional/relative", [
        "If loại 1: real; loại 2: unreal hiện tại; loại 3: unreal quá khứ.",
        "Mệnh đề quan hệ: who/whom/which/that/whose; rút gọn V-ing/P2 khi chủ ngữ trùng."]),
    NoteEntry("comparison/articles/prep", [
        "So sánh hơn/nhất; cấu trúc as…as; much/far + comparative.",
        "Mạo từ a/an/the; giới từ thời gian: at/on/in; nơi chốn: at/in/on."]),
    NoteEntry("reading", [
        "Skimming (đọc lướt ý chính) – scanning (đọc tìm chi tiết).",
        "Từ vựng B1: gia đình, giáo dục, môi trường, công nghệ…"])
  ]

  /** The core-notes table. */
  const CoreNotes: seq<SubjectNotes> := [
    SubjectNotes("toan", MathNotes),
    SubjectNotes("ngu-van", LiteratureNotes),
    SubjectNotes("tieng-anh", EnglishNotes)
  ]

  function ForSubject(subject: string): SubjectNotes -> bool {
    (n: SubjectNotes) => n.subject == subject
  }

  /** `CORE_NOTES[subject] || {}`. */
  function PoolFor(table: seq<SubjectNotes>, subject: string): (pool: seq<NoteEntry>)
    ensures (forall i :: 0 <= i < |table| ==> table[i].subject != subject) ==> pool == []
  {
    match FindIndex(table, ForSubject(subject))
    case Some(i) => table[i].entries
    case None => []
  }

  function KeyIn(t: string): NoteEntry -> bool {
    (e: NoteEntry) => Contains(t, e.key)
  }

  /** `coreNotesFor`: the notes of the first key, in table order, that the
      lowercased topic contains; none when no key matches (or when the
      matching key is the falsy empty string). */
  function CoreNotesFor(table: seq<SubjectNotes>, subject: string, topic: string): seq<string> {
    var pool := PoolFor(table, subject);
    match FindIndex(pool, KeyIn(Lower(topic)))
    case Some(i) => if pool[i].key == [] then [] else pool[i].notes
    case None => []
  }

  /** The lookup returns the notes of the first matching key, or nothing
      when no key of the subject's pool occurs in the topic. */
  lemma CoreNotesForSpec(table: seq<SubjectNotes>, subject: string, topic: string)
    ensures var pool := PoolFor(table, subject);
      forall i ::
        (0 <= i < |pool| && pool[i].key != [] && Contains(Lower(topic), pool[i].key)
         && (forall j :: 0 <= j < i ==> !Contains(Lower(topic), pool[j].key))) ==>
        CoreNotesFor(table, subject, topic) == pool[i].notes
    ensures var pool := PoolFor(table, subject);
      (forall i :: 0 <= i < |pool| ==> !Contains(Lower(topic), pool[i].key)) ==> CoreNotesFor(table, subject, topic) == []
    ensures (forall i :: 0 <= i < |table| ==> table[i].subject != subject) ==> CoreNotesFor(table, subject, topic) == []
  {
    var pool := PoolFor(table, subject);
    var p := KeyIn(Lower(topic));
    forall i | 0 <= i < |pool| && pool[i].key != [] && Contains(Lower(topic), pool[i].key)
      && (forall j :: 0 <= j < i ==> !Contains(Lower(topic), pool[j].key))
      ensures CoreNotesFor(table, subject, topic) == pool[i].notes
    {
      assert p(pool[i]);
      var k := FindIndex(pool, p).value;
      assert p(pool[k]);
    }
    if forall i :: 0 <= i < |pool| ==> !Contains(Lower(topic), pool[i].key) {
      assert forall i :: 0 <= i < |pool| ==> !p(pool[i]);
    }
  }

  /** Every key of a pool is non-empty and has notes. */
  predicate WellFormedPool(pool: seq<NoteEntry>) {
    forall e :: 0 <= e < |pool| ==> pool[e].key != [] && pool[e].notes != []
  }

  /** No key of the table is the empty string, so a matching key always
      yields its notes. */
  lemma CoreNotesWellFormed()
    ensures forall s :: 0 <= s < |CoreNotes| ==> WellFormedPool(CoreNotes[s].entries)
  {
    MathNotesWellFormed();
    LiteratureNotesWellFormed();
    EnglishNotesWellFormed();
  }

  /** Each accepted subject finds its own pool in the table. */
  lemma SubjectPools()
    ensures PoolFor(CoreNotes, "toan") == MathNotes
    ensures PoolFor(CoreNotes, "tieng-anh") == EnglishNotes
  {
    assert ForSubject("toan")(CoreNotes[0]);
    assert !ForSubject("tieng-anh")(CoreNotes[0]) && !ForSubject("tieng-anh")(CoreNotes[1]);
    assert ForSubject("tieng-anh")(CoreNotes[2]);
  }

  lemma MathNotesWellFormed()
    ensures WellFormedPool(MathNotes)
  {
  }

  lemma LiteratureNotesWellFormed()
    ensures WellFormedPool(LiteratureNotes)
  {
  }

  lemma EnglishNotesWellFormed()
    ensures WellFormedPool(EnglishNotes)
  {
  }

  // ===================== Subject slugs =====================

  predicate IsSlugChar(c: char) {
    ('a' <= c <= 'z') || ('0' <= c <= '9')
  }

  /** The combining diacritical marks, U+0300 to U+036F. */
  predicate IsMark(c: char) {
    '\U{0300}' <= c <= '\U{036F}'
  }

  function NotMark(): char -> bool {
    (c: char) => !IsMark(c)
  }

  /** Drops the leading run of characters outside a-z and 0-9. */
  function DropRun(s: string): (r: string)
    ensures |r| <= |s| && r == s[|s| - |r|..]
    ensures r == [] || IsSlugChar(r[0])
    ensures forall i :: 0 <= i < |s| - |r| ==> !IsSlugChar(s[i])
    ensures s != [] && !IsSlugChar(s[0]) ==> |r| < |s|
    ensures s != [] && IsSlugChar(s[0]) ==> r == s
  {
    if s != [] && !IsSlugChar(s[0]) then DropRun(s[1..]) else s
  }

  /** `replace(/[^a-z0-9]+/g, "-")`: each maximal run of other characters
      becomes one dash. */
  function CollapseRuns(s: string): (r: string)
    ensures forall i :: 0 <= i < |r| ==> IsSlugChar(r[i]) || r[i] == '-'
    ensures forall i :: 0 <= i < |r| - 1 ==> r[i] != '-' || r[i + 1] != '-'
    ensures (s == [] || IsSlugChar(s[0])) ==> (r == [] || r[0] != '-')
    decreases |s|
  {
    if s == [] then []
    else if IsSlugChar(s[0]) then [s[0]] + CollapseRuns(s[1..])
    else "-" + CollapseRuns(DropRun(s))
  }

  /** `replace(/(^-|-$)/g, "")`: one dash off each end. */
  function TrimDashes(s: string): (r: string)
    ensures |r| <= |s|
  {
    var a := if s != [] && s[0] == '-' then s[1..] else s;
    if a != [] && a[|a| - 1] == '-' then a[..|a| - 1] else a
  }

  /** A slug: a-z, 0-9 and single dashes, with no dash at either end. */
  predicate IsSlug(r: string) {
    (forall i :: 0 <= i < |r| ==> IsSlugChar(r[i]) || r[i] == '-')
    && (forall i :: 0 <= i < |r| - 1 ==> r[i] != '-' || r[i + 1] != '-')
    && (r == [] || (r[0] != '-' && r[|r| - 1] != '-'))
  }

  /** `slugify`: null and the empty string give "toan"; anything else is
      lowercased, decomposed, stripped of combining marks, and reduced to
      a-z, 0-9 and dashes. The decomposition (`normalize("NFD")`) is a
      parameter. */
  function Slugify(s: Option<string>, decompose: string -> string): (r: string)
    ensures IsSlug(r)
    ensures s.None? || s == Some([]) ==> r == DefaultSlug
  {
    if s.None? || s.value == [] then DefaultSlugIsSlug(); DefaultSlug
    else
      var c := CollapseRuns(Filter(decompose(Lower(s.value)), NotMark()));
      TrimDashesSlug(c);
      TrimDashes(c)
  }

  lemma DefaultSlugIsSlug()
    ensures IsSlug(DefaultSlug)
  {
    assert IsSlugChar(DefaultSlug[0]) && IsSlugChar(DefaultSlug[1]);
    assert IsSlugChar(DefaultSlug[2]) && IsSlugChar(DefaultSlug[3]);
  }

  /** Taking one dash off each end of a collapsed string leaves a slug. */
  lemma TrimDashesSlug(c: string)
    requires forall i :: 0 <= i < |c| ==> IsSlugChar(c[i]) || c[i] == '-'
    requires forall i :: 0 <= i < |c| - 1 ==> c[i] != '-' || c[i + 1] != '-'
    ensures IsSlug(TrimDashes(c))
  {
    var a := if c != [] && c[0] == '-' then c[1..] else c;
    assert a == c[|c| - |a|..];
    var r := TrimDashes(c);
    assert r == a[..|r|];
    if r != [] {
      assert r[0] == c[|c| - |a|];
      if |c| - |a| == 1 {
        assert c[0] == '-';
      }
      if |r| < |a| {
        assert a[|a| - 1] == '-' && r[|r| - 1] == a[|a| - 2];
      }
    }
  }

  /** A slug is its own collapse. */
  lemma {:induction false} CollapseFixesSlugText(x: string)
    requires forall i :: 0 <= i < |x| ==> IsSlugChar(x[i]) || x[i] == '-'
    requires forall i :: 0 <= i < |x| - 1 ==> x[i] != '-' || x[i + 1] != '-'
    ensures CollapseRuns(x) == x
    decreases |x|
  {
    if x != [] {
      if IsSlugChar(x[0]) {
        CollapseFixesSlugText(x[1..]);
      } else {
        assert DropRun(x) == x[1..] by {
          if |x| > 1 {
            assert IsSlugChar(x[1]);
            assert DropRun(x[1..]) == x[1..];
          }
        }
        CollapseFixesSlugText(x[1..]);
      }
    }
  }

  /** Slugify leaves a non-empty slug as it is, provided the decomposition
      leaves that plain-ASCII string alone. */
  lemma SlugifyFixesSlugs(x: string, decompose: string -> string)
    requires IsSlug(x) && x != [] && decompose(x) == x
    ensures Slugify(Some(x), decompose) == x
  {
    LowerFixesSlug(x);
    assert decompose(Lower(x)) == x;
    SlugHasNoMarks(x);
    assert Filter(decompose(Lower(x)), NotMark()) == x;
    CollapseFixesSlugText(x);
    assert x[0] != '-' && x[|x| - 1] != '-';
    assert TrimDashes(x) == x;
  }

  lemma LowerFixesSlug(x: string)
    requires forall i :: 0 <= i < |x| ==> IsSlugChar(x[i]) || x[i] == '-'
    ensures Lower(x) == x
  {
    forall i | 0 <= i < |x| ensures Lower(x)[i] == x[i] {
      assert IsSlugChar(x[i]) || x[i] == '-';
    }
  }

  lemma SlugHasNoMarks(x: string)
    requires forall i :: 0 <= i < |x| ==> IsSlugChar(x[i]) || x[i] == '-'
    ensures Filter(x, NotMark()) == x
  {
    forall i | 0 <= i < |x| ensures NotMark()(x[i]) {
      assert IsSlugChar(x[i]) || x[i] == '-';
    }
    FilterAll(x, NotMark());
  }

  /** `getValidSubjectSlug`: the slug when it names a subject, else "toan". */
  function ValidSubjectSlug(s: Option<string>, decompose: string -> string): (r: string)
    ensures r in SubjectSlugs
    ensures Slugify(s, decompose) in SubjectSlugs ==> r == Slugify(s, decompose)
    ensures Slugify(s, decompose) !in SubjectSlugs ==> r == DefaultSlug
    ensures s.None? ==> r == DefaultSlug
  {
    var sl := Slugify(s, decompose);
    if sl in SubjectSlugs then sl else DefaultSlug
  }

  lemma SubjectSlugsAreSlugs()
    ensures forall i :: 0 <= i < |SubjectSlugs| ==> IsSlug(SubjectSlugs[i]) && SubjectSlugs[i] != []
  {
    DefaultSlugIsSlug();
    var t := SubjectSlugs[1];
    assert forall i :: 0 <= i < |t| ==> IsSlugChar(t[i]) || t[i] == '-';
  }

  /** Coercing an already coerced subject changes nothing. */
  lemma ValidSubjectSlugIdempotent(s: Option<string>, decompose: string -> string)
    requires forall i :: 0 <= i < |SubjectSlugs| ==> decompose(SubjectSlugs[i]) == SubjectSlugs[i]
    ensures ValidSubjectSlug(Some(ValidSubjectSlug(s, decompose)), decompose) == ValidSubjectSlug(s, decompose)
  {
    var v := ValidSubjectSlug(s, decompose);
    SubjectSlugsAreSlugs();
    var i :| 0 <= i < |SubjectSlugs| && SubjectSlugs[i] == v;
    SlugifyFixesSlugs(v, decompose);
  }

  // ===================== Quick summary and topics =====================

  /** The four points to remember for each subject, in a fixed order. */
  function QuickSummary(subject: string): (r: seq<string>)
    ensures subject in SubjectSlugs ==> |r| == 4
    ensures subject !in SubjectSlugs ==> r == []
  {
    if subject == "toan" then ["Nhận dạng dạng bài", "Công thức then chốt", "Các bước giải", "Lỗi hay mắc"]
    else if subject == "tieng-anh" then ["Quy tắc", "Ví dụ", "3 câu luyện", "Mẹo đọc/ngữ pháp"]
    else []
  }

  function TopicMatches(filter: string): string -> bool {
    (t: string) => Contains(Lower(t), Lower(filter))
  }

  /** The topic list: the syllabus topics whose lowercased name contains the
      lowercased filter. The syllabus itself is a parameter. */
  function Topics(syllabus: seq<string>, filter: string): seq<string> {
    Filter(syllabus, TopicMatches(filter))
  }

  /** The topics shown are drawn from the syllabus in order, exactly the
      matching ones, and an empty filter shows them all. */
  lemma TopicsSpec(syllabus: seq<string>, filter: string)
    ensures IsSubsequence(Topics(syllabus, filter), syllabus)
    ensures forall t :: t in Topics(syllabus, filter) <==> t in syllabus && Contains(Lower(t), Lower(filter))
    ensures filter == [] ==> Topics(syllabus, filter) == syllabus
  {
    var p := TopicMatches(filter);
    FilterIsSubsequence(syllabus, p);
    forall t ensures t in Topics(syllabus, filter) <==> t in syllabus && Contains(Lower(t), Lower(filter)) {
      if t in syllabus && Contains(Lower(t), Lower(filter)) {
        var i :| 0 <= i < |syllabus| && syllabus[i] == t;
        assert p(syllabus[i]);
      }
      if t in Topics(syllabus, filter) {
        var i :| 0 <= i < |Topics(syllabus, filter)| && Topics(syllabus, filter)[i] == t;
        assert p(t);
      }
    }
    if filter == [] {
      forall i | 0 <= i < |syllabus| ensures p(syllabus[i]) {
        ContainsEmpty(Lower(syllabus[i]));
      }
      FilterAll(syllabus, p);
    }
  }
}
