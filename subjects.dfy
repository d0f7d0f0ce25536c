/** The fixed enumeration of subjects shared by the plan, the dashboards and
    the exam builder: Toán (mathematics) and Tiếng Anh (English), in that
    order. */
module Subjects {

  datatype Subject = Toan | TiengAnh

  /** SUBJECTS, in display order. */
  const AllSubjects: seq<Subject> := [Toan, TiengAnh]

  /** The display label used as the subject's value in the components. */
  function Label(s: Subject): (r: string)
    ensures r != []
  {
    match s
    case Toan => "Toán"
    case TiengAnh => "Tiếng Anh"
  }

  /** The labels are distinct, so a label identifies its subject. */
  lemma LabelInjective(a: Subject, b: Subject)
    requires Label(a) == Label(b)
    ensures a == b
  {
  }

  /** A reference to a knowledge unit of one subject. */
  datatype UnitRef = UnitRef(id: string, title: string, subject: Subject)

  /** The grade-9 class codes the dashboards accept. */
  const ClassOptions: seq<string> := ["9A", "9B", "9C", "9D", "9E", "9G", "9P"]
}
