/**
 * The configuration tables of the board and competitive-exam paper
 * generator: boards with their codes, classes and subjects, and the
 * competitive exams. Python dictionaries are kept as lists of (key, value)
 * entries in insertion order, which is the order the generator walks them.
 */
module BoardTables {
  import opened Common

  /** A subject's entry; `sections` is None where the entry has no "sections" key. */
  datatype SubjectConfig = SubjectConfig(totalMarks: nat, duration: string, sections: Option<seq<string>>)

  /** A board code's entry: its full name, its classes, and class -> subject -> configuration. */
  datatype BoardConfig = BoardConfig(fullName: string, classes: seq<string>,
                                     subjects: seq<(string, seq<(string, SubjectConfig)>)>)

  /** board name -> board code -> configuration. */
  type BoardTable = seq<(string, seq<(string, BoardConfig)>)>

  datatype ExamConfig = ExamConfig(fullName: string, subjects: seq<string>, totalMarks: nat,
                                   duration: string, sections: seq<string>, paperType: string)

  function Marked(marks: nat, sections: seq<string>): SubjectConfig {
    SubjectConfig(marks, "3 hours", Some(sections))
  }

  const Abc: seq<string> := ["A", "B", "C"]
  const Abcde: seq<string> := ["A", "B", "C", "D", "E"]

  const Wbbse := BoardConfig("West Bengal Board of Secondary Education", ["Class 10"], [
    ("Class 10", [
      ("English", Marked(90, Abc)),
      ("Mathematics", Marked(90, Abc)),
      ("Science", Marked(90, ["Physics", "Chemistry", "Biology"])),
      ("History", Marked(90, Abc)),
      ("Geography", Marked(90, Abc))])])

  const Wbchse := BoardConfig("West Bengal Council of Higher Secondary Education", ["Class 12"], [
    ("Class 12", [
      ("English", Marked(100, Abc)),
      ("Mathematics", Marked(100, Abc)),
      ("Physics", Marked(100, Abc)),
      ("Chemistry", Marked(100, Abc)),
      ("Biology", Marked(100, Abc)),
      ("History", Marked(100, Abc)),
      ("Geography", Marked(100, Abc))])])

  const Cbse := BoardConfig("Central Board of Secondary Education", ["Class 10", "Class 12"], [
    ("Class 10", [
      ("English", Marked(80, Abc)),
      ("Mathematics", Marked(80, Abcde)),
      ("Science", Marked(80, Abcde)),
      ("Social Science", Marked(80, Abcde))]),
    ("Class 12", [
      ("English", Marked(80, Abc)),
      ("Mathematics", Marked(80, Abcde)),
      ("Physics", Marked(70, Abcde)),
      ("Chemistry", Marked(70, Abcde)),
      ("Biology", Marked(70, Abcde))])])

  /** `BOARDS`. */
  const Boards: BoardTable := [
    ("West Bengal Board", [("WBBSE", Wbbse), ("WBCHSE", Wbchse)]),
    ("CBSE", [("CBSE", Cbse)])
  ]

  const CompetitiveExams: seq<(string, ExamConfig)> := [
    ("JEE Main", ExamConfig("Joint Entrance Examination Main", ["Mathematics", "Physics", "Chemistry"],
                            300, "3 hours", ["Section A (MCQ)", "Section B (Numerical)"], "Paper 1 (B.E./B.Tech)")),
    ("JEE Advanced", ExamConfig("Joint Entrance Examination Advanced", ["Mathematics", "Physics", "Chemistry"],
                                360, "3 hours", ["Section 1", "Section 2", "Section 3"], "Paper 1")),
    ("NIT", ExamConfig("National Institute of Technology Entrance", ["Mathematics", "Physics", "Chemistry"],
                       300, "3 hours", ["Section A", "Section B"], "B.Tech Entrance")),
    ("WBJEE", ExamConfig("West Bengal Joint Entrance Examination", ["Mathematics", "Physics", "Chemistry"],
                         200, "2 hours", ["Category 1", "Category 2", "Category 3"], "Engineering Entrance"))
  ]

  /**
   * `BOARDS[board_name][board_code]` and then `["subjects"][class_level][subject]`
   * on the table `boards`: the board and subject entries, or the KeyError for
   * the first key missing.
   */
  function SubjectEntry(boards: BoardTable, boardName: string, boardCode: string, classLevel: string, subject: string)
    : (r: Result<(BoardConfig, SubjectConfig)>)
    ensures r.Err? ==> r.error == KeyError(boardName) || r.error == KeyError(boardCode)
                       || r.error == KeyError(classLevel) || r.error == KeyError(subject)
    ensures r.Ok? <==>
              (exists data: seq<(string, BoardConfig)>, config: BoardConfig, subjects: seq<(string, SubjectConfig)>, sc: SubjectConfig ::
                 Lookup(boards, boardName) == Some(data) && Lookup(data, boardCode) == Some(config)
                 && Lookup(config.subjects, classLevel) == Some(subjects) && Lookup(subjects, subject) == Some(sc))
  {
    match Lookup(boards, boardName)
    case None => Err(KeyError(boardName))
    case Some(data) =>
      match Lookup(data, boardCode)
      case None => Err(KeyError(boardCode))
      case Some(config) =>
        match Lookup(config.subjects, classLevel)
        case None => Err(KeyError(classLevel))
        case Some(subjects) =>
          match Lookup(subjects, subject)
          case None => Err(KeyError(subject))
          case Some(sc) => Ok((config, sc))
  }

  /** Every class a board code lists has a subject table, so the generator's own walk never raises. */
  predicate ClassesCovered(config: BoardConfig) {
    forall c :: 0 <= c < |config.classes| ==> Lookup(config.subjects, config.classes[c]).Some?
  }

  predicate TableCovered(boards: BoardTable) {
    forall b, i :: 0 <= b < |boards| && 0 <= i < |boards[b].1| ==> ClassesCovered(boards[b].1[i].1)
  }

  /** Every level of a board table has unique keys, as a Python dictionary has. */
  predicate TableDictionaries(boards: BoardTable) {
    UniqueKeys(boards)
    && (forall b :: 0 <= b < |boards| ==> UniqueKeys(boards[b].1))
    && (forall b, i :: 0 <= b < |boards| && 0 <= i < |boards[b].1| ==> UniqueKeys(boards[b].1[i].1.subjects))
    && (forall b, i, c :: 0 <= b < |boards| && 0 <= i < |boards[b].1| && 0 <= c < |boards[b].1[i].1.subjects| ==>
          UniqueKeys(boards[b].1[i].1.subjects[c].1))
  }

  /** A board code's own tables are dictionaries and cover its classes. */
  predicate ConfigSound(config: BoardConfig) {
    ClassesCovered(config) && UniqueKeys(config.subjects)
    && forall c :: 0 <= c < |config.subjects| ==> UniqueKeys(config.subjects[c].1)
  }

  lemma WbbseSound()
    ensures ConfigSound(Wbbse)
  {
  }

  lemma WbchseSound()
    ensures ConfigSound(Wbchse)
  {
  }

  lemma CbseSound()
    ensures ConfigSound(Cbse)
  {
  }

  /** The shipped board table is a proper nested dictionary and lists no class without subjects. */
  lemma ShippedBoardTable()
    ensures TableDictionaries(Boards) && TableCovered(Boards)
  {
    WbbseSound();
    WbchseSound();
    CbseSound();
  }
}
