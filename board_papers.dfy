/**
 * One paper of the board and competitive-exam generator: where the file
 * goes, which table entries it needs, and the paragraphs it renders.
 *
 * The renderer only receives paragraph texts here; spacers, the information
 * table and the footer are not part of the paragraph lists.
 */
module BoardPapers {
  import opened Common
  import opened Text
  import opened Seqs
  import opened BoardTables

  const OutputDir := "question-papers"

  /** A rendered paper: the file it goes to and its paragraphs in order. */
  datatype Paper = Paper(path: string, paragraphs: seq<string>)

  // ---------------------------------------------------------------------------
  // Board papers
  // ---------------------------------------------------------------------------

  /** `output_dir/boards/<board>/<class>/<subject>/<year>`, names dashed, joined level by level. */
  function BoardYearDir(outputDir: string, boardName: string, classLevel: string, subject: string, year: int): string {
    PathJoinAll(outputDir, ["boards", Dashed(boardName), Dashed(classLevel), Dashed(subject), IntToString(year)])
  }

  function BoardFileName(boardCode: string, classLevel: string, subject: string, year: int): string {
    boardCode + "-" + Dashed(classLevel) + "-" + Dashed(subject) + "-" + IntToString(year) + ".pdf"
  }

  function BoardFilePath(outputDir: string, boardName: string, boardCode: string, classLevel: string,
                         subject: string, year: int): string {
    PathJoin(BoardYearDir(outputDir, boardName, classLevel, subject, year),
             BoardFileName(boardCode, classLevel, subject, year))
  }

  /**
   * For plain components the board paper is
   * output_dir/boards/<board>/<class>/<subject>/<year>/<code>-<class>-<subject>-<year>.pdf
   * with every space in the names turned into a dash.
   */
  lemma BoardFilePathShape(outputDir: string, boardName: string, boardCode: string, classLevel: string,
                           subject: string, year: int)
    requires Plain(outputDir) && Plain(boardName) && Plain(boardCode) && Plain(classLevel) && Plain(subject)
    ensures BoardFilePath(outputDir, boardName, boardCode, classLevel, subject, year)
            == outputDir + "/" + Join(["boards", Dashed(boardName), Dashed(classLevel), Dashed(subject),
                                       IntToString(year), BoardFileName(boardCode, classLevel, subject, year)], "/")
  {
    var parts := ["boards", Dashed(boardName), Dashed(classLevel), Dashed(subject), IntToString(year)];
    var name := BoardFileName(boardCode, classLevel, subject, year);
    DashedPlain(boardName);
    DashedPlain(classLevel);
    DashedPlain(subject);
    IntToStringPlain(year);
    assert name[0] == boardCode[0] && name[|name| - 1] == 'f';
    PathJoinAllAppend(outputDir, parts, [name]);
    assert parts + [name] == ["boards", Dashed(boardName), Dashed(classLevel), Dashed(subject), IntToString(year), name];
    PathJoinAllPlain(outputDir, parts + [name]);
  }

  const BoardInstructions: seq<string> := [
    "1. This question paper contains multiple sections.",
    "2. All questions are compulsory.",
    "3. Read all questions carefully before answering.",
    "4. Write your answers clearly and legibly.",
    "5. Use black or blue pen only.",
    "6. Check your answers before submitting."
  ]

  /** The sections used when a subject's entry has no "sections" key. */
  const DefaultSections: seq<string> := ["A", "B", "C"]

  /** `subject_config.get('sections', ['A', 'B', 'C'])`. */
  function SectionNames(sc: SubjectConfig): seq<string> {
    match sc.sections
    case None => DefaultSections
    case Some(names) => names
  }

  /** Sample questions: board -> class -> subject -> "Section X" -> question texts. */
  type BoardSamples = map<string, map<string, map<string, map<string, seq<string>>>>>

  /** `SAMPLE_QUESTIONS.get(board_name, {}).get(class_level, {}).get(subject, {})`. */
  function SubjectSamples(samples: BoardSamples, boardName: string, classLevel: string, subject: string)
    : map<string, seq<string>>
  {
    if boardName in samples && classLevel in samples[boardName] && subject in samples[boardName][classLevel]
    then samples[boardName][classLevel][subject]
    else map[]
  }

  /** The stand-in for question `i` of a section without sample questions. */
  function GenericSectionQuestion(section: string, i: nat): string {
    QLine(i, ". [Question " + NatToString(i) + " for Section " + section + "]")
  }

  /** The sample list of "Section <section>" when it is present and non-empty, else three stand-ins. */
  function SectionQuestions(questions: map<string, seq<string>>, section: string): seq<string> {
    var key := "Section " + section;
    if key in questions && |questions[key]| > 0 then questions[key]
    else [GenericSectionQuestion(section, 1), GenericSectionQuestion(section, 2), GenericSectionQuestion(section, 3)]
  }

  function BoardSectionHeading(section: string): string {
    "<b>Section " + section + "</b>"
  }

  /** One section: its heading, then its questions. */
  function BoardSectionBlock(questions: map<string, seq<string>>, section: string): seq<string> {
    [BoardSectionHeading(section)] + SectionQuestions(questions, section)
  }

  function BoardSectionBlocks(questions: map<string, seq<string>>, sections: seq<string>): seq<seq<string>> {
    seq(|sections|, k requires 0 <= k < |sections| => BoardSectionBlock(questions, sections[k]))
  }

  /** The two title lines, the instruction heading and the six instructions. */
  function BoardFront(config: BoardConfig, classLevel: string, subject: string, year: int): seq<string> {
    ["<b>" + config.fullName + "</b>",
     "<b>" + classLevel + " - " + subject + " Question Paper " + IntToString(year) + "</b>",
     "<b>General Instructions:</b>"] + BoardInstructions
  }

  function BoardStory(config: BoardConfig, sc: SubjectConfig, questions: map<string, seq<string>>,
                      classLevel: string, subject: string, year: int): seq<string> {
    BoardFront(config, classLevel, subject, year) + Concat(BoardSectionBlocks(questions, SectionNames(sc)))
  }

  /** `create_board_question_paper`: the paper, or the KeyError of the first table lookup that misses. */
  function BoardPaper(boards: BoardTable, samples: BoardSamples, outputDir: string, boardName: string,
                      boardCode: string, classLevel: string, subject: string, year: int): Result<Paper>
  {
    match SubjectEntry(boards, boardName, boardCode, classLevel, subject)
    case Err(e) => Err(e)
    case Ok((config, sc)) =>
      Ok(Paper(BoardFilePath(outputDir, boardName, boardCode, classLevel, subject, year),
               BoardStory(config, sc, SubjectSamples(samples, boardName, classLevel, subject),
                          classLevel, subject, year)))
  }

  /** The path and story-building part of `create_board_question_paper`. */
  method CreateBoardQuestionPaper(boards: BoardTable, samples: BoardSamples, outputDir: string,
                                  boardName: string, boardCode: string, classLevel: string,
                                  subject: string, year: int)
    returns (r: Result<Paper>)
    ensures r == BoardPaper(boards, samples, outputDir, boardName, boardCode, classLevel, subject, year)
  {
    var filepath := BoardFilePath(outputDir, boardName, boardCode, classLevel, subject, year);
    var entry := SubjectEntry(boards, boardName, boardCode, classLevel, subject);
    if entry.Err? {
      return Err(entry.error);
    }
    var (config, sc) := entry.value;
    var story := BoardFront(config, classLevel, subject, year);
    var body := BuildBoardSections(SubjectSamples(samples, boardName, classLevel, subject), SectionNames(sc));
    return Ok(Paper(filepath, story + body));
  }

  /** The sections of a board paper, one after the other. */
  method BuildBoardSections(questions: map<string, seq<string>>, sections: seq<string>) returns (body: seq<string>)
    ensures body == Concat(BoardSectionBlocks(questions, sections))
  {
    body := [];
    ghost var blocks := BoardSectionBlocks(questions, sections);
    for k := 0 to |sections|
      invariant body == Concat(blocks[..k])
    {
      var block := BuildBoardSection(questions, sections[k]);
      ConcatNext(blocks, k);
      body := body + block;
    }
    assert blocks[..|sections|] == blocks;
  }

  /** One section: the heading, then the sample questions or the three stand-ins. */
  method BuildBoardSection(questions: map<string, seq<string>>, section: string) returns (block: seq<string>)
    ensures block == BoardSectionBlock(questions, section)
  {
    block := [BoardSectionHeading(section)];
    var key := "Section " + section;
    var sectionQuestions := if key in questions then questions[key] else [];
    if |sectionQuestions| == 0 {
      for i := 1 to 4
        invariant block == BoardSectionBlock(questions, section)[..i]
      {
        block := block + [GenericSectionQuestion(section, i)];
      }
    } else {
      block := AppendEach(block, sectionQuestions);
    }
  }

  /**
   * A board paper fails exactly when one of the four table lookups misses,
   * and then with the KeyError of that key.
   */
  lemma BoardPaperErrors(boards: BoardTable, samples: BoardSamples, outputDir: string, boardName: string,
                         boardCode: string, classLevel: string, subject: string, year: int)
    ensures var r := BoardPaper(boards, samples, outputDir, boardName, boardCode, classLevel, subject, year);
            (r.Err? <==> SubjectEntry(boards, boardName, boardCode, classLevel, subject).Err?)
            && (r.Err? ==> r.error == KeyError(boardName) || r.error == KeyError(boardCode)
                           || r.error == KeyError(classLevel) || r.error == KeyError(subject))
            && (r.Ok? ==> r.value.path == BoardFilePath(outputDir, boardName, boardCode, classLevel, subject, year))
  {
  }

  /** A section always starts with its heading and holds at least one question. */
  lemma BoardSectionShape(questions: map<string, seq<string>>, section: string)
    ensures var block := BoardSectionBlock(questions, section);
            |block| >= 2 && block[0] == BoardSectionHeading(section)
            && (("Section " + section) !in questions || |questions["Section " + section]| == 0 ==>
                  |block| == 4 && forall i :: 1 <= i <= 3 ==> block[i] == GenericSectionQuestion(section, i))
  {
  }

  /** The stand-ins of one section are pairwise different. */
  lemma GenericSectionQuestionsDistinct(section: string, i: nat, j: nat)
    requires i != j
    ensures GenericSectionQuestion(section, i) != GenericSectionQuestion(section, j)
  {
    if GenericSectionQuestion(section, i) == GenericSectionQuestion(section, j) {
      var x := ". [Question " + NatToString(i) + " for Section " + section + "]";
      var y := ". [Question " + NatToString(j) + " for Section " + section + "]";
      assert x[0] == '.' && y[0] == '.';
      QLineInjective(i, x, j, y);
    }
  }

  /**
   * The board paper opens with nine fixed paragraphs and then the sections in
   * order; for a subject without sample questions each section is four
   * paragraphs, so section `k` starts at `9 + 4 * k`.
   */
  lemma BoardStoryLayout(config: BoardConfig, sc: SubjectConfig, questions: map<string, seq<string>>,
                         classLevel: string, subject: string, year: int)
    ensures var story := BoardStory(config, sc, questions, classLevel, subject, year);
            |story| >= 9 + 2 * |SectionNames(sc)|
            && story[..9] == BoardFront(config, classLevel, subject, year)
            && story[9..] == Concat(BoardSectionBlocks(questions, SectionNames(sc)))
    ensures questions == map[] ==>
              |BoardStory(config, sc, questions, classLevel, subject, year)| == 9 + 4 * |SectionNames(sc)|
  {
    var sections := SectionNames(sc);
    var blocks := BoardSectionBlocks(questions, sections);
    forall k | 0 <= k < |blocks|
      ensures |blocks[k]| >= 2 * 1
    {
      BoardSectionShape(questions, sections[k]);
    }
    ConcatAtLeast(blocks, 2);
    if questions == map[] {
      forall k | 0 <= k < |blocks|
        ensures |blocks[k]| == 4
      {
        BoardSectionShape(questions, sections[k]);
      }
      ConcatLength(blocks, 4);
    }
  }

  /** Section `k` of a subject without sample questions: heading at `4 * k`, stand-ins after it. */
  lemma BoardSectionAt(sc: SubjectConfig, k: nat, i: nat)
    requires k < |SectionNames(sc)| && 1 <= i <= 3
    ensures var sections, names := Concat(BoardSectionBlocks(map[], SectionNames(sc))), SectionNames(sc);
            4 * k + i < |sections|
            && sections[4 * k] == BoardSectionHeading(names[k])
            && sections[4 * k + i] == GenericSectionQuestion(names[k], i)
  {
    var names := SectionNames(sc);
    var blocks := BoardSectionBlocks(map[], names);
    forall j | 0 <= j < |blocks|
      ensures |blocks[j]| == 4
    {
      BoardSectionShape(map[], names[j]);
    }
    BoardSectionShape(map[], names[k]);
    ConcatAt(blocks, 4, k, 0);
    ConcatAt(blocks, 4, k, i);
  }

  /** A subject entry without "sections" gets sections A, B and C. */
  lemma DefaultSectionsUsed(config: BoardConfig, sc: SubjectConfig, classLevel: string, subject: string, year: int)
    requires sc.sections.None?
    ensures |BoardStory(config, sc, map[], classLevel, subject, year)| == 21
    ensures Concat(BoardSectionBlocks(map[], SectionNames(sc)))[0] == "<b>Section A</b>"
  {
    BoardStoryLayout(config, sc, map[], classLevel, subject, year);
    BoardSectionAt(sc, 0, 1);
  }

  // ---------------------------------------------------------------------------
  // Competitive-exam papers
  // ---------------------------------------------------------------------------

  /** `output_dir/competitive/<exam>/<subject>/<year>`, names dashed. */
  function ExamYearDir(outputDir: string, examName: string, subject: string, year: int): string {
    PathJoinAll(outputDir, ["competitive", Dashed(examName), Dashed(subject), IntToString(year)])
  }

  /** The file name dashes the exam name but keeps the subject as it is. */
  function ExamFileName(examName: string, subject: string, year: int): string {
    Dashed(examName) + "-" + subject + "-" + IntToString(year) + ".pdf"
  }

  function ExamFilePath(outputDir: string, examName: string, subject: string, year: int): string {
    PathJoin(ExamYearDir(outputDir, examName, subject, year), ExamFileName(examName, subject, year))
  }

  /**
   * For plain components the exam paper is
   * output_dir/competitive/<exam>/<subject>/<year>/<exam>-<subject>-<year>.pdf;
   * the subject directory is dashed, the subject in the file name is not.
   */
  lemma ExamFilePathShape(outputDir: string, examName: string, subject: string, year: int)
    requires Plain(outputDir) && Plain(examName) && Plain(subject)
    ensures ExamFilePath(outputDir, examName, subject, year)
            == outputDir + "/" + Join(["competitive", Dashed(examName), Dashed(subject), IntToString(year),
                                       ExamFileName(examName, subject, year)], "/")
    ensures ' ' in subject ==> ' ' in ExamFileName(examName, subject, year) && ' ' !in Dashed(subject)
  {
    var parts := ["competitive", Dashed(examName), Dashed(subject), IntToString(year)];
    var name := ExamFileName(examName, subject, year);
    DashedPlain(examName);
    DashedPlain(subject);
    IntToStringPlain(year);
    assert name[0] == Dashed(examName)[0] && name[|name| - 1] == 'f';
    PathJoinAllAppend(outputDir, parts, [name]);
    assert parts + [name] == ["competitive", Dashed(examName), Dashed(subject), IntToString(year), name];
    PathJoinAllPlain(outputDir, parts + [name]);
    if ' ' in subject {
      var i :| 0 <= i < |subject| && subject[i] == ' ';
      assert name[|Dashed(examName)| + 1 + i] == ' ';
    }
  }

  const ExamInstructions: seq<string> := [
    "1. This question paper contains multiple choice and numerical type questions.",
    "2. Read all instructions carefully.",
    "3. Mark your answers on the OMR sheet (if applicable).",
    "4. Negative marking may apply for wrong answers.",
    "5. Use black or blue pen only."
  ]

  /** Sample questions for the competitive exams: exam -> subject -> question texts. */
  type ExamSamples = map<string, map<string, seq<string>>>

  /** The stand-in for question `i` of a subject without sample questions. */
  function GenericExamQuestion(subject: string, i: nat): string {
    QLine(i, ". [Question " + NatToString(i) + " for " + subject + "]")
  }

  /** The sample list when it is non-empty, else ten stand-ins Q1 .. Q10. */
  function ExamQuestions(samples: ExamSamples, examName: string, subject: string): seq<string> {
    var qs := if examName in samples && subject in samples[examName] then samples[examName][subject] else [];
    if |qs| > 0 then qs else seq(10, i requires 0 <= i < 10 => GenericExamQuestion(subject, i + 1))
  }

  /** The two title lines, the instruction heading, the five instructions and the questions heading. */
  function ExamFront(config: ExamConfig, subject: string, year: int): seq<string> {
    ["<b>" + config.fullName + "</b>", "<b>" + subject + " - " + IntToString(year) + "</b>",
     "<b>Instructions:</b>"] + ExamInstructions + ["<b>" + subject + " Questions</b>"]
  }

  /** `create_competitive_exam_paper`: the paper, or the KeyError for an unknown exam. */
  function ExamPaper(exams: seq<(string, ExamConfig)>, samples: ExamSamples, outputDir: string,
                     examName: string, subject: string, year: int): Result<Paper>
  {
    match Lookup(exams, examName)
    case None => Err(KeyError(examName))
    case Some(config) =>
      Ok(Paper(ExamFilePath(outputDir, examName, subject, year),
               ExamFront(config, subject, year) + ExamQuestions(samples, examName, subject)))
  }

  /** The path and story-building part of `create_competitive_exam_paper`. */
  method CreateCompetitiveExamPaper(exams: seq<(string, ExamConfig)>, samples: ExamSamples, outputDir: string,
                                    examName: string, subject: string, year: int)
    returns (r: Result<Paper>)
    ensures r == ExamPaper(exams, samples, outputDir, examName, subject, year)
  {
    var filepath := ExamFilePath(outputDir, examName, subject, year);
    var config := Lookup(exams, examName);
    if config.None? {
      return Err(KeyError(examName));
    }
    var story := ExamFront(config.value, subject, year);
    var questions := if examName in samples && subject in samples[examName] then samples[examName][subject] else [];
    if |questions| > 0 {
      story := AppendEach(story, questions);
    } else {
      story := AppendGenericExamQuestions(story, subject);
    }
    return Ok(Paper(filepath, story));
  }

  /** The loop over `range(1, 11)` for a subject without sample questions. */
  method AppendGenericExamQuestions(front: seq<string>, subject: string) returns (story: seq<string>)
    ensures story == front + seq(10, i requires 0 <= i < 10 => GenericExamQuestion(subject, i + 1))
  {
    ghost var generic := seq(10, i requires 0 <= i < 10 => GenericExamQuestion(subject, i + 1));
    story := front;
    for i := 1 to 11
      invariant story == front + generic[..i - 1]
    {
      story := story + [GenericExamQuestion(subject, i)];
      assert generic[..i] == generic[..i - 1] + [generic[i - 1]];
    }
    assert generic[..10] == generic;
  }

  /**
   * An exam paper fails only for an exam missing from the table; otherwise it
   * holds nine fixed paragraphs, then the sample questions of the subject, or
   * ten pairwise different stand-ins when there are none.
   */
  lemma ExamPaperShape(exams: seq<(string, ExamConfig)>, samples: ExamSamples, outputDir: string,
                       examName: string, subject: string, year: int)
    ensures var r := ExamPaper(exams, samples, outputDir, examName, subject, year);
            (r.Err? <==> forall i :: 0 <= i < |exams| ==> exams[i].0 != examName)
            && (r.Err? ==> r.error == KeyError(examName))
            && (r.Ok? ==> r.value.paragraphs[9..] == ExamQuestions(samples, examName, subject)
                          && |r.value.paragraphs| == 9 + |ExamQuestions(samples, examName, subject)|)
    ensures var qs := ExamQuestions(samples, examName, subject);
            |qs| >= 1
            && ((examName !in samples || subject !in samples[examName] || |samples[examName][subject]| == 0) ==>
                  |qs| == 10 && forall i, j :: 0 <= i < j < 10 ==> qs[i] != qs[j])
  {
    var qs := ExamQuestions(samples, examName, subject);
    if examName !in samples || subject !in samples[examName] || |samples[examName][subject]| == 0 {
      forall i, j | 0 <= i < j < 10
        ensures qs[i] != qs[j]
      {
        GenericExamQuestionsDistinct(subject, i + 1, j + 1);
      }
    }
  }

  lemma GenericExamQuestionsDistinct(subject: string, i: nat, j: nat)
    requires i != j
    ensures GenericExamQuestion(subject, i) != GenericExamQuestion(subject, j)
  {
    if GenericExamQuestion(subject, i) == GenericExamQuestion(subject, j) {
      var x := ". [Question " + NatToString(i) + " for " + subject + "]";
      var y := ". [Question " + NatToString(j) + " for " + subject + "]";
      assert x[0] == '.' && y[0] == '.';
      QLineInjective(i, x, j, y);
    }
  }

}
