/**
 * One run of the board and competitive-exam generator: every board, code,
 * class, subject and year in table order, then every exam, subject and year;
 * a paper whose creation raises is skipped and the run goes on.
 */
module BoardRun {
  import opened Common
  import opened Seqs
  import opened BoardTables
  import opened BoardPapers

  /** One paper the run asks for. */
  datatype Job =
    | BoardJob(board: string, code: string, classLevel: string, subject: string, year: int)
    | ExamJob(exam: string, subject: string, year: int)

  /** One entry of `generated_files`: what was asked for and the file written. */
  datatype PaperRecord = PaperRecord(job: Job, filepath: string)

  /** The tables a run reads: the configuration and the sample questions. */
  datatype Tables = Tables(boards: BoardTable, exams: seq<(string, ExamConfig)>,
                           boardSamples: BoardSamples, examSamples: ExamSamples)

  // ---------------------------------------------------------------------------
  // The jobs, in the order of the nested loops
  // ---------------------------------------------------------------------------

  function SubjectJobs(board: string, code: string, classLevel: string, subject: string, years: seq<int>)
    : seq<Job>
  {
    seq(|years|, k requires 0 <= k < |years| => BoardJob(board, code, classLevel, subject, years[k]))
  }

  function ClassJobs(board: string, code: string, classLevel: string, subjects: seq<(string, SubjectConfig)>,
                     years: seq<int>): seq<Job>
  {
    Concat(seq(|subjects|, s requires 0 <= s < |subjects| => SubjectJobs(board, code, classLevel, subjects[s].0, years)))
  }

  /** `board_config["subjects"][class_level]` for a class the code lists. */
  function ClassSubjects(config: BoardConfig, c: nat): seq<(string, SubjectConfig)>
    requires c < |config.classes| && ClassesCovered(config)
  {
    Lookup(config.subjects, config.classes[c]).value
  }

  function CodeJobs(board: string, code: string, config: BoardConfig, years: seq<int>): seq<Job>
    requires ClassesCovered(config)
  {
    Concat(seq(|config.classes|, c requires 0 <= c < |config.classes| =>
                 ClassJobs(board, code, config.classes[c], ClassSubjects(config, c), years)))
  }

  predicate CodesCovered(codes: seq<(string, BoardConfig)>) {
    forall i :: 0 <= i < |codes| ==> ClassesCovered(codes[i].1)
  }

  function BoardNameJobs(board: string, codes: seq<(string, BoardConfig)>, years: seq<int>): seq<Job>
    requires CodesCovered(codes)
  {
    Concat(seq(|codes|, i requires 0 <= i < |codes| => CodeJobs(board, codes[i].0, codes[i].1, years)))
  }

  function BoardJobs(boards: BoardTable, years: seq<int>): seq<Job>
    requires TableCovered(boards)
  {
    Concat(seq(|boards|, b requires 0 <= b < |boards| => BoardNameJobs(boards[b].0, boards[b].1, years)))
  }

  function ExamSubjectJobs(exam: string, subject: string, years: seq<int>): seq<Job> {
    seq(|years|, k requires 0 <= k < |years| => ExamJob(exam, subject, years[k]))
  }

  function ExamNameJobs(exam: string, config: ExamConfig, years: seq<int>): seq<Job> {
    Concat(seq(|config.subjects|, s requires 0 <= s < |config.subjects| =>
                 ExamSubjectJobs(exam, config.subjects[s], years)))
  }

  function ExamJobs(exams: seq<(string, ExamConfig)>, years: seq<int>): seq<Job> {
    Concat(seq(|exams|, e requires 0 <= e < |exams| => ExamNameJobs(exams[e].0, exams[e].1, years)))
  }

  // ---------------------------------------------------------------------------
  // What each job yields
  // ---------------------------------------------------------------------------

  /** The paper a job produces, or the exception its creation raises from the tables. */
  function Outcome(t: Tables, job: Job): Result<Paper> {
    match job
    case BoardJob(board, code, classLevel, subject, year) =>
      BoardPaper(t.boards, t.boardSamples, OutputDir, board, code, classLevel, subject, year)
    case ExamJob(exam, subject, year) =>
      ExamPaper(t.exams, t.examSamples, OutputDir, exam, subject, year)
  }

  /**
   * The records a job adds: one when its paper is built and written, none
   * when a lookup raises or `fails(job)` says that writing the file raised.
   */
  function Attempt(t: Tables, job: Job, fails: Job -> bool): seq<PaperRecord> {
    match Outcome(t, job)
    case Err(_) => []
    case Ok(paper) => if fails(job) then [] else [PaperRecord(job, paper.path)]
  }

  /** The records of a run over `jobs`, in order. */
  function Records(t: Tables, jobs: seq<Job>, fails: Job -> bool): seq<PaperRecord> {
    FlatMap(job => Attempt(t, job, fails), jobs)
  }

  lemma RecordsAppend(t: Tables, a: seq<Job>, b: seq<Job>, fails: Job -> bool)
    ensures Records(t, a + b, fails) == Records(t, a, fails) + Records(t, b, fails)
  {
    FlatMapAppend(job => Attempt(t, job, fails), a, b);
  }

  /** The step of a loop over blocks of jobs. */
  lemma RecordsStep(t: Tables, blocks: seq<seq<Job>>, i: nat, fails: Job -> bool)
    requires i < |blocks|
    ensures Records(t, Concat(blocks[..i + 1]), fails) == Records(t, Concat(blocks[..i]), fails) + Records(t, blocks[i], fails)
  {
    ConcatNext(blocks, i);
    RecordsAppend(t, Concat(blocks[..i]), blocks[i], fails);
  }

  lemma RecordsSnoc(t: Tables, jobs: seq<Job>, job: Job, fails: Job -> bool)
    ensures Records(t, jobs + [job], fails) == Records(t, jobs, fails) + Attempt(t, job, fails)
  {
    FlatMapSnoc(job => Attempt(t, job, fails), jobs, job);
  }

  /** The step of a loop over jobs. */
  lemma RecordsNext(t: Tables, jobs: seq<Job>, k: nat, fails: Job -> bool)
    requires k < |jobs|
    ensures Records(t, jobs[..k + 1], fails) == Records(t, jobs[..k], fails) + Attempt(t, jobs[k], fails)
  {
    assert jobs[..k + 1] == jobs[..k] + [jobs[k]];
    RecordsSnoc(t, jobs[..k], jobs[k], fails);
  }

  // ---------------------------------------------------------------------------
  // The run
  // ---------------------------------------------------------------------------

  /** One `try` block of the run: create the paper and record it, or skip it when creation raises. */
  method RunJob(t: Tables, job: Job, fails: Job -> bool) returns (added: seq<PaperRecord>)
    ensures added == Attempt(t, job, fails)
  {
    var r: Result<Paper>;
    match job {
      case BoardJob(board, code, classLevel, subject, year) =>
        r := CreateBoardQuestionPaper(t.boards, t.boardSamples, OutputDir, board, code, classLevel, subject, year);
      case ExamJob(exam, subject, year) =>
        r := CreateCompetitiveExamPaper(t.exams, t.examSamples, OutputDir, exam, subject, year);
    }
    if r.Ok? && !fails(job) {
      added := [PaperRecord(job, r.value.path)];
    } else {
      added := [];
    }
  }

  /** The year loop of one board subject. */
  method GenerateSubject(t: Tables, board: string, code: string, classLevel: string, subject: string,
                         years: seq<int>, fails: Job -> bool)
    returns (records: seq<PaperRecord>)
    ensures records == Records(t, SubjectJobs(board, code, classLevel, subject, years), fails)
  {
    records := [];
    ghost var jobs := SubjectJobs(board, code, classLevel, subject, years);
    for k := 0 to |years|
      invariant records == Records(t, jobs[..k], fails)
    {
      var job := BoardJob(board, code, classLevel, subject, years[k]);
      var added := RunJob(t, job, fails);
      records := records + added;
      RecordsNext(t, jobs, k, fails);
    }
    assert jobs[..|years|] == jobs;
  }

  /** The subject loop of one class. */
  method GenerateClass(t: Tables, board: string, code: string, classLevel: string,
                       subjects: seq<(string, SubjectConfig)>, years: seq<int>, fails: Job -> bool)
    returns (records: seq<PaperRecord>)
    ensures records == Records(t, ClassJobs(board, code, classLevel, subjects, years), fails)
  {
    records := [];
    ghost var blocks := seq(|subjects|, s requires 0 <= s < |subjects| => SubjectJobs(board, code, classLevel, subjects[s].0, years));
    for s := 0 to |subjects|
      invariant records == Records(t, Concat(blocks[..s]), fails)
    {
      var more := GenerateSubject(t, board, code, classLevel, subjects[s].0, years, fails);
      RecordsStep(t, blocks, s, fails);
      records := records + more;
    }
    assert blocks[..|subjects|] == blocks;
  }

  /** The class loop of one board code. */
  method GenerateCode(t: Tables, board: string, code: string, config: BoardConfig, years: seq<int>,
                      fails: Job -> bool)
    returns (records: seq<PaperRecord>)
    requires ClassesCovered(config)
    ensures records == Records(t, CodeJobs(board, code, config, years), fails)
  {
    records := [];
    ghost var blocks := seq(|config.classes|, c requires 0 <= c < |config.classes| =>
                              ClassJobs(board, code, config.classes[c], ClassSubjects(config, c), years));
    for c := 0 to |config.classes|
      invariant records == Records(t, Concat(blocks[..c]), fails)
    {
      var subjects := Lookup(config.subjects, config.classes[c]);
      var more := GenerateClass(t, board, code, config.classes[c], subjects.value, years, fails);
      RecordsStep(t, blocks, c, fails);
      records := records + more;
    }
    assert blocks[..|config.classes|] == blocks;
  }

  /** The code loop of one board. */
  method GenerateBoard(t: Tables, board: string, codes: seq<(string, BoardConfig)>, years: seq<int>,
                       fails: Job -> bool)
    returns (records: seq<PaperRecord>)
    requires CodesCovered(codes)
    ensures records == Records(t, BoardNameJobs(board, codes, years), fails)
  {
    records := [];
    ghost var blocks := seq(|codes|, i requires 0 <= i < |codes| => CodeJobs(board, codes[i].0, codes[i].1, years));
    for i := 0 to |codes|
      invariant records == Records(t, Concat(blocks[..i]), fails)
    {
      var more := GenerateCode(t, board, codes[i].0, codes[i].1, years, fails);
      RecordsStep(t, blocks, i, fails);
      records := records + more;
    }
    assert blocks[..|codes|] == blocks;
  }

  /** The subject and year loops of one exam. */
  method GenerateExam(t: Tables, exam: string, config: ExamConfig, years: seq<int>, fails: Job -> bool)
    returns (records: seq<PaperRecord>)
    ensures records == Records(t, ExamNameJobs(exam, config, years), fails)
  {
    records := [];
    ghost var blocks := seq(|config.subjects|, s requires 0 <= s < |config.subjects| =>
                              ExamSubjectJobs(exam, config.subjects[s], years));
    for s := 0 to |config.subjects|
      invariant records == Records(t, Concat(blocks[..s]), fails)
    {
      var more := GenerateExamSubject(t, exam, config.subjects[s], years, fails);
      RecordsStep(t, blocks, s, fails);
      records := records + more;
    }
    assert blocks[..|config.subjects|] == blocks;
  }

  /** The year loop of one exam subject. */
  method GenerateExamSubject(t: Tables, exam: string, subject: string, years: seq<int>, fails: Job -> bool)
    returns (records: seq<PaperRecord>)
    ensures records == Records(t, ExamSubjectJobs(exam, subject, years), fails)
  {
    records := [];
    ghost var jobs := ExamSubjectJobs(exam, subject, years);
    for k := 0 to |years|
      invariant records == Records(t, jobs[..k], fails)
    {
      var job := ExamJob(exam, subject, years[k]);
      var added := RunJob(t, job, fails);
      records := records + added;
      RecordsNext(t, jobs, k, fails);
    }
    assert jobs[..|years|] == jobs;
  }

  /** The board loop of the run. */
  method GenerateBoards(t: Tables, years: seq<int>, fails: Job -> bool) returns (records: seq<PaperRecord>)
    requires TableCovered(t.boards)
    ensures records == Records(t, BoardJobs(t.boards, years), fails)
  {
    records := [];
    var boards := t.boards;
    ghost var blocks := seq(|boards|, b requires 0 <= b < |boards| => BoardNameJobs(boards[b].0, boards[b].1, years));
    assert Concat(blocks) == BoardJobs(boards, years);
    for b := 0 to |boards|
      invariant records == Records(t, Concat(blocks[..b]), fails)
    {
      var more := GenerateBoard(t, boards[b].0, boards[b].1, years, fails);
      RecordsStep(t, blocks, b, fails);
      records := records + more;
    }
    assert blocks[..|boards|] == blocks;
  }

  /** The exam loop of the run. */
  method GenerateExams(t: Tables, years: seq<int>, fails: Job -> bool) returns (records: seq<PaperRecord>)
    ensures records == Records(t, ExamJobs(t.exams, years), fails)
  {
    records := [];
    var exams := t.exams;
    ghost var blocks := seq(|exams|, e requires 0 <= e < |exams| => ExamNameJobs(exams[e].0, exams[e].1, years));
    assert Concat(blocks) == ExamJobs(exams, years);
    for e := 0 to |exams|
      invariant records == Records(t, Concat(blocks[..e]), fails)
    {
      var more := GenerateExam(t, exams[e].0, exams[e].1, years, fails);
      RecordsStep(t, blocks, e, fails);
      records := records + more;
    }
    assert blocks[..|exams|] == blocks;
  }

  /** `generate_all_board_papers(years)`, without the metadata file it writes. */
  method GenerateAllBoardPapers(t: Tables, years: seq<int>, fails: Job -> bool)
    returns (generatedFiles: seq<PaperRecord>)
    requires TableCovered(t.boards)
    ensures generatedFiles == Records(t, BoardJobs(t.boards, years) + ExamJobs(t.exams, years), fails)
  {
    var boardRecords := GenerateBoards(t, years, fails);
    var examRecords := GenerateExams(t, years, fails);
    RecordsAppend(t, BoardJobs(t.boards, years), ExamJobs(t.exams, years), fails);
    generatedFiles := boardRecords + examRecords;
  }

  // ---------------------------------------------------------------------------
  // What a run writes
  // ---------------------------------------------------------------------------

  /** Every record is for a job of the run that was built and not failed, with the path of its paper. */
  lemma RecordsAreSuccesses(t: Tables, jobs: seq<Job>, fails: Job -> bool)
    ensures forall r :: r in Records(t, jobs, fails) ==>
              r.job in jobs && !fails(r.job) && Outcome(t, r.job).Ok? && Outcome(t, r.job).value.path == r.filepath
  {
    forall r | r in Records(t, jobs, fails)
      ensures r.job in jobs && !fails(r.job) && Outcome(t, r.job).Ok? && Outcome(t, r.job).value.path == r.filepath
    {
      var i := FlatMapMember(job => Attempt(t, job, fails), jobs, r);
      assert r in Attempt(t, jobs[i], fails);
    }
  }

  /** When every job is built and none fails, record `i` is job `i` with its paper's path. */
  lemma RecordsAllSucceed(t: Tables, jobs: seq<Job>, fails: Job -> bool)
    requires forall i :: 0 <= i < |jobs| ==> Outcome(t, jobs[i]).Ok? && !fails(jobs[i])
    ensures |Records(t, jobs, fails)| == |jobs|
    ensures forall i :: 0 <= i < |jobs| ==>
              Records(t, jobs, fails)[i] == PaperRecord(jobs[i], Outcome(t, jobs[i]).value.path)
  {
    var f := job => Attempt(t, job, fails);
    forall i | 0 <= i < |jobs| ensures f(jobs[i]) == [PaperRecord(jobs[i], Outcome(t, jobs[i]).value.path)] {
    }
    FlatMapSingletons(f, jobs);
  }

  /** A board job whose four table lookups all succeed. */
  predicate Resolves(boards: BoardTable, job: Job) {
    job.BoardJob? && SubjectEntry(boards, job.board, job.code, job.classLevel, job.subject).Ok?
  }

  lemma ClassJobsResolve(boards: BoardTable, codes: seq<(string, BoardConfig)>, config: BoardConfig,
                         board: string, code: string, classLevel: string,
                         subjects: seq<(string, SubjectConfig)>, years: seq<int>)
    requires Lookup(boards, board) == Some(codes) && Lookup(codes, code) == Some(config)
    requires Lookup(config.subjects, classLevel) == Some(subjects)
    ensures forall job :: job in ClassJobs(board, code, classLevel, subjects, years) ==> Resolves(boards, job)
  {
    var blocks := seq(|subjects|, s requires 0 <= s < |subjects| => SubjectJobs(board, code, classLevel, subjects[s].0, years));
    forall job | job in ClassJobs(board, code, classLevel, subjects, years)
      ensures Resolves(boards, job)
    {
      ConcatMember(blocks, job);
      var s :| 0 <= s < |blocks| && job in blocks[s];
      assert job.subject == subjects[s].0;
      assert Lookup(subjects, subjects[s].0).Some?;
    }
  }

  lemma CodeJobsResolve(boards: BoardTable, codes: seq<(string, BoardConfig)>, board: string, code: string,
                        config: BoardConfig, years: seq<int>)
    requires Lookup(boards, board) == Some(codes) && Lookup(codes, code) == Some(config) && ClassesCovered(config)
    ensures forall job :: job in CodeJobs(board, code, config, years) ==> Resolves(boards, job)
  {
    var blocks := seq(|config.classes|, c requires 0 <= c < |config.classes| =>
                        ClassJobs(board, code, config.classes[c], ClassSubjects(config, c), years));
    forall job | job in CodeJobs(board, code, config, years)
      ensures Resolves(boards, job)
    {
      ConcatMember(blocks, job);
      var c :| 0 <= c < |blocks| && job in blocks[c];
      ClassJobsResolve(boards, codes, config, board, code, config.classes[c], ClassSubjects(config, c), years);
    }
  }

  lemma BoardNameJobsResolve(boards: BoardTable, board: string, codes: seq<(string, BoardConfig)>, years: seq<int>)
    requires Lookup(boards, board) == Some(codes) && UniqueKeys(codes) && CodesCovered(codes)
    ensures forall job :: job in BoardNameJobs(board, codes, years) ==> Resolves(boards, job)
  {
    var blocks := seq(|codes|, i requires 0 <= i < |codes| => CodeJobs(board, codes[i].0, codes[i].1, years));
    forall job | job in BoardNameJobs(board, codes, years)
      ensures Resolves(boards, job)
    {
      ConcatMember(blocks, job);
      var i :| 0 <= i < |blocks| && job in blocks[i];
      LookupEntry(codes, i);
      CodeJobsResolve(boards, codes, board, codes[i].0, codes[i].1, years);
    }
  }

  /** In a table that is a proper nested dictionary, every board job of the run finds its entries. */
  lemma BoardJobsResolve(boards: BoardTable, years: seq<int>)
    requires TableDictionaries(boards) && TableCovered(boards)
    ensures forall job :: job in BoardJobs(boards, years) ==> Resolves(boards, job)
  {
    var blocks := seq(|boards|, b requires 0 <= b < |boards| => BoardNameJobs(boards[b].0, boards[b].1, years));
    forall job | job in BoardJobs(boards, years)
      ensures Resolves(boards, job)
    {
      ConcatMember(blocks, job);
      var b :| 0 <= b < |blocks| && job in blocks[b];
      LookupEntry(boards, b);
      BoardNameJobsResolve(boards, boards[b].0, boards[b].1, years);
    }
  }

  /** Every exam job of the run names an exam of the table. */
  lemma ExamJobsResolve(exams: seq<(string, ExamConfig)>, years: seq<int>)
    ensures forall job :: job in ExamJobs(exams, years) ==> job.ExamJob? && Lookup(exams, job.exam).Some?
  {
    var blocks := seq(|exams|, e requires 0 <= e < |exams| => ExamNameJobs(exams[e].0, exams[e].1, years));
    forall job | job in ExamJobs(exams, years)
      ensures job.ExamJob? && Lookup(exams, job.exam).Some?
    {
      ConcatMember(blocks, job);
      var e :| 0 <= e < |blocks| && job in blocks[e];
      var inner := seq(|exams[e].1.subjects|, s requires 0 <= s < |exams[e].1.subjects| =>
                         ExamSubjectJobs(exams[e].0, exams[e].1.subjects[s], years));
      ConcatMember(inner, job);
      assert job.exam == exams[e].0;
    }
  }

  // ---------------------------------------------------------------------------
  // How many papers a run writes
  // ---------------------------------------------------------------------------

  /** The number of subjects of each class of a board code. */
  function CodeCounts(config: BoardConfig): seq<nat>
    requires ClassesCovered(config)
  {
    seq(|config.classes|, c requires 0 <= c < |config.classes| => |ClassSubjects(config, c)|)
  }

  function BoardNameCounts(codes: seq<(string, BoardConfig)>): seq<nat>
    requires CodesCovered(codes)
  {
    seq(|codes|, i requires 0 <= i < |codes| => Sum(CodeCounts(codes[i].1)))
  }

  /** The number of (board, code, class, subject) combinations the run walks. */
  function BoardSubjectCount(boards: BoardTable): nat
    requires TableCovered(boards)
  {
    Sum(BoardCounts(boards))
  }

  function BoardCounts(boards: BoardTable): seq<nat>
    requires TableCovered(boards)
  {
    seq(|boards|, b requires 0 <= b < |boards| => Sum(BoardNameCounts(boards[b].1)))
  }

  /** The number of (exam, subject) combinations the run walks. */
  function ExamSubjectCount(exams: seq<(string, ExamConfig)>): nat {
    Sum(ExamCounts(exams))
  }

  function ExamCounts(exams: seq<(string, ExamConfig)>): seq<nat> {
    seq(|exams|, e requires 0 <= e < |exams| => |exams[e].1.subjects|)
  }

  lemma CodeJobsCount(board: string, code: string, config: BoardConfig, years: seq<int>)
    requires ClassesCovered(config)
    ensures |CodeJobs(board, code, config, years)| == Sum(CodeCounts(config)) * |years|
  {
    var blocks := seq(|config.classes|, c requires 0 <= c < |config.classes| =>
                        ClassJobs(board, code, config.classes[c], ClassSubjects(config, c), years));
    forall c | 0 <= c < |blocks|
      ensures |blocks[c]| == CodeCounts(config)[c] * |years|
    {
      var subjects := ClassSubjects(config, c);
      ConcatLength(seq(|subjects|, s requires 0 <= s < |subjects| =>
                         SubjectJobs(board, code, config.classes[c], subjects[s].0, years)), |years|);
    }
    ConcatScaled(blocks, CodeCounts(config), |years|);
  }

  /** The run asks for one board paper per combination and year. */
  lemma BoardJobsCount(boards: BoardTable, years: seq<int>)
    requires TableCovered(boards)
    ensures |BoardJobs(boards, years)| == BoardSubjectCount(boards) * |years|
  {
    var blocks := seq(|boards|, b requires 0 <= b < |boards| => BoardNameJobs(boards[b].0, boards[b].1, years));
    var counts := BoardCounts(boards);
    forall b | 0 <= b < |blocks|
      ensures |blocks[b]| == counts[b] * |years|
    {
      var codes := boards[b].1;
      var inner := seq(|codes|, i requires 0 <= i < |codes| => CodeJobs(boards[b].0, codes[i].0, codes[i].1, years));
      forall i | 0 <= i < |inner|
        ensures |inner[i]| == BoardNameCounts(codes)[i] * |years|
      {
        CodeJobsCount(boards[b].0, codes[i].0, codes[i].1, years);
      }
      ConcatScaled(inner, BoardNameCounts(codes), |years|);
    }
    ConcatScaled(blocks, counts, |years|);
  }

  lemma ExamNameJobsCount(exam: string, config: ExamConfig, years: seq<int>)
    ensures |ExamNameJobs(exam, config, years)| == |config.subjects| * |years|
  {
    var blocks := seq(|config.subjects|, s requires 0 <= s < |config.subjects| =>
                        ExamSubjectJobs(exam, config.subjects[s], years));
    forall s | 0 <= s < |blocks|
      ensures |blocks[s]| == |years|
    {
      assert blocks[s] == ExamSubjectJobs(exam, config.subjects[s], years);
    }
    ConcatLength(blocks, |years|);
  }

  /** The run asks for one exam paper per combination and year. */
  lemma ExamJobsCount(exams: seq<(string, ExamConfig)>, years: seq<int>)
    ensures |ExamJobs(exams, years)| == ExamSubjectCount(exams) * |years|
  {
    var blocks := seq(|exams|, e requires 0 <= e < |exams| => ExamNameJobs(exams[e].0, exams[e].1, years));
    var counts := ExamCounts(exams);
    forall e | 0 <= e < |blocks|
      ensures |blocks[e]| == counts[e] * |years|
    {
      ExamNameJobsCount(exams[e].0, exams[e].1, years);
    }
    ConcatScaled(blocks, counts, |years|);
  }

  /**
   * Without write failures, a run over a proper table writes one paper per
   * board combination and year and one per exam combination and year, and
   * `total_papers` is that number.
   */
  lemma RunWithoutFailures(t: Tables, years: seq<int>, fails: Job -> bool)
    requires TableDictionaries(t.boards) && TableCovered(t.boards)
    requires forall job :: !fails(job)
    ensures |Records(t, BoardJobs(t.boards, years) + ExamJobs(t.exams, years), fails)|
            == (BoardSubjectCount(t.boards) + ExamSubjectCount(t.exams)) * |years|
  {
    var jobs := BoardJobs(t.boards, years) + ExamJobs(t.exams, years);
    BoardJobsResolve(t.boards, years);
    ExamJobsResolve(t.exams, years);
    forall i | 0 <= i < |jobs|
      ensures Outcome(t, jobs[i]).Ok? && !fails(jobs[i])
    {
      assert jobs[i] in BoardJobs(t.boards, years) || jobs[i] in ExamJobs(t.exams, years);
    }
    RecordsAllSucceed(t, jobs, fails);
    BoardJobsCount(t.boards, years);
    ExamJobsCount(t.exams, years);
  }

  /** WBBSE lists 5 subjects for Class 10, WBCHSE 7 for Class 12, CBSE 4 and 5. */
  lemma ShippedCodeCounts()
    ensures ClassesCovered(Wbbse) && Sum(CodeCounts(Wbbse)) == 5
    ensures ClassesCovered(Wbchse) && Sum(CodeCounts(Wbchse)) == 7
    ensures ClassesCovered(Cbse) && Sum(CodeCounts(Cbse)) == 9
  {
    WbbseSound();
    WbchseSound();
    CbseSound();
    assert CodeCounts(Wbbse) == [5];
    assert [5][..0] == [];
    assert CodeCounts(Wbchse) == [7];
    assert [7][..0] == [];
    assert CodeCounts(Cbse) == [4, 5];
    SumPair(4, 5);
  }

  /** The shipped board table holds 21 (board, code, class, subject) combinations. */
  lemma ShippedBoardCount()
    ensures TableCovered(Boards) && BoardSubjectCount(Boards) == 21
  {
    ShippedBoardTable();
    ShippedCodeCounts();
    var west := [("WBBSE", Wbbse), ("WBCHSE", Wbchse)];
    var central := [("CBSE", Cbse)];
    assert BoardNameCounts(west) == [5, 7];
    SumPair(5, 7);
    assert BoardNameCounts(central) == [9];
    assert [9][..0] == [];
    assert BoardCounts(Boards) == [12, 9];
    SumPair(12, 9);
  }

  /** The shipped exam table holds 12 (exam, subject) combinations. */
  lemma ShippedExamCount()
    ensures ExamSubjectCount(CompetitiveExams) == 12
  {
    assert ExamCounts(CompetitiveExams) == [3, 3] + [3] + [3];
    SumPair(3, 3);
    SumSnoc([3, 3], 3);
    SumSnoc([3, 3] + [3], 3);
  }

  /**
   * `total_papers` for a run over the shipped tables without write failures:
   * 21 board papers and 12 exam papers per year.
   */
  lemma ShippedBoardRunCount(boardSamples: BoardSamples, examSamples: ExamSamples, years: seq<int>, fails: Job -> bool)
    requires forall job :: !fails(job)
    ensures TableCovered(Boards)
            && |Records(Tables(Boards, CompetitiveExams, boardSamples, examSamples),
                        BoardJobs(Boards, years) + ExamJobs(CompetitiveExams, years), fails)| == 33 * |years|
  {
    ShippedBoardTable();
    ShippedBoardCount();
    ShippedExamCount();
    RunWithoutFailures(Tables(Boards, CompetitiveExams, boardSamples, examSamples), years, fails);
  }

  /** The years `generate_all_board_papers` walks when called without arguments. */
  const DefaultYears: seq<int> := [2020, 2021, 2022, 2023, 2024, 2025]

  /** A default run over the shipped tables without failures writes 198 papers. */
  lemma DefaultBoardRunCount(boardSamples: BoardSamples, examSamples: ExamSamples, fails: Job -> bool)
    requires forall job :: !fails(job)
    ensures TableCovered(Boards)
            && |Records(Tables(Boards, CompetitiveExams, boardSamples, examSamples),
                        BoardJobs(Boards, DefaultYears) + ExamJobs(CompetitiveExams, DefaultYears), fails)| == 198
  {
    ShippedBoardRunCount(boardSamples, examSamples, DefaultYears, fails);
  }
}
