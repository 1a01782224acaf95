/**
 * The class-wise question-paper generator: the template table, the numbered
 * sample questions of a section, the paragraphs of a question paper and of its
 * answer key, where both files go, and the records of one generation run.
 *
 * The renderer only receives paragraph texts here; spacers, the information
 * table and the footer are not part of the paragraph lists.
 */
module QuestionPapers {
  import opened Common
  import opened Text
  import opened Seqs

  // ---------------------------------------------------------------------------
  // Templates
  // ---------------------------------------------------------------------------

  datatype Template = Template(subjects: seq<string>, questionsPerSubject: nat,
                               marksPerQuestion: nat, totalMarks: nat)

  /** The template table, in the order the generator walks it. */
  const QuestionTemplates: seq<(string, Template)> := [
    ("Class 1", Template(["English", "Mathematics", "General Knowledge"], 10, 1, 30)),
    ("Class 2", Template(["English", "Mathematics", "Science", "General Knowledge"], 15, 1, 60)),
    ("Class 3", Template(["English", "Mathematics", "Science", "Social Studies"], 20, 1, 80)),
    ("Class 4", Template(["English", "Mathematics", "Science", "Social Studies"], 25, 1, 100)),
    ("Class 5", Template(["English", "Mathematics", "Science", "Social Studies"], 25, 2, 200)),
    ("Class 6", Template(["English", "Mathematics", "Science", "Social Studies"], 30, 2, 240)),
    ("Class 7", Template(["English", "Mathematics", "Science", "Social Studies"], 30, 2, 240)),
    ("Class 8", Template(["English", "Mathematics", "Science", "Social Studies"], 30, 2, 240)),
    ("Class 9", Template(["English", "Mathematics", "Science", "Social Studies"], 40, 2, 320)),
    ("Class 10", Template(["English", "Mathematics", "Science", "Social Studies"], 50, 2, 400)),
    ("Class 11", Template(["English", "Mathematics", "Physics", "Chemistry", "Biology"], 30, 3, 450)),
    ("Class 12", Template(["English", "Mathematics", "Physics", "Chemistry", "Biology"], 30, 3, 450))
  ]

  /** Every template's total marks is subjects x questions per subject x marks per question. */
  lemma TemplatesConsistent()
    ensures forall i :: 0 <= i < |QuestionTemplates| ==>
              var t := QuestionTemplates[i].1;
              t.totalMarks == |t.subjects| * t.questionsPerSubject * t.marksPerQuestion
  {
  }

  // ---------------------------------------------------------------------------
  // Sample questions
  // ---------------------------------------------------------------------------

  /** class -> subject -> question texts. */
  type SampleTable = map<string, map<string, seq<string>>>

  /** `SAMPLE_QUESTIONS.get(class_level, {}).get(subject, [])`. */
  function BaseQuestions(samples: SampleTable, classLevel: string, subject: string): seq<string> {
    if classLevel in samples && subject in samples[classLevel] then samples[classLevel][subject] else []
  }

  /** A numbered list item: the number, ". ", then the text. */
  function Numbered(n: nat, text: string): string {
    NatToString(n) + ". " + text
  }

  /** A numbered item splits back into its number and its text. */
  lemma NumberedParts(n: nat, text: string)
    ensures var q, d := Numbered(n, text), NatToString(n);
            |q| == |d| + 2 + |text| && q[..|d|] == d && q[|d|..|d| + 2] == ". " && q[|d| + 2..] == text
  {
  }

  /** Equal numbered items have equal numbers and equal texts. */
  lemma NumberedInjective(m: nat, x: string, n: nat, y: string)
    requires Numbered(m, x) == Numbered(n, y)
    ensures m == n && x == y
  {
    var a, b := NatToString(m), NatToString(n);
    assert Numbered(m, x) == a + (". " + x);
    assert Numbered(n, y) == b + (". " + y);
    DigitsPrefixUnique(a, ". " + x, b, ". " + y);
    NatToStringInjective(m, n);
    assert x == (". " + x)[2..];
  }

  /** The stand-in text for a question the sample table does not have. */
  function Placeholder(subject: string, n: nat): string {
    "[Sample Question " + NatToString(n) + " for " + subject + "]"
  }

  /** Item `i` (from 0) of a subject's list: the base text while the list lasts, else a placeholder; numbered `i + 1`. */
  function SampleQuestion(base: seq<string>, subject: string, i: nat): string {
    Numbered(i + 1, if i < |base| then base[i] else Placeholder(subject, i + 1))
  }

  /** `generate_sample_questions(class_level, subject, count)`. */
  method GenerateSampleQuestions(samples: SampleTable, classLevel: string, subject: string, count: int)
    returns (questions: seq<string>)
    ensures |questions| == if count < 0 then 0 else count
    ensures forall i :: 0 <= i < |questions| ==>
              questions[i] == SampleQuestion(BaseQuestions(samples, classLevel, subject), subject, i)
  {
    questions := [];
    var base := BaseQuestions(samples, classLevel, subject);
    // `range(count)` is empty for a negative count
    var n := if count < 0 then 0 else count;
    for i := 0 to n
      invariant |questions| == i
      invariant forall k :: 0 <= k < i ==> questions[k] == SampleQuestion(base, subject, k)
    {
      var q: string;
      if i < |base| {
        q := Numbered(i + 1, base[i]);
      } else {
        q := Numbered(i + 1, Placeholder(subject, i + 1));
      }
      assert q == SampleQuestion(base, subject, i);
      questions := questions + [q];
    }
  }

  /** Items at different positions differ, whatever the base texts are. */
  lemma SampleQuestionsDistinct(base: seq<string>, subject: string, i: nat, j: nat)
    requires i != j
    ensures SampleQuestion(base, subject, i) != SampleQuestion(base, subject, j)
  {
    if SampleQuestion(base, subject, i) == SampleQuestion(base, subject, j) {
      NumberedInjective(i + 1, if i < |base| then base[i] else Placeholder(subject, i + 1),
                        j + 1, if j < |base| then base[j] else Placeholder(subject, j + 1));
    }
  }

  /** Item `i` carries the number `i + 1`, then the base text or, past its end, the placeholder. */
  lemma SampleQuestionText(base: seq<string>, subject: string, i: nat)
    ensures var q, d := SampleQuestion(base, subject, i), NatToString(i + 1);
            q[..|d|] == d && q[|d|..|d| + 2] == ". "
            && (i < |base| ==> q[|d| + 2..] == base[i])
            && (i >= |base| ==> q[|d| + 2..] == Placeholder(subject, i + 1))
  {
    NumberedParts(i + 1, if i < |base| then base[i] else Placeholder(subject, i + 1));
  }

  /** A class or subject missing from the sample table gets placeholders only. */
  lemma UnknownSubjectAllPlaceholders(samples: SampleTable, classLevel: string, subject: string, i: nat)
    requires classLevel !in samples || subject !in samples[classLevel]
    ensures var q := SampleQuestion(BaseQuestions(samples, classLevel, subject), subject, i);
            q[|NatToString(i + 1)| + 2..] == Placeholder(subject, i + 1)
  {
    SampleQuestionText(BaseQuestions(samples, classLevel, subject), subject, i);
  }

  // ---------------------------------------------------------------------------
  // Where the files go
  // ---------------------------------------------------------------------------

  const OutputDir := "question-papers"

  /** `os.path.join(os.path.join(output_dir, <class dashed>), str(year))`. */
  function YearDir(outputDir: string, classLevel: string, year: int): string {
    PathJoinAll(outputDir, [Dashed(classLevel), IntToString(year)])
  }

  function QuestionPaperName(classLevel: string, year: int): string {
    Dashed(classLevel) + "-Question-Paper-" + IntToString(year) + ".pdf"
  }

  function AnswerKeyName(classLevel: string, year: int): string {
    Dashed(classLevel) + "-Answer-Key-" + IntToString(year) + ".pdf"
  }

  /** The path `create_question_paper` writes to. */
  function QuestionPaperPath(outputDir: string, classLevel: string, year: int): string {
    PathJoin(YearDir(outputDir, classLevel, year), QuestionPaperName(classLevel, year))
  }

  /** The path `create_answer_key` writes to. */
  function AnswerKeyPath(outputDir: string, classLevel: string, year: int): string {
    PathJoin(YearDir(outputDir, classLevel, year), AnswerKeyName(classLevel, year))
  }

  /** A file name that starts with the dashed class and ends in ".pdf" is a plain component. */
  lemma FileNamePlain(classLevel: string, middle: string, year: int)
    requires |classLevel| > 0 && classLevel[0] != '/'
    ensures Plain(Dashed(classLevel) + middle + IntToString(year) + ".pdf")
  {
    var name := Dashed(classLevel) + middle + IntToString(year) + ".pdf";
    assert name[0] == Dashed(classLevel)[0];
    assert name[|name| - 1] == 'f';
  }

  /**
   * For a plain output directory and a class that neither starts nor ends with
   * "/", the paper is output_dir/<class dashed>/<year>/<class dashed>-Question-Paper-<year>.pdf
   * and the key sits beside it as <class dashed>-Answer-Key-<year>.pdf.
   */
  lemma PaperPaths(outputDir: string, classLevel: string, year: int)
    requires Plain(outputDir) && Plain(classLevel)
    ensures QuestionPaperPath(outputDir, classLevel, year)
            == outputDir + "/" + Join([Dashed(classLevel), IntToString(year), QuestionPaperName(classLevel, year)], "/")
    ensures AnswerKeyPath(outputDir, classLevel, year)
            == outputDir + "/" + Join([Dashed(classLevel), IntToString(year), AnswerKeyName(classLevel, year)], "/")
  {
    var c, y := Dashed(classLevel), IntToString(year);
    DashedPlain(classLevel);
    IntToStringPlain(year);
    FileNamePlain(classLevel, "-Question-Paper-", year);
    FileNamePlain(classLevel, "-Answer-Key-", year);
    var dir := YearDir(outputDir, classLevel, year);
    PathJoinAllPlain(outputDir, [c, y]);
    PathJoinAllPlain(outputDir, [c, y, QuestionPaperName(classLevel, year)]);
    PathJoinAllPlain(outputDir, [c, y, AnswerKeyName(classLevel, year)]);
    PathJoinAllAppend(outputDir, [c, y], [QuestionPaperName(classLevel, year)]);
    PathJoinAllAppend(outputDir, [c, y], [AnswerKeyName(classLevel, year)]);
    assert [c, y] + [QuestionPaperName(classLevel, year)] == [c, y, QuestionPaperName(classLevel, year)];
    assert [c, y] + [AnswerKeyName(classLevel, year)] == [c, y, AnswerKeyName(classLevel, year)];
  }

  /** Joining one directory with two names that start alike gives different paths for different names. */
  lemma PathJoinDistinct(dir: string, a: string, b: string)
    requires |a| > 0 && |b| > 0 && a[0] == b[0] && a != b
    ensures PathJoin(dir, a) != PathJoin(dir, b)
  {
    if a[0] != '/' && !(|dir| == 0 || dir[|dir| - 1] == '/') {
      assert (dir + "/" + a)[|dir| + 1..] == a;
      assert (dir + "/" + b)[|dir| + 1..] == b;
    } else if a[0] != '/' {
      assert (dir + a)[|dir|..] == a;
      assert (dir + b)[|dir|..] == b;
    }
  }

  /** The paper and its answer key never overwrite each other. */
  lemma PaperAndKeyDiffer(outputDir: string, classLevel: string, year: int)
    ensures QuestionPaperPath(outputDir, classLevel, year) != AnswerKeyPath(outputDir, classLevel, year)
  {
    var c, y := Dashed(classLevel), IntToString(year);
    var q, a := QuestionPaperName(classLevel, year), AnswerKeyName(classLevel, year);
    assert q == c + ("-Question-Paper-" + y + ".pdf");
    assert a == c + ("-Answer-Key-" + y + ".pdf");
    assert q[|c| + 1] == 'Q' && a[|c| + 1] == 'A';
    assert q[0] == a[0];
    PathJoinDistinct(YearDir(outputDir, classLevel, year), q, a);
  }

  // ---------------------------------------------------------------------------
  // The paragraphs of a question paper
  // ---------------------------------------------------------------------------

  const QuestionPaperInstructions: seq<string> := [
    "1. All questions are compulsory.",
    "2. Read all questions carefully before answering.",
    "3. Write your answers clearly and legibly.",
    "4. Check your answers before submitting.",
    "5. Use black or blue pen only."
  ]

  /** Python's `xs.index(x)`: the first position holding `x`. */
  function FirstIndex(xs: seq<string>, x: string): (r: nat)
    requires x in xs
    ensures r < |xs| && xs[r] == x
    ensures forall j :: 0 <= j < r ==> xs[j] != x
  {
    if xs[0] == x then 0
    else
      var r := FirstIndex(xs[1..], x);
      assert forall j :: 1 <= j <= r ==> xs[j] == xs[1..][j - 1];
      r + 1
  }

  /** The heading of the section for `subjects[k]`; its number comes from `index`, so a repeated subject reuses the first number. */
  function SectionHeading(subjects: seq<string>, k: nat): string
    requires k < |subjects|
  {
    "<b>Section " + NatToString(FirstIndex(subjects, subjects[k]) + 1) + ": " + subjects[k] + "</b>"
  }

  /** With distinct subjects, as in every shipped template, section `k` is numbered `k + 1`. */
  lemma SectionNumbers(subjects: seq<string>, k: nat)
    requires k < |subjects|
    requires forall i, j :: 0 <= i < j < |subjects| ==> subjects[i] != subjects[j]
    ensures SectionHeading(subjects, k) == "<b>Section " + NatToString(k + 1) + ": " + subjects[k] + "</b>"
  {
    var r := FirstIndex(subjects, subjects[k]);
    assert r == k;
  }

  /** The sample-question list for `count` items, as `generate_sample_questions` returns it. */
  function SampleQuestions(samples: SampleTable, classLevel: string, subject: string, count: nat): seq<string> {
    seq(count, i requires 0 <= i < count => SampleQuestion(BaseQuestions(samples, classLevel, subject), subject, i))
  }

  /** The section of subject `k`: its heading, then its questions. */
  function SectionBlock(samples: SampleTable, classLevel: string, subjects: seq<string>, n: nat, k: nat): seq<string>
    requires k < |subjects|
  {
    [SectionHeading(subjects, k)] + SampleQuestions(samples, classLevel, subjects[k], n)
  }

  /** The sections for `subjects`, `n` questions each. */
  function SectionBlocks(samples: SampleTable, classLevel: string, subjects: seq<string>, n: nat): seq<seq<string>> {
    seq(|subjects|, k requires 0 <= k < |subjects| => SectionBlock(samples, classLevel, subjects, n, k))
  }

  function QuestionPaperTitle(classLevel: string, year: int): string {
    "<b>" + classLevel + " - Question Paper " + IntToString(year) + "</b>"
  }

  /** The paragraphs of the paper for a class whose template is `t`. */
  function QuestionPaperStory(samples: SampleTable, classLevel: string, year: int, t: Template): seq<string> {
    [QuestionPaperTitle(classLevel, year), "<b>General Instructions:</b>"] + QuestionPaperInstructions
    + Concat(SectionBlocks(samples, classLevel, t.subjects, t.questionsPerSubject))
  }

  /** The paragraphs `create_question_paper` renders, or the KeyError for an unknown class. */
  function QuestionPaperParagraphs(samples: SampleTable, classLevel: string, year: int): Result<seq<string>> {
    match Lookup(QuestionTemplates, classLevel)
    case None => Err(KeyError(classLevel))
    case Some(t) => Ok(QuestionPaperStory(samples, classLevel, year, t))
  }

  /** The story-building part of `create_question_paper`. */
  method CreateQuestionPaper(samples: SampleTable, classLevel: string, year: int)
    returns (r: Result<seq<string>>)
    ensures r == QuestionPaperParagraphs(samples, classLevel, year)
  {
    var template := Lookup(QuestionTemplates, classLevel);
    if template.None? {
      return Err(KeyError(classLevel));
    }
    var story := BuildQuestionPaper(samples, classLevel, year, template.value);
    return Ok(story);
  }

  /** The paragraphs of one paper: title and instructions, then section after section. */
  method BuildQuestionPaper(samples: SampleTable, classLevel: string, year: int, t: Template)
    returns (story: seq<string>)
    ensures story == QuestionPaperStory(samples, classLevel, year, t)
  {
    story := AppendEach([QuestionPaperTitle(classLevel, year), "<b>General Instructions:</b>"],
                        QuestionPaperInstructions);
    var body := BuildSections(samples, classLevel, t);
    story := story + body;
  }

  /** The loop over the template's subjects: one section each. */
  method BuildSections(samples: SampleTable, classLevel: string, t: Template) returns (body: seq<string>)
    ensures body == Concat(SectionBlocks(samples, classLevel, t.subjects, t.questionsPerSubject))
  {
    body := [];
    ghost var blocks := SectionBlocks(samples, classLevel, t.subjects, t.questionsPerSubject);
    for k := 0 to |t.subjects|
      invariant body == Concat(blocks[..k])
    {
      var section := BuildSection(samples, classLevel, t, k);
      ConcatNext(blocks, k);
      body := body + section;
    }
    assert blocks[..|t.subjects|] == blocks;
  }

  /** One section: its heading, then its sample questions one by one. */
  method BuildSection(samples: SampleTable, classLevel: string, t: Template, k: nat) returns (section: seq<string>)
    requires k < |t.subjects|
    ensures section == SectionBlock(samples, classLevel, t.subjects, t.questionsPerSubject, k)
  {
    var questions := GenerateSampleQuestions(samples, classLevel, t.subjects[k], t.questionsPerSubject);
    assert questions == SampleQuestions(samples, classLevel, t.subjects[k], t.questionsPerSubject);
    section := AppendEach([SectionHeading(t.subjects, k)], questions);
  }

  /**
   * The paper opens with its title, the instruction heading and the five
   * instructions; the sections follow from paragraph 7 on.
   */
  lemma QuestionPaperFront(samples: SampleTable, classLevel: string, year: int, t: Template)
    ensures var story := QuestionPaperStory(samples, classLevel, year, t);
            |story| == 7 + |t.subjects| * (1 + t.questionsPerSubject)
            && story[0] == QuestionPaperTitle(classLevel, year)
            && story[1] == "<b>General Instructions:</b>"
            && story[2..7] == QuestionPaperInstructions
            && story[7..] == Concat(SectionBlocks(samples, classLevel, t.subjects, t.questionsPerSubject))
  {
    ConcatLength(SectionBlocks(samples, classLevel, t.subjects, t.questionsPerSubject), 1 + t.questionsPerSubject);
  }

  /** Every section holds its heading and `n` questions. */
  lemma SectionWidths(samples: SampleTable, classLevel: string, subjects: seq<string>, n: nat)
    ensures var blocks := SectionBlocks(samples, classLevel, subjects, n);
            forall j :: 0 <= j < |blocks| ==> |blocks[j]| == 1 + n
  {
  }

  /** In the sections, section `k` starts at `k * (1 + n)` with its heading. */
  lemma SectionHeadingAt(samples: SampleTable, classLevel: string, subjects: seq<string>, n: nat, k: nat)
    requires k < |subjects|
    ensures var sections := Concat(SectionBlocks(samples, classLevel, subjects, n));
            k * (1 + n) < |sections| && sections[k * (1 + n)] == SectionHeading(subjects, k)
  {
    SectionWidths(samples, classLevel, subjects, n);
    ConcatAt(SectionBlocks(samples, classLevel, subjects, n), 1 + n, k, 0);
  }

  /** Question `i` of section `k` follows that section's heading at offset `1 + i`. */
  lemma SectionQuestionAt(samples: SampleTable, classLevel: string, subjects: seq<string>, n: nat, k: nat, i: nat)
    requires k < |subjects| && i < n
    ensures k * (1 + n) + (1 + i) < |Concat(SectionBlocks(samples, classLevel, subjects, n))|
    ensures Concat(SectionBlocks(samples, classLevel, subjects, n))[k * (1 + n) + (1 + i)]
            == SampleQuestions(samples, classLevel, subjects[k], n)[i]
  {
    var blocks := SectionBlocks(samples, classLevel, subjects, n);
    var q := SampleQuestions(samples, classLevel, subjects[k], n)[i];
    SectionWidths(samples, classLevel, subjects, n);
    SectionItem(samples, classLevel, subjects, n, k, i);
    ConcatItem(blocks, 1 + n, k, 1 + i, q);
  }

  /** Item `1 + i` of section `k` is its question `i`. */
  lemma SectionItem(samples: SampleTable, classLevel: string, subjects: seq<string>, n: nat, k: nat, i: nat)
    requires k < |subjects| && i < n
    ensures SectionBlocks(samples, classLevel, subjects, n)[k][1 + i]
            == SampleQuestions(samples, classLevel, subjects[k], n)[i]
  {
    var questions := SampleQuestions(samples, classLevel, subjects[k], n);
    assert SectionBlocks(samples, classLevel, subjects, n)[k] == [SectionHeading(subjects, k)] + questions;
  }

  /** `QUESTION_TEMPLATES[class_level]` raises KeyError exactly for a class the table lacks. */
  lemma QuestionPaperKeyError(samples: SampleTable, classLevel: string, year: int)
    ensures QuestionPaperParagraphs(samples, classLevel, year).Err?
            <==> forall i :: 0 <= i < |QuestionTemplates| ==> QuestionTemplates[i].0 != classLevel
    ensures QuestionPaperParagraphs(samples, classLevel, year).Err? ==>
              QuestionPaperParagraphs(samples, classLevel, year).error == KeyError(classLevel)
  {
  }

  // ---------------------------------------------------------------------------
  // The paragraphs of an answer key
  // ---------------------------------------------------------------------------

  function AnswerHeading(subject: string): string {
    "<b>" + subject + " - Answers</b>"
  }

  function AnswerLine(subject: string, i: nat): string {
    QLine(i, ": [Answer " + NatToString(i) + " for " + subject + "]")
  }

  /** One subject's part: its heading, then Q1 .. Qn. */
  function AnswerBlock(subject: string, n: nat): seq<string> {
    [AnswerHeading(subject)] + seq(n, i requires 0 <= i < n => AnswerLine(subject, i + 1))
  }

  function AnswerBlocks(subjects: seq<string>, n: nat): seq<seq<string>> {
    seq(|subjects|, k requires 0 <= k < |subjects| => AnswerBlock(subjects[k], n))
  }

  function AnswerKeyTitle(classLevel: string, year: int): string {
    "<b>" + classLevel + " - Answer Key " + IntToString(year) + "</b>"
  }

  /** The paragraphs of the key for a class whose template is `t`. */
  function AnswerKeyStory(classLevel: string, year: int, t: Template): seq<string> {
    [AnswerKeyTitle(classLevel, year)] + Concat(AnswerBlocks(t.subjects, t.questionsPerSubject))
  }

  /** The paragraphs `create_answer_key` renders, or the KeyError for an unknown class. */
  function AnswerKeyParagraphs(classLevel: string, year: int): Result<seq<string>> {
    match Lookup(QuestionTemplates, classLevel)
    case None => Err(KeyError(classLevel))
    case Some(t) => Ok(AnswerKeyStory(classLevel, year, t))
  }

  /** The story-building part of `create_answer_key`. */
  method CreateAnswerKey(classLevel: string, year: int) returns (r: Result<seq<string>>)
    ensures r == AnswerKeyParagraphs(classLevel, year)
  {
    var template := Lookup(QuestionTemplates, classLevel);
    if template.None? {
      return Err(KeyError(classLevel));
    }
    var story := BuildAnswerKey(classLevel, year, template.value);
    return Ok(story);
  }

  /** The paragraphs of one key: the title, then subject after subject. */
  method BuildAnswerKey(classLevel: string, year: int, t: Template) returns (story: seq<string>)
    ensures story == AnswerKeyStory(classLevel, year, t)
  {
    var body := [];
    ghost var blocks := AnswerBlocks(t.subjects, t.questionsPerSubject);
    for k := 0 to |t.subjects|
      invariant body == Concat(blocks[..k])
    {
      var part := BuildAnswerBlock(t.subjects[k], t.questionsPerSubject);
      ConcatNext(blocks, k);
      body := body + part;
    }
    assert blocks[..|t.subjects|] == blocks;
    story := [AnswerKeyTitle(classLevel, year)] + body;
  }

  /** One subject's part: the heading, then the lines Q1 .. Qn. */
  method BuildAnswerBlock(subject: string, n: nat) returns (part: seq<string>)
    ensures part == AnswerBlock(subject, n)
  {
    part := [AnswerHeading(subject)];
    for i := 1 to n + 1
      invariant part == AnswerBlock(subject, n)[..i]
    {
      part := part + [AnswerLine(subject, i)];
    }
  }

  /** The key opens with its title; then come the subjects' parts of `n + 1` lines each. */
  lemma AnswerKeyFront(classLevel: string, year: int, t: Template)
    ensures var story := AnswerKeyStory(classLevel, year, t);
            |story| == 1 + |t.subjects| * (t.questionsPerSubject + 1)
            && story[0] == AnswerKeyTitle(classLevel, year)
            && story[1..] == Concat(AnswerBlocks(t.subjects, t.questionsPerSubject))
  {
    ConcatLength(AnswerBlocks(t.subjects, t.questionsPerSubject), t.questionsPerSubject + 1);
  }

  /** After the title, the part for subject `k` starts at `k * (n + 1)` with the subject's heading. */
  lemma AnswerHeadingAt(subjects: seq<string>, n: nat, k: nat)
    requires k < |subjects|
    ensures var keys := Concat(AnswerBlocks(subjects, n));
            k * (n + 1) < |keys| && keys[k * (n + 1)] == AnswerHeading(subjects[k])
  {
    ConcatAt(AnswerBlocks(subjects, n), n + 1, k, 0);
  }

  /** Line `i` (from 1) of subject `k`'s part is the answer placeholder for question `i` of that subject. */
  lemma AnswerLineAt(subjects: seq<string>, n: nat, k: nat, i: nat)
    requires k < |subjects| && 1 <= i <= n
    ensures var keys := Concat(AnswerBlocks(subjects, n));
            k * (n + 1) + i < |keys| && keys[k * (n + 1) + i] == AnswerLine(subjects[k], i)
  {
    ConcatAt(AnswerBlocks(subjects, n), n + 1, k, i);
  }

  /** Answer lines for different question numbers differ. */
  lemma AnswerLinesDistinct(subject: string, i: nat, j: nat)
    requires i != j
    ensures AnswerLine(subject, i) != AnswerLine(subject, j)
  {
    if AnswerLine(subject, i) == AnswerLine(subject, j) {
      var x := ": [Answer " + NatToString(i) + " for " + subject + "]";
      var y := ": [Answer " + NatToString(j) + " for " + subject + "]";
      assert x[0] == ':' && y[0] == ':';
      QLineInjective(i, x, j, y);
    }
  }


  // ---------------------------------------------------------------------------
  // One generation run
  // ---------------------------------------------------------------------------

  /** One entry of `generated_files`. */
  datatype PaperRecord = PaperRecord(classLevel: string, year: int, questionPaper: string, answerKey: string)

  function RecordFor(classLevel: string, year: int): PaperRecord {
    PaperRecord(classLevel, year, QuestionPaperPath(OutputDir, classLevel, year),
                AnswerKeyPath(OutputDir, classLevel, year))
  }

  /**
   * The records for one class over the first `n` years; `fails(c, y)` says that
   * writing the paper or the key for class `c` and year `y` raised, so the
   * exception handler skips that pair.
   */
  function YearRecords(classLevel: string, years: seq<int>, fails: (string, int) -> bool, n: nat): seq<PaperRecord>
    requires n <= |years|
  {
    if n == 0 then []
    else YearRecords(classLevel, years, fails, n - 1)
         + (if fails(classLevel, years[n - 1]) then [] else [RecordFor(classLevel, years[n - 1])])
  }

  /** One row of records per class of the table. */
  function ClassRows(table: seq<(string, Template)>, years: seq<int>, fails: (string, int) -> bool)
    : seq<seq<PaperRecord>>
  {
    seq(|table|, c requires 0 <= c < |table| => YearRecords(table[c].0, years, fails, |years|))
  }

  /** `generate_all_question_papers(years)`, without the metadata file it writes. */
  method GenerateAllQuestionPapers(years: seq<int>, fails: (string, int) -> bool)
    returns (generatedFiles: seq<PaperRecord>)
    ensures generatedFiles == Concat(ClassRows(QuestionTemplates, years, fails))
  {
    generatedFiles := [];
    ghost var rows := ClassRows(QuestionTemplates, years, fails);
    for c := 0 to |QuestionTemplates|
      invariant generatedFiles == Concat(rows[..c])
    {
      var records := GenerateClass(QuestionTemplates[c].0, years, fails);
      ConcatNext(rows, c);
      generatedFiles := generatedFiles + records;
    }
    assert rows[..|QuestionTemplates|] == rows;
  }

  /** The inner loop of the run: the years of one class, skipping those that raise. */
  method GenerateClass(classLevel: string, years: seq<int>, fails: (string, int) -> bool)
    returns (records: seq<PaperRecord>)
    ensures records == YearRecords(classLevel, years, fails, |years|)
  {
    records := [];
    for k := 0 to |years|
      invariant records == YearRecords(classLevel, years, fails, k)
    {
      if !fails(classLevel, years[k]) {
        records := records + [RecordFor(classLevel, years[k])];
      }
    }
  }

  lemma {:induction false} YearRecordsAreSuccesses(classLevel: string, years: seq<int>,
                                                   fails: (string, int) -> bool, n: nat)
    requires n <= |years|
    ensures forall r :: r in YearRecords(classLevel, years, fails, n) ==>
              !fails(r.classLevel, r.year) && r.year in years && r.classLevel == classLevel
              && r == RecordFor(r.classLevel, r.year)
  {
    if n > 0 {
      YearRecordsAreSuccesses(classLevel, years, fails, n - 1);
    }
  }

  /** Every record is for a listed class and year that did not fail, and names the paths the builders give. */
  lemma RecordsAreSuccesses(table: seq<(string, Template)>, years: seq<int>, fails: (string, int) -> bool)
    ensures forall r :: r in Concat(ClassRows(table, years, fails)) ==>
              !fails(r.classLevel, r.year) && r.year in years
              && (exists c :: 0 <= c < |table| && table[c].0 == r.classLevel)
              && r == RecordFor(r.classLevel, r.year)
  {
    var rows := ClassRows(table, years, fails);
    forall r: PaperRecord | r in Concat(rows)
      ensures !fails(r.classLevel, r.year) && r.year in years
      ensures exists c :: 0 <= c < |table| && table[c].0 == r.classLevel
      ensures r == RecordFor(r.classLevel, r.year)
    {
      ConcatMember(rows, r);
      var c :| 0 <= c < |rows| && r in rows[c];
      YearRecordsAreSuccesses(table[c].0, years, fails, |years|);
    }
  }

  /** Without failures a class yields one record per year, in the given order. */
  lemma {:induction false} YearRecordsAll(classLevel: string, years: seq<int>, fails: (string, int) -> bool, n: nat)
    requires n <= |years|
    requires forall y :: !fails(classLevel, y)
    ensures |YearRecords(classLevel, years, fails, n)| == n
    ensures forall k :: 0 <= k < n ==> YearRecords(classLevel, years, fails, n)[k] == RecordFor(classLevel, years[k])
  {
    if n > 0 {
      YearRecordsAll(classLevel, years, fails, n - 1);
      var init := YearRecords(classLevel, years, fails, n - 1);
      var last := RecordFor(classLevel, years[n - 1]);
      assert YearRecords(classLevel, years, fails, n) == init + [last];
      forall k | 0 <= k < n ensures (init + [last])[k] == RecordFor(classLevel, years[k]) {
        if k < n - 1 {
          assert (init + [last])[k] == init[k];
        }
      }
    }
  }

  /** Without failures every class contributes one row of `|years|` records. */
  lemma RowsWithoutFailures(table: seq<(string, Template)>, years: seq<int>, fails: (string, int) -> bool)
    requires forall c, y :: !fails(c, y)
    ensures forall c :: 0 <= c < |table| ==> |ClassRows(table, years, fails)[c]| == |years|
  {
    forall c | 0 <= c < |table|
      ensures |ClassRows(table, years, fails)[c]| == |years|
    {
      YearRecordsAll(table[c].0, years, fails, |years|);
    }
  }

  /** Without failures the run yields one record per (class, year) pair. */
  lemma RecordCountWithoutFailures(table: seq<(string, Template)>, years: seq<int>, fails: (string, int) -> bool)
    requires forall c, y :: !fails(c, y)
    ensures |Concat(ClassRows(table, years, fails))| == |table| * |years|
  {
    RowsWithoutFailures(table, years, fails);
    ConcatLength(ClassRows(table, years, fails), |years|);
  }

  /** Without failures class `c` of the table and year `k` are at position `c * |years| + k`. */
  lemma RecordAtWithoutFailures(table: seq<(string, Template)>, years: seq<int>, fails: (string, int) -> bool,
                                c: nat, k: nat)
    requires forall c, y :: !fails(c, y)
    requires c < |table| && k < |years|
    ensures var records := Concat(ClassRows(table, years, fails));
            c * |years| + k < |records| && records[c * |years| + k] == RecordFor(table[c].0, years[k])
  {
    var rows := ClassRows(table, years, fails);
    RowsWithoutFailures(table, years, fails);
    YearRecordsAll(table[c].0, years, fails, |years|);
    ConcatAt(rows, |years|, c, k);
  }

  /** The shipped table has twelve classes, so a run without failures writes 12 x |years| records. */
  lemma ShippedRunCount(years: seq<int>, fails: (string, int) -> bool)
    requires forall c, y :: !fails(c, y)
    ensures |Concat(ClassRows(QuestionTemplates, years, fails))| == 12 * |years|
  {
    RecordCountWithoutFailures(QuestionTemplates, years, fails);
  }

  /** The years `generate_all_question_papers` walks when called without arguments. */
  const DefaultYears: seq<int> := [2020, 2021, 2022, 2023, 2024, 2025]

  /** A default run without failures writes 72 records. */
  lemma DefaultRunCount(fails: (string, int) -> bool)
    requires forall c, y :: !fails(c, y)
    ensures |Concat(ClassRows(QuestionTemplates, DefaultYears, fails))| == 72
  {
    ShippedRunCount(DefaultYears, fails);
  }
}
