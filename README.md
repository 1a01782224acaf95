# Question-paper generators, downloader and QA examples — a Dafny model

This project models the logic at the centre of the rskworld question-answering
dataset repository:

- **Class papers** (`generate_question_papers.py`). For every class of the
  template table and every year it builds the paragraphs of a question paper
  and of its answer key. The sample questions are padded with numbered
  placeholders, each section is headed with a number taken from `list.index`,
  and the files go under `<output>/<class>/<year>/`. A paper or key that
  raises is skipped, and the rest are recorded in `generated_files`.
- **Board and competitive-exam papers** (`generate_board_question_papers.py`).
  - It walks the nested board table and the exam table.
  - Board lookups raise `KeyError`.
  - A subject entry without `sections` falls back to sections A, B and C.
  - Missing sample questions become three stand-ins per section, or ten per
    exam subject.
  - It computes the file paths and `total_papers`.
- **Real-paper downloader** (`download_real_question_papers.py`).
  - The retry loop of `download_pdf` accepts a response with status 200 that
    looks like a PDF and is larger than 1000 bytes. A smaller file is removed
    again, and there is a two-second sleep between attempts.
  - The save path is built from the dash-separated parts of a paper name.
  - The loop over the direct-link table counts the downloads that succeed.
  - The class `Downloader.Host` holds the filesystem (path to size), the
    request count and the seconds slept.
  - Its methods are proved to equal a state-machine specification. Lemmas over
    that specification give the retry loop's guarantees and the meaning of the
    count.
- **SQuAD conversion and statistics** (`examples/transformers_example.py`).
  Converting SQuAD to examples keeps the possible questions in order, with
  their first answer, or raises `IndexError`. The paragraph and question
  counts are also modelled.
- **GPT prompting** (`examples/gpt_example.py`): the prompt format and the
  extraction of the answer from the generated text.
- **Question scraping helpers** (`fetch_real_question_papers.py`): the filter
  over the first 20 candidate elements, the empty list on failure, and the
  three search queries.
- **Site script** (`script.js`): `formatNumber`'s thousands separators, and the
  dataset preview of the first three questions, with its "no data" and error
  outcomes.

The network, the filesystem's failures, the scraped HTML and the generated
model text are parameters of the model. So are the sample-question
dictionaries.

The tables the behaviour depends on are transcribed as constants: the class
templates, the board and exam configurations, and the direct-link table.
Lemmas about those constants give the sizes of a full run:

- 12 classes in the template table;
- 21 board subject combinations and 12 exam subject combinations, which makes
  33 papers per year;
- the two shipped West Bengal links are skipped by the downloader, because
  their names have five dash-separated parts where the West Bengal branch asks
  for six.

## Model

| member | source | states |
|---|---|---|
| Downloader.Host.DownloadPdf | download_real_question_papers.py:114-153 | returns True exactly when the retry specification does; afterwards the files, request count and seconds slept are those the specification gives |
| Downloader.ApplyEffectOver | download_real_question_papers.py:131-140 | writing or removing the save path overrides whatever an earlier attempt left there |
| Downloader.DownloadOkIff | download_real_question_papers.py:120-153 | `download_pdf` returns True iff one of the first `max_retries` attempts has status 200, looks like a PDF (content type or URL) and is larger than 1000 bytes |
| Downloader.DownloadStopsAtFirstAccepted | download_real_question_papers.py:120-138 | the loop stops at the first accepted attempt k: k + 1 requests, k sleeps, and that attempt's file left at the path |
| Downloader.DownloadAllFail | download_real_question_papers.py:120-153 | with no accepted attempt all `max_retries` attempts are made (none if it is not positive), a sleep follows all but the last, and the path is removed if any attempt wrote it, otherwise untouched |
| Downloader.DownloadKeepsOnlyLargeFiles | download_real_question_papers.py:134-140 | in the model, where a failed request leaves the save path as it was, a file left at the save path comes from a successful download and is larger than 1000 bytes |
| Downloader.SavePathWestBengal | download_real_question_papers.py:185-194 | a name mentioning WBBSE or WBCHSE gets a path iff it has at least six dash-separated parts; the path joins base, "boards", "West-Bengal-Board", parts 2-3, part 4, part 5 and the file name |
| Downloader.SavePathWestBengalPlain | download_real_question_papers.py:185-191 | for such a name without "/" and with non-empty parts, the path is those components with exactly one "/" between each |
| Downloader.SavePathCbse | download_real_question_papers.py:195-204 | a CBSE name (not West Bengal) gets a path iff it has at least five parts; the path joins base, "boards", "CBSE", parts 1-2, part 3, part 4 and the file name |
| Downloader.SavePathCbsePlain | download_real_question_papers.py:195-201 | for such a name with plain parts, the path is the components with one "/" between each |
| Downloader.BoardPathPlain | download_real_question_papers.py:185-201 | the six components of a board save path are plain, so `os.path.join` puts one "/" between them |
| Downloader.SavePathOthersSkipped | download_real_question_papers.py:202-206 | a name mentioning none of the three boards is skipped |
| Downloader.FiveWordWestBengalNameSkipped | download_real_question_papers.py:185-194 | a West Bengal name of five dash-free words is skipped |
| Downloader.MathematicsNameSkipped | download_real_question_papers.py:104 | the shipped "WBBSE-Class-10-Mathematics-2024" link is skipped (five parts, six needed) |
| Downloader.EnglishNameSkipped | download_real_question_papers.py:105 | the shipped "WBBSE-Class-10-English-2024" link is skipped likewise |
| Downloader.DownloadRequests | download_real_question_papers.py:120-153 | a download issues at most `max_retries` requests, none when that is not positive |
| Downloader.PaperStepCount | download_real_question_papers.py:183-210 | a paper adds one to `downloaded` exactly when it gets a save path and one of its three attempts is accepted; it issues at most three requests |
| Downloader.PaperStepLocal | download_real_question_papers.py:183-210 | a paper changes no file other than the one at its own save path |
| Downloader.Host.ProcessPaper | download_real_question_papers.py:181-210 | one pass of the link loop moves the host and count exactly as the specification step does |
| Downloader.Host.FetchPaper | download_real_question_papers.py:208-210 | download to the path, add one to `downloaded` on True, sleep one second |
| Downloader.Host.DownloadBoard | download_real_question_papers.py:181-213 | the loop over one board's papers continues the specification run over the whole table by that board's papers |
| Downloader.Host.DownloadFromDirectLinks | download_real_question_papers.py:176-215 | the whole loop leaves the host and returns the count of the specification run over all papers in table order |
| Downloader.PapersSlice | download_real_question_papers.py:180-181 | a board's papers follow the papers of the boards before it in iteration order |
| Downloader.RunResultsCount | download_real_question_papers.py:208-209 | the count after n papers is the number of those among them that were downloaded successfully |
| Downloader.DownloadedCountsSuccesses | download_real_question_papers.py:179-215 | the returned `downloaded` is the number of papers that have a save path and whose `download_pdf` returned True |
| QuestionPapers.TemplatesConsistent | generate_question_papers.py:33-106 | in every template the total marks are subjects × questions per subject × marks per question |
| QuestionPapers.GenerateSampleQuestions | generate_question_papers.py:165-178 | `count` items (none for a negative count); item i is numbered i + 1 and carries base question i while the list lasts, the placeholder after that |
| QuestionPapers.SampleQuestionText | generate_question_papers.py:171-176 | item i is "<i+1>. " followed by the base text, or "[Sample Question <i+1> for <subject>]" past the base list |
| QuestionPapers.SampleQuestionsDistinct | generate_question_papers.py:165-178 | items at different positions differ, whatever the base texts are |
| QuestionPapers.UnknownSubjectAllPlaceholders | generate_question_papers.py:168-176 | a class or subject absent from the sample table yields only placeholders |
| QuestionPapers.PaperPaths | generate_question_papers.py:184-190 | the paper is `<output>/<class dashed>/<year>/<class dashed>-Question-Paper-<year>.pdf`, and the key is beside it as `-Answer-Key-` |
| QuestionPapers.PaperAndKeyDiffer | generate_question_papers.py:291-297 | the answer key's path never equals the question paper's |
| QuestionPapers.FirstIndex | generate_question_papers.py:262 | `list.index`: the first position holding the item |
| QuestionPapers.SectionNumbers | generate_question_papers.py:261-262 | with distinct subjects, as in every template, section k is headed "Section k+1: subject" |
| QuestionPapers.CreateQuestionPaper | generate_question_papers.py:219-272 | the paragraphs of the paper for a known class, the `KeyError` for an unknown one |
| QuestionPapers.QuestionPaperKeyError | generate_question_papers.py:227 | the paper raises exactly when the class is missing from the templates, and with `KeyError(class)` |
| QuestionPapers.BuildQuestionPaper | generate_question_papers.py:219-272 | the story is the title, the instruction heading, the instructions, then the sections |
| QuestionPapers.BuildSections | generate_question_papers.py:258-272 | the subject loop appends the sections in template order |
| QuestionPapers.BuildSection | generate_question_papers.py:262-270 | a section is its heading and then its sample questions in order |
| QuestionPapers.QuestionPaperFront | generate_question_papers.py:219-262 | a paper has 7 + subjects × (1 + n) paragraphs: title, heading, five instructions, then the sections |
| QuestionPapers.SectionWidths | generate_question_papers.py:261-270 | every section has its heading and exactly n questions |
| QuestionPapers.SectionHeadingAt | generate_question_papers.py:261-263 | section k's heading sits at offset k × (1 + n) of the sections |
| QuestionPapers.SectionQuestionAt | generate_question_papers.py:265-270 | question i of section k sits right after that heading, at offset 1 + i |
| QuestionPapers.CreateAnswerKey | generate_question_papers.py:332-349 | the key's paragraphs for a known class, the `KeyError` for an unknown one |
| QuestionPapers.BuildAnswerKey | generate_question_papers.py:332-349 | the key is its title, then each subject's part |
| QuestionPapers.BuildAnswerBlock | generate_question_papers.py:339-347 | a subject's part is its heading and then the lines Q1 .. Qn |
| QuestionPapers.AnswerKeyFront | generate_question_papers.py:332-349 | a key has 1 + subjects × (n + 1) paragraphs and opens with its title |
| QuestionPapers.AnswerHeadingAt | generate_question_papers.py:338-340 | subject k's heading sits at offset k × (n + 1) |
| QuestionPapers.AnswerLineAt | generate_question_papers.py:344-346 | line i of subject k is "Q<i>: [Answer <i> for <subject>]" |
| QuestionPapers.AnswerLinesDistinct | generate_question_papers.py:345 | answer lines for different numbers differ |
| QuestionPapers.GenerateAllQuestionPapers | generate_question_papers.py:374-388 | `generated_files` holds, class by class in table order, the records of the years that did not raise |
| QuestionPapers.GenerateClass | generate_question_papers.py:376-388 | the year loop of one class records the years that did not raise, in order |
| QuestionPapers.YearRecordsAreSuccesses | generate_question_papers.py:376-388 | every record of a class is for a listed year that did not raise, with the two paths the builders return |
| QuestionPapers.RecordsAreSuccesses | generate_question_papers.py:374-388 | every record is for a class of the table and a listed year that did not raise, and names that class's paper and key paths |
| QuestionPapers.YearRecordsAll | generate_question_papers.py:376-385 | without failures a class yields one record per year, in year order |
| QuestionPapers.RowsWithoutFailures | generate_question_papers.py:374-385 | without failures every class contributes `len(years)` records |
| QuestionPapers.RecordCountWithoutFailures | generate_question_papers.py:374-385 | without failures there are classes × years records |
| QuestionPapers.RecordAtWithoutFailures | generate_question_papers.py:374-385 | without failures class c and year k sit at position c × `len(years)` + k |
| QuestionPapers.ShippedRunCount | generate_question_papers.py:374-385 | over the shipped templates a run without failures writes 12 × `len(years)` records |
| QuestionPapers.DefaultRunCount | generate_question_papers.py:364 | with the default years 2020-2025 and no failures the run writes 72 records |
| BoardTables.SubjectEntry | generate_board_question_papers.py:242-243 | the lookups succeed exactly when board, code, class and subject are all present; otherwise the `KeyError` names one of the four keys |
| BoardTables.ShippedBoardTable | generate_board_question_papers.py:31-83 | the shipped board table has unique keys at every level, and every class it lists has a subject table |
| BoardPapers.BoardFilePathShape | generate_board_question_papers.py:235-247 | the board paper's path is `<output>/boards/<board>/<class>/<subject>/<year>/<code>-<class>-<subject>-<year>.pdf`, names dashed |
| BoardPapers.CreateBoardQuestionPaper | generate_board_question_papers.py:235-335 | the path and paragraphs of a board paper, or the `KeyError` of the first lookup that misses |
| BoardPapers.BoardPaperErrors | generate_board_question_papers.py:242-247 | a board paper fails iff one of the four lookups misses, and then with a `KeyError` naming the board, the code, the class or the subject; otherwise its path is the board path |
| BoardPapers.BuildBoardSections | generate_board_question_papers.py:322-335 | the section loop appends the sections in order |
| BoardPapers.BuildBoardSection | generate_board_question_papers.py:323-335 | a section is its heading, then its sample questions, or the three stand-ins when there are none |
| BoardPapers.BoardSectionShape | generate_board_question_papers.py:323-335 | a section starts with its heading and holds at least one question |
| BoardPapers.GenericSectionQuestionsDistinct | generate_board_question_papers.py:330 | the stand-ins of a section are pairwise different |
| BoardPapers.BoardStoryLayout | generate_board_question_papers.py:276-335 | nine fixed paragraphs come first, then the sections; without samples the story has 9 + 4 × sections paragraphs |
| BoardPapers.BoardSectionAt | generate_board_question_papers.py:322-331 | without samples, section k's heading sits at 4 × k and its stand-in i right after |
| BoardPapers.DefaultSectionsUsed | generate_board_question_papers.py:319 | a subject entry without `sections` gets sections A, B and C: 21 paragraphs, starting with "Section A" |
| BoardPapers.ExamFilePathShape | generate_board_question_papers.py:356-366 | the exam paper's path is `<output>/competitive/<exam>/<subject>/<year>/<exam>-<subject>-<year>.pdf`; the file name keeps the subject's spaces |
| BoardPapers.CreateCompetitiveExamPaper | generate_board_question_papers.py:356-447 | the path and paragraphs of an exam paper, or `KeyError` for an unknown exam |
| BoardPapers.AppendGenericExamQuestions | generate_board_question_papers.py:445-447 | the `range(1, 11)` loop appends the stand-ins Q1 .. Q10 |
| BoardPapers.ExamPaperShape | generate_board_question_papers.py:362-447 | fails iff the exam is unknown; otherwise nine fixed paragraphs and then the samples, or ten pairwise different stand-ins |
| BoardPapers.GenericExamQuestionsDistinct | generate_board_question_papers.py:446 | the exam stand-ins are pairwise different |
| BoardRun.RunJob | generate_board_question_papers.py:479-495 | one `try`: the record of the created paper, or nothing when creation raises |
| BoardRun.GenerateSubject | generate_board_question_papers.py:478-495 | the year loop of a board subject records its jobs' outcomes in order |
| BoardRun.GenerateClass | generate_board_question_papers.py:477-495 | the subject loop of a class |
| BoardRun.GenerateCode | generate_board_question_papers.py:476-495 | the class loop of a board code |
| BoardRun.GenerateBoard | generate_board_question_papers.py:475-495 | the code loop of a board |
| BoardRun.GenerateBoards | generate_board_question_papers.py:473-495 | the board loop: records of all board jobs in nesting order |
| BoardRun.GenerateExamSubject | generate_board_question_papers.py:500-511 | the year loop of an exam subject |
| BoardRun.GenerateExam | generate_board_question_papers.py:498-511 | the subject loop of an exam |
| BoardRun.GenerateExams | generate_board_question_papers.py:497-511 | the exam loop: records of all exam jobs in order |
| BoardRun.GenerateAllBoardPapers | generate_board_question_papers.py:473-511 | `generated_files` is the records of the board jobs and then the exam jobs |
| BoardRun.RecordsAreSuccesses | generate_board_question_papers.py:479-511 | every record is for a job of the run that was built and did not fail, with its paper's path |
| BoardRun.RecordsAllSucceed | generate_board_question_papers.py:473-511 | when every job is built and none fails, record i is job i with its path |
| BoardRun.BoardJobsResolve | generate_board_question_papers.py:473-477 | in a proper table every board job the loops produce passes the four lookups |
| BoardRun.ExamJobsResolve | generate_board_question_papers.py:497-499 | every exam job names an exam of the table |
| BoardRun.BoardJobsCount | generate_board_question_papers.py:473-478 | one board job per (board, code, class, subject) and year |
| BoardRun.ExamJobsCount | generate_board_question_papers.py:497-500 | one exam job per (exam, subject) and year |
| BoardRun.RunWithoutFailures | generate_board_question_papers.py:526 | without write failures `total_papers` is (board combinations + exam combinations) × `len(years)` |
| BoardRun.ShippedCodeCounts | generate_board_question_papers.py:31-83 | WBBSE lists 5 subjects, WBCHSE 7, CBSE 9 over its two classes |
| BoardRun.ShippedBoardCount | generate_board_question_papers.py:31-83 | the shipped board table holds 21 combinations |
| BoardRun.ShippedExamCount | generate_board_question_papers.py:86-119 | the shipped exam table holds 12 combinations |
| BoardRun.ShippedBoardRunCount | generate_board_question_papers.py:526 | over the shipped tables a run without failures writes 33 × `len(years)` papers |
| BoardRun.DefaultBoardRunCount | generate_board_question_papers.py:462 | with the default years 2020-2025 and no failures `total_papers` is 198 |
| Squad.EntryListed | examples/transformers_example.py:58-61 | every question of every paragraph of every article is visited |
| Squad.ToExamples | examples/transformers_example.py:62-71 | the conversion raises `IndexError` exactly when a question not marked impossible has no answers |
| Squad.GatherPossible | examples/transformers_example.py:62-71 | example k is built from the k-th possible question: one per possible question, in order |
| Squad.EntriesSplit | examples/transformers_example.py:62 | possible and impossible questions together are all questions |
| Squad.ConvertQas | examples/transformers_example.py:61-71 | the question loop of a paragraph converts its questions |
| Squad.ConvertParagraphs | examples/transformers_example.py:59-71 | the paragraph loop of an article |
| Squad.ConvertSquad | examples/transformers_example.py:47-72 | the three nested loops give the conversion of all questions in traversal order |
| Squad.ConvertedExamples | examples/transformers_example.py:57-72 | a successful conversion has one example per possible question, in order, with its context, question and first answer's text and start |
| Squad.PossibleEntryConverted | examples/transformers_example.py:58-71 | each possible question of each paragraph has an answer, and its example is among the results |
| Squad.TotalParagraphsCount | examples/transformers_example.py:140 | `total_paragraphs` counts every paragraph once |
| Squad.TotalQuestions | examples/transformers_example.py:143-146 | `total_questions` is the number of questions in the dataset |
| Squad.ExamplesAndImpossibleAreAllQuestions | examples/transformers_example.py:143-146 | the converted examples plus the impossible questions are `total_questions` |
| Gpt.FormatPrompt | examples/gpt_example.py:43 | the prompt starts with "Context: " and the context, ends with "Answer:", and is 30 characters longer than context and question together |
| Gpt.PromptQuestion | examples/gpt_example.py:43 | the question sits between the context and the cue |
| Gpt.PromptInjective | examples/gpt_example.py:43 | prompts with contexts of equal length are equal only for the same context and question |
| Gpt.ExtractAnswer | examples/gpt_example.py:80-83 | the answer is stripped, no longer than the generated text, never contains "Answer:", and is empty when the text has no cue and does not reach past the prompt |
| Gpt.LastPiece | examples/gpt_example.py:81 | `split(sep)[-1]` is the text after the last separator |
| Gpt.EchoedPromptAnswer | examples/gpt_example.py:80-83 | for a model that echoes the prompt and continues it without "Answer:", the answer is the stripped continuation |
| Fetch.FirstElements | fetch_real_question_papers.py:87 | `[:20]` keeps at most 20 candidates, a prefix, and all of them when there are at most 20 |
| Fetch.FetchQuestions | fetch_real_question_papers.py:73-95 | any failure yields []; otherwise the filter over the first 20 candidates |
| Fetch.KeptSound | fetch_real_question_papers.py:88-90 | every kept text is a candidate longer than 20 characters holding "?" |
| Fetch.KeptComplete | fetch_real_question_papers.py:88-90 | every candidate that looks like a question is kept |
| Fetch.KeptInOrder | fetch_real_question_papers.py:87-90 | the kept texts keep their candidate order |
| Fetch.FetchedQuestions | fetch_real_question_papers.py:87-92 | at most 20 questions, all looking like questions, in order, and every such candidate among the first 20 is returned |
| Fetch.SearchQueries | fetch_real_question_papers.py:201-205 | three queries, each starting with board, class and subject and containing the year |
| Site.InsertCommasGroups | script.js:84 | the regular expression groups digits in threes from the right |
| Site.GroupedShape | script.js:84 | the grouping is a first group of one to three digits, then comma-and-three-digit groups |
| Site.GroupedRoundTrip | script.js:84 | deleting the commas of the grouping gives back the digits |
| Site.FormatNumberProperties | script.js:83-85 | deleting the commas gives `toString()` back, the groups have the shape above, and below 1000 nothing changes |
| Site.Prefix | script.js:44 | `substring(0, n)` is the prefix of min(n, length) characters |
| Site.ItemOf | script.js:40-48 | an item shows "Q: " and the question; "Context: ", the first min(150, length) characters of the context, and "..."; and "A: " with the first answer |
| Site.FillOk | script.js:26-58 | filling fails exactly when an entry it reaches has no answer |
| Site.FillItems | script.js:26-58 | a fill that succeeds appends the items of the entries it reaches, in order |
| Site.FillTakes | script.js:26-58 | the fill succeeds iff each of the first entries up to three has an answer, and then shows exactly their items |
| Site.PreviewQas | script.js:34-56 | the question loop of a paragraph, stopping at three |
| Site.PreviewParagraphs | script.js:31-57 | the paragraph loop of an article |
| Site.PreviewArticles | script.js:26-58 | the article loop, stopping at three |
| Site.LoadDatasetPreview | script.js:20-67 | the view is the preview of the loaded file, or the error message when the load fails |
| Site.PreviewShowsFirstQuestions | script.js:26-62 | the preview shows the first (up to three) questions in traversal order; "no data" exactly for a file without questions; the error message exactly when one of those first questions has no answer |

## Left out

- HTTP, HTML parsing and PDF rendering are not modelled. A response becomes a status, a content type and a body size; the scraped elements become a list of texts; the reportlab paragraphs become their text, without the spacers, the info tables, the styles or the footers.
- Filesystem failures are not modelled. `os.makedirs` is left out. An I/O failure while writing a generated paper is a predicate parameter `fails`.
- Downloader.Host.DownloadPdf: a failed request (`RequestFailed`) is one that fails before the file is opened. A stream that breaks part-way through `iter_content` raises a `RequestException` subclass after the file at the save path was opened; the source catches it, retries and leaves the partial file behind. The model does not capture that partial file. Errors that are not `RequestException`s (an `OSError` while writing, say) propagate to the per-paper `try` of the link loop, which skips the polite sleep; they are not modelled either.
- Downloader.DownloadKeepsOnlyLargeFiles: covers only attempts that fail before the file is opened. A stream broken mid-way leaves a partial file, possibly of 1000 bytes or less, which the program does not remove.
- Printing, the metadata and markdown files, the instruction file, `create_real_paper_structure` and the remaining helpers of the scraper script write files or print only, so they are not modelled.
- The sample-question dictionaries are parameters, so their text is not transcribed. The templates, board and exam configurations and direct-link table are transcribed.
- BoardRun.GenerateAllBoardPapers: requires that every class a board code lists has a subject table. Line 477 of the source sits outside the `try`, and a missing class there would end the run with an uncaught `KeyError`. The shipped table meets this (BoardTables.ShippedBoardTable).
- Text.Lower lowers ASCII letters only. Python's full Unicode case mapping is not modelled.
- Downloader.SavePathWestBengalPlain, Downloader.SavePathCbsePlain and QuestionPapers.PaperPaths state the "/"-separated form only for components that neither start nor end with "/". The general `os.path.join` result is stated by Downloader.SavePathWestBengal and Downloader.SavePathCbse.
- Site.Prefix counts characters rather than UTF-16 code units.
- Site.FormatNumberProperties: holds for non-negative integers that JavaScript prints exactly, that is below 2^53. From 2^53 on `toString()` prints rounded digits, and from 1e21 on it prints exponent notation such as "1e+21", which gets no commas. Negative and fractional numbers are not modelled.
- `scrollToSection`, the DOM elements and `fetch` are not modelled. A failed load is `None`.
- Squad.ConvertSquad and Site.LoadDatasetPreview: the dataset is typed with every field present. A missing field is not modelled. In Python that would be a `KeyError`, for example a SQuAD 1.1 question without `is_impossible` at line 62 of `examples/transformers_example.py`, or a paragraph without `context` at line 60. In the site script, a missing `data`, `paragraphs` or `qas` would be a `TypeError` shown as the load error.
- The tokenizer, the model and the sampling in `generate_answer` are not modelled. The generated text is a parameter. `bert_example.py` and the training and inference code are not part of this model.
- Gpt.PromptInjective: requires contexts of equal length. Two different contexts can swap text with the question across the "\n\nQuestion: " separator and still produce the same prompt.
- QuestionPapers.SectionQuestionAt: states the question as item i of the list `generate_sample_questions` returns, rather than as that item's text. The text is given by QuestionPapers.SampleQuestionText.
