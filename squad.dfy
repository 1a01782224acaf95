/**
 * The SQuAD-format dataset and its conversion to the flat example list of the
 * Hugging Face example script: articles hold paragraphs, paragraphs hold a
 * context and question/answer entries, and every answerable entry becomes one
 * example with a single answer.
 */
module Squad {
  import opened Common
  import opened Seqs

  datatype Answer = Answer(text: string, answerStart: int)
  datatype Qa = Qa(question: string, answers: seq<Answer>, isImpossible: bool)
  datatype Paragraph = Paragraph(context: string, qas: seq<Qa>)
  datatype Article = Article(paragraphs: seq<Paragraph>)
  datatype Dataset = Dataset(data: seq<Article>)

  /** One example in Hugging Face form: `answers.text` and `answers.answer_start` are lists. */
  datatype Example = Example(context: string, question: string, answerTexts: seq<string>, answerStarts: seq<int>)

  /** A question/answer entry together with the context of its paragraph. */
  datatype Entry = Entry(context: string, qa: Qa)

  // ---------------------------------------------------------------------------
  // The entries in traversal order
  // ---------------------------------------------------------------------------

  function QaEntries(context: string, qas: seq<Qa>): seq<Entry> {
    seq(|qas|, j requires 0 <= j < |qas| => Entry(context, qas[j]))
  }

  function ParagraphEntries(paragraphs: seq<Paragraph>): seq<Entry> {
    Concat(seq(|paragraphs|, p requires 0 <= p < |paragraphs| => QaEntries(paragraphs[p].context, paragraphs[p].qas)))
  }

  /** Every entry of the dataset, article by article, paragraph by paragraph, entry by entry. */
  function Entries(d: Dataset): seq<Entry> {
    ArticleEntries(d.data)
  }

  function ArticleEntries(articles: seq<Article>): seq<Entry> {
    Concat(seq(|articles|, a requires 0 <= a < |articles| => ParagraphEntries(articles[a].paragraphs)))
  }

  /** Entry `q` of paragraph `p` of article `a` is one of the dataset's entries. */
  lemma EntryListed(d: Dataset, a: nat, p: nat, q: nat)
    requires a < |d.data| && p < |d.data[a].paragraphs| && q < |d.data[a].paragraphs[p].qas|
    ensures Entry(d.data[a].paragraphs[p].context, d.data[a].paragraphs[p].qas[q]) in Entries(d)
  {
    var paragraphs := d.data[a].paragraphs;
    var e := Entry(paragraphs[p].context, paragraphs[p].qas[q]);
    var inner := seq(|paragraphs|, i requires 0 <= i < |paragraphs| => QaEntries(paragraphs[i].context, paragraphs[i].qas));
    assert inner[p][q] == e;
    ConcatContains(inner, p, e);
    var articles := d.data;
    var outer := seq(|articles|, i requires 0 <= i < |articles| => ParagraphEntries(articles[i].paragraphs));
    assert outer[a] == Concat(inner);
    ConcatContains(outer, a, e);
  }

  // ---------------------------------------------------------------------------
  // The conversion, as a specification
  // ---------------------------------------------------------------------------

  /** An entry the conversion gets through: impossible, or with an answer to take first. */
  predicate Answerable(e: Entry) {
    e.qa.isImpossible || |e.qa.answers| > 0
  }

  predicate Convertible(es: seq<Entry>) {
    forall e :: e in es ==> Answerable(e)
  }

  /** The example built from a possible entry: its context, its question and its first answer. */
  function ExampleOf(e: Entry): Example
    requires |e.qa.answers| > 0
  {
    Example(e.context, e.qa.question, [e.qa.answers[0].text], [e.qa.answers[0].answerStart])
  }

  /** The entries that are not marked impossible, in order. */
  function Possible(es: seq<Entry>): seq<Entry> {
    if |es| == 0 then []
    else Possible(es[..|es| - 1]) + (if es[|es| - 1].qa.isImpossible then [] else [es[|es| - 1]])
  }

  function ImpossibleCount(es: seq<Entry>): nat {
    if |es| == 0 then 0
    else ImpossibleCount(es[..|es| - 1]) + (if es[|es| - 1].qa.isImpossible then 1 else 0)
  }

  /** The examples of a run of entries that converts. */
  function Gather(es: seq<Entry>): seq<Example>
    requires Convertible(es)
  {
    if |es| == 0 then []
    else
      var last := es[|es| - 1];
      assert last in es;
      Gather(es[..|es| - 1]) + (if last.qa.isImpossible then [] else [ExampleOf(last)])
  }

  /**
   * The conversion's outcome: the examples, or the IndexError raised when some
   * possible entry has an empty answer list.
   */
  function ToExamples(es: seq<Entry>): (r: Result<seq<Example>>)
    ensures r.Err? <==> exists e :: e in es && !e.qa.isImpossible && |e.qa.answers| == 0
    ensures r.Err? ==> r.error == IndexError
  {
    if Convertible(es) then Ok(Gather(es)) else Err(IndexError)
  }

  /** Every possible entry is an entry, not marked impossible. */
  lemma {:induction false} PossibleEntries(es: seq<Entry>)
    ensures forall e :: e in Possible(es) ==> e in es && !e.qa.isImpossible
  {
    if |es| > 0 {
      var init := es[..|es| - 1];
      PossibleEntries(init);
      assert forall e :: e in init ==> e in es;
    }
  }

  /** Example `k` is the example of the `k`-th possible entry: one per possible entry, in order. */
  lemma {:induction false} GatherPossible(es: seq<Entry>)
    requires Convertible(es)
    ensures |Gather(es)| == |Possible(es)|
    ensures forall k :: 0 <= k < |Possible(es)| ==>
              |Possible(es)[k].qa.answers| > 0 && Gather(es)[k] == ExampleOf(Possible(es)[k])
  {
    PossibleEntries(es);
    if |es| > 0 {
      var init := es[..|es| - 1];
      assert forall e :: e in init ==> e in es;
      GatherPossible(init);
      var last := es[|es| - 1];
      assert last in es;
      if !last.qa.isImpossible {
        assert Possible(es)[|Possible(init)|] == last;
      }
    }
  }

  /** Possible and impossible entries together are all the entries. */
  lemma {:induction false} EntriesSplit(es: seq<Entry>)
    ensures |Possible(es)| + ImpossibleCount(es) == |es|
  {
    if |es| > 0 {
      EntriesSplit(es[..|es| - 1]);
    }
  }

  lemma {:induction false} GatherAppend(xs: seq<Entry>, ys: seq<Entry>)
    requires Convertible(xs) && Convertible(ys)
    ensures Convertible(xs + ys) && Gather(xs + ys) == Gather(xs) + Gather(ys)
  {
    if |ys| > 0 {
      var init := ys[..|ys| - 1];
      assert forall e :: e in init ==> e in ys;
      GatherAppend(xs, init);
      assert (xs + ys)[..|xs + ys| - 1] == xs + init;
    } else {
      assert xs + ys == xs;
    }
  }

  /** Converting two runs one after the other converts their concatenation. */
  lemma ToExamplesAppend(xs: seq<Entry>, ys: seq<Entry>)
    ensures ToExamples(xs + ys) ==
              if ToExamples(xs).Ok? && ToExamples(ys).Ok? then Ok(ToExamples(xs).value + ToExamples(ys).value)
              else Err(IndexError)
  {
    if Convertible(xs) && Convertible(ys) {
      GatherAppend(xs, ys);
    } else if !Convertible(xs) {
      var e :| e in xs && !Answerable(e);
      assert e in xs + ys;
    } else {
      var e :| e in ys && !Answerable(e);
      assert e in xs + ys;
    }
  }

  /** One block more, and a failure inside the first blocks fails the whole run. */
  lemma ToExamplesBlocks(blocks: seq<seq<Entry>>, i: nat)
    requires i < |blocks|
    ensures ToExamples(Concat(blocks[..i + 1])) ==
              if ToExamples(Concat(blocks[..i])).Ok? && ToExamples(blocks[i]).Ok?
              then Ok(ToExamples(Concat(blocks[..i])).value + ToExamples(blocks[i]).value)
              else Err(IndexError)
    ensures ToExamples(Concat(blocks[..i + 1])).Err? ==> ToExamples(Concat(blocks)).Err?
  {
    ToExamplesNextBlock(blocks, i);
    ToExamplesPrefixFails(blocks, i + 1);
  }

  lemma ToExamplesNextBlock(blocks: seq<seq<Entry>>, i: nat)
    requires i < |blocks|
    ensures ToExamples(Concat(blocks[..i + 1])) ==
              if ToExamples(Concat(blocks[..i])).Ok? && ToExamples(blocks[i]).Ok?
              then Ok(ToExamples(Concat(blocks[..i])).value + ToExamples(blocks[i]).value)
              else Err(IndexError)
  {
    ConcatNext(blocks, i);
    ToExamplesAppend(Concat(blocks[..i]), blocks[i]);
  }

  lemma ToExamplesPrefixFails(blocks: seq<seq<Entry>>, k: nat)
    requires k <= |blocks|
    ensures ToExamples(Concat(blocks[..k])).Err? ==> ToExamples(Concat(blocks)).Err?
  {
    assert blocks == blocks[..k] + blocks[k..];
    ConcatAppend(blocks[..k], blocks[k..]);
    ToExamplesAppend(Concat(blocks[..k]), Concat(blocks[k..]));
  }

  // ---------------------------------------------------------------------------
  // The conversion loops
  // ---------------------------------------------------------------------------

  /** The innermost loop: the entries of one paragraph. */
  method ConvertQas(context: string, qas: seq<Qa>) returns (r: Result<seq<Example>>)
    ensures r == ToExamples(QaEntries(context, qas))
  {
    ghost var es := QaEntries(context, qas);
    var examples: seq<Example> := [];
    for j := 0 to |qas|
      invariant Convertible(es[..j]) && examples == Gather(es[..j])
    {
      var qa := qas[j];
      assert es[..j + 1] == es[..j] + [es[j]] && es[..j + 1][..j] == es[..j];
      if !qa.isImpossible {
        if |qa.answers| == 0 {
          assert es[j] in es;
          return Err(IndexError);
        }
        examples := examples + [Example(context, qa.question, [qa.answers[0].text], [qa.answers[0].answerStart])];
      }
    }
    assert es[..|qas|] == es;
    return Ok(examples);
  }

  /** The middle loop: the paragraphs of one article. */
  method ConvertParagraphs(paragraphs: seq<Paragraph>) returns (r: Result<seq<Example>>)
    ensures r == ToExamples(ParagraphEntries(paragraphs))
  {
    ghost var blocks := seq(|paragraphs|, p requires 0 <= p < |paragraphs| =>
                              QaEntries(paragraphs[p].context, paragraphs[p].qas));
    var examples: seq<Example> := [];
    for p := 0 to |paragraphs|
      invariant ToExamples(Concat(blocks[..p])) == Ok(examples)
    {
      var more := ConvertQas(paragraphs[p].context, paragraphs[p].qas);
      ToExamplesBlocks(blocks, p);
      if more.Err? {
        return Err(IndexError);
      }
      examples := examples + more.value;
    }
    assert blocks[..|paragraphs|] == blocks;
    return Ok(examples);
  }

  /**
   * `convert_squad_to_hf_dataset`: one example per entry not marked
   * impossible, in traversal order, or the IndexError of the first possible
   * entry whose answer list is empty.
   */
  method ConvertSquad(d: Dataset) returns (r: Result<seq<Example>>)
    ensures r == ToExamples(Entries(d))
  {
    var articles := d.data;
    ghost var blocks := seq(|articles|, a requires 0 <= a < |articles| => ParagraphEntries(articles[a].paragraphs));
    assert Concat(blocks) == ArticleEntries(articles);
    var examples: seq<Example> := [];
    for a := 0 to |articles|
      invariant ToExamples(Concat(blocks[..a])) == Ok(examples)
    {
      var more := ConvertParagraphs(articles[a].paragraphs);
      ToExamplesBlocks(blocks, a);
      if more.Err? {
        return Err(IndexError);
      }
      examples := examples + more.value;
    }
    assert blocks[..|articles|] == blocks;
    return Ok(examples);
  }

  /**
   * A successful conversion holds exactly the examples of the possible
   * entries, in order, each with the context and question of its entry and
   * a single answer taken from its first one.
   */
  lemma ConvertedExamples(d: Dataset, examples: seq<Example>)
    requires ToExamples(Entries(d)) == Ok(examples)
    ensures |examples| == |Possible(Entries(d))|
    ensures forall k :: 0 <= k < |examples| ==>
              var e := Possible(Entries(d))[k];
              !e.qa.isImpossible && |e.qa.answers| > 0
              && examples[k].context == e.context && examples[k].question == e.qa.question
              && examples[k].answerTexts == [e.qa.answers[0].text]
              && examples[k].answerStarts == [e.qa.answers[0].answerStart]
  {
    GatherPossible(Entries(d));
    PossibleEntries(Entries(d));
  }

  /** Every possible entry of every paragraph yields its example. */
  lemma PossibleEntryConverted(d: Dataset, examples: seq<Example>, a: nat, p: nat, q: nat)
    requires ToExamples(Entries(d)) == Ok(examples)
    requires a < |d.data| && p < |d.data[a].paragraphs| && q < |d.data[a].paragraphs[p].qas|
    requires !d.data[a].paragraphs[p].qas[q].isImpossible
    ensures |d.data[a].paragraphs[p].qas[q].answers| > 0
    ensures ExampleOf(Entry(d.data[a].paragraphs[p].context, d.data[a].paragraphs[p].qas[q])) in examples
  {
    var e := Entry(d.data[a].paragraphs[p].context, d.data[a].paragraphs[p].qas[q]);
    EntryListed(d, a, p, q);
    PossibleListed(Entries(d), e);
    var k :| 0 <= k < |Possible(Entries(d))| && Possible(Entries(d))[k] == e;
    GatherPossible(Entries(d));
  }

  lemma {:induction false} PossibleListed(es: seq<Entry>, e: Entry)
    requires e in es && !e.qa.isImpossible
    ensures e in Possible(es)
  {
    var init := es[..|es| - 1];
    if e != es[|es| - 1] {
      assert e in init;
      PossibleListed(init, e);
    }
  }

  // ---------------------------------------------------------------------------
  // The statistics of analyze_dataset
  // ---------------------------------------------------------------------------

  /** `total_paragraphs`: the paragraph counts of the articles, summed. */
  function TotalParagraphs(d: Dataset): nat {
    Sum(seq(|d.data|, a requires 0 <= a < |d.data| => |d.data[a].paragraphs|))
  }

  /** All paragraphs of the dataset, article by article. */
  function AllParagraphs(d: Dataset): seq<Paragraph> {
    Concat(seq(|d.data|, a requires 0 <= a < |d.data| => d.data[a].paragraphs))
  }

  /** `total_paragraphs` counts every paragraph of every article once. */
  lemma TotalParagraphsCount(d: Dataset)
    ensures TotalParagraphs(d) == |AllParagraphs(d)|
  {
    var blocks := seq(|d.data|, a requires 0 <= a < |d.data| => d.data[a].paragraphs);
    var counts := seq(|d.data|, a requires 0 <= a < |d.data| => |d.data[a].paragraphs|);
    ConcatScaled(blocks, counts, 1);
  }

  /** `total_questions`, accumulated over the paragraphs of every article: the number of entries. */
  method TotalQuestions(d: Dataset) returns (total: nat)
    ensures total == |Entries(d)|
  {
    var articles := d.data;
    ghost var blocks := seq(|articles|, a requires 0 <= a < |articles| => ParagraphEntries(articles[a].paragraphs));
    assert Concat(blocks) == ArticleEntries(articles);
    total := 0;
    for a := 0 to |articles|
      invariant total == |Concat(blocks[..a])|
    {
      var paragraphs := articles[a].paragraphs;
      ghost var inner := seq(|paragraphs|, p requires 0 <= p < |paragraphs| =>
                               QaEntries(paragraphs[p].context, paragraphs[p].qas));
      ghost var before := total;
      for p := 0 to |paragraphs|
        invariant total == before + |Concat(inner[..p])|
      {
        ConcatNext(inner, p);
        total := total + |paragraphs[p].qas|;
      }
      assert inner[..|paragraphs|] == inner;
      ConcatNext(blocks, a);
    }
    assert blocks[..|articles|] == blocks;
  }

  /**
   * The converted examples and the impossible entries together account for
   * every question `analyze_dataset` counts.
   */
  lemma ExamplesAndImpossibleAreAllQuestions(d: Dataset, examples: seq<Example>)
    requires ToExamples(Entries(d)) == Ok(examples)
    ensures |examples| + ImpossibleCount(Entries(d)) == |Entries(d)|
  {
    GatherPossible(Entries(d));
    EntriesSplit(Entries(d));
  }
}
