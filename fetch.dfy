/**
 * The scraping helpers of the question-paper fetcher: the filter that keeps
 * question-like texts among the first candidate elements of a page, and the
 * search queries suggested for one paper. The HTTP request and the HTML
 * parsing are not modelled: the page is given as the stripped texts of its
 * candidate elements, or as a failure.
 */
module Fetch {
  import opened Common
  import opened Text

  /** Only the first this many candidate elements are looked at. */
  const MaxElements: nat := 20

  /** A text is kept when it is longer than 20 characters and holds a '?'. */
  predicate LooksLikeQuestion(text: string) {
    |text| > 20 && '?' in text
  }

  /** The texts kept, in order. */
  function Kept(texts: seq<string>): seq<string> {
    if |texts| == 0 then []
    else Kept(texts[..|texts| - 1]) + (if LooksLikeQuestion(texts[|texts| - 1]) then [texts[|texts| - 1]] else [])
  }

  /** The first `MaxElements` candidates, as Python's `[:20]` takes them. */
  function FirstElements(texts: seq<string>): (r: seq<string>)
    ensures |r| <= MaxElements && r <= texts
    ensures |texts| >= MaxElements ==> |r| == MaxElements
    ensures |texts| <= MaxElements ==> r == texts
  {
    if |texts| <= MaxElements then texts else texts[..MaxElements]
  }

  /**
   * `fetch_questions_from_source` after the request: `None` stands for any
   * exception (request, status or parsing), which yields the empty list.
   */
  method FetchQuestions(page: Option<seq<string>>) returns (questions: seq<string>)
    ensures page.None? ==> questions == []
    ensures page.Some? ==> questions == Kept(FirstElements(page.value))
  {
    questions := [];
    if page.None? {
      return;
    }
    var elements := FirstElements(page.value);
    for k := 0 to |elements|
      invariant questions == Kept(elements[..k])
    {
      var text := elements[k];
      assert elements[..k + 1][..k] == elements[..k];
      if |text| > 20 && '?' in text {
        questions := questions + [text];
      }
    }
    assert elements[..|elements|] == elements;
  }

  /** Every kept text looks like a question and comes from the candidates. */
  lemma {:induction false} KeptSound(texts: seq<string>)
    ensures |Kept(texts)| <= |texts|
    ensures forall t :: t in Kept(texts) ==> t in texts && LooksLikeQuestion(t)
  {
    if |texts| > 0 {
      var init := texts[..|texts| - 1];
      KeptSound(init);
      assert forall t :: t in init ==> t in texts;
    }
  }

  /** Every candidate that looks like a question is kept. */
  lemma {:induction false} KeptComplete(texts: seq<string>, t: string)
    requires t in texts && LooksLikeQuestion(t)
    ensures t in Kept(texts)
  {
    var init := texts[..|texts| - 1];
    if t != texts[|texts| - 1] {
      assert t in init;
      KeptComplete(init, t);
    }
  }

  /** `ys` is `xs` with some items left out, the rest in their order. */
  predicate SubsequenceAt(ys: seq<string>, xs: seq<string>, idx: seq<nat>) {
    |idx| == |ys|
    && (forall k :: 0 <= k < |idx| ==> idx[k] < |xs| && ys[k] == xs[idx[k]])
    && (forall k, l :: 0 <= k < l < |idx| ==> idx[k] < idx[l])
  }

  /** The kept texts are the candidates in their original order, some left out. */
  lemma {:induction false} KeptInOrder(texts: seq<string>) returns (idx: seq<nat>)
    ensures SubsequenceAt(Kept(texts), texts, idx)
  {
    if |texts| == 0 {
      idx := [];
    } else {
      var n := |texts| - 1;
      var init := texts[..n];
      idx := KeptInOrder(init);
      if LooksLikeQuestion(texts[n]) {
        idx := idx + [n];
      }
    }
  }

  /**
   * What a fetch returns: at most 20 texts, each longer than 20 characters
   * and holding a '?', taken in order from the first 20 candidates; and
   * every such candidate among the first 20 is returned.
   */
  lemma FetchedQuestions(texts: seq<string>) returns (idx: seq<nat>)
    ensures |Kept(FirstElements(texts))| <= MaxElements
    ensures forall t :: t in Kept(FirstElements(texts)) ==> |t| > 20 && '?' in t
    ensures SubsequenceAt(Kept(FirstElements(texts)), FirstElements(texts), idx)
    ensures forall k :: 0 <= k < |texts| && k < MaxElements && LooksLikeQuestion(texts[k]) ==>
              texts[k] in Kept(FirstElements(texts))
  {
    var first := FirstElements(texts);
    KeptSound(first);
    idx := KeptInOrder(first);
    forall k | 0 <= k < |texts| && k < MaxElements && LooksLikeQuestion(texts[k])
      ensures texts[k] in Kept(first)
    {
      assert first[k] == texts[k];
      KeptComplete(first, texts[k]);
    }
  }

  // ---------------------------------------------------------------------------
  // Search queries
  // ---------------------------------------------------------------------------

  /** `search_question_papers_online`: three queries for one paper, each naming it and its year. */
  function SearchQueries(board: string, classLevel: string, subject: string, year: int): (r: seq<string>)
    ensures |r| == 3
    ensures forall q :: q in r ==>
              var head := board + " " + classLevel + " " + subject;
              |head| <= |q| && q[..|head|] == head && Contains(q, IntToString(year))
  {
    var head := board + " " + classLevel + " " + subject;
    var y := IntToString(year);
    [Query(head, " question paper ", y, " PDF download"),
     Query(head, " previous year paper ", y, ""),
     Query(head, " ", y, " sample paper")]
  }

  /** One query: the paper's name, some words, the year and some more words. */
  function Query(head: string, words: string, year: string, tail: string): (r: string)
    ensures |head| <= |r| && r[..|head|] == head
    ensures Contains(r, year)
  {
    var r := head + words + year + tail;
    assert r[|head + words|..|head + words| + |year|] == year;
    assert OccursAt(r, year, |head + words|);
    r
  }
}
