/**
 * The logic of the site's script: the thousands separators of `formatNumber`
 * and the dataset preview of `loadDatasetPreview`, which shows the first
 * three questions of the SQuAD-format file. The page itself (the DOM, the
 * `fetch` of the file, smooth scrolling) is not modelled: the preview is
 * computed as a value, and the loaded file is given, or a load failure.
 */
module Site {
  import opened Common
  import opened Text
  import opened Seqs
  import opened Squad

  // ---------------------------------------------------------------------------
  // formatNumber
  // ---------------------------------------------------------------------------

  /**
   * The replacement of `/\B(?=(\d{3})+(?!\d))/g` by "," over the digits `t`
   * that end the number: a comma goes before a digit that does not start the
   * number and is followed, itself included, by a multiple of three digits.
   */
  function InsertCommas(t: string, first: bool): string {
    if |t| == 0 then []
    else (if !first && |t| % 3 == 0 then "," else "") + [t[0]] + InsertCommas(t[1..], false)
  }

  /** `formatNumber(num)` for a non-negative integer. */
  function FormatNumber(n: nat): string {
    InsertCommas(NatToString(n), true)
  }

  /** The grouping the separators are meant to produce: groups of three from the right. */
  function Grouped(s: string): string {
    if |s| <= 3 then s else Grouped(s[..|s| - 3]) + "," + s[|s| - 3..]
  }

  /** A first group of one to three digits, then groups of a comma and three digits. */
  predicate GroupShape(r: string) {
    if |r| <= 3 then 1 <= |r| && forall i :: 0 <= i < |r| ==> IsDigit(r[i])
    else |r| >= 5 && r[|r| - 4] == ',' && (forall i :: |r| - 3 <= i < |r| ==> IsDigit(r[i]))
         && GroupShape(r[..|r| - 4])
  }

  /** The string with its commas deleted. */
  function RemoveCommas(s: string): (r: string)
    ensures ',' !in r
  {
    if |s| == 0 then [] else RemoveCommas(s[..|s| - 1]) + (if s[|s| - 1] == ',' then [] else [s[|s| - 1]])
  }

  /** Digits ahead of a run whose length is a multiple of three do not change where commas go in it. */
  lemma {:induction false} InsertCommasAppend(a: string, b: string, first: bool)
    requires |a| > 0 && |b| % 3 == 0
    ensures InsertCommas(a + b, first) == InsertCommas(a, first) + InsertCommas(b, false)
    decreases |a|
  {
    var t := a + b;
    assert t[1..] == a[1..] + b;
    assert t[0] == a[0];
    assert (|t| % 3 == 0) == (|a| % 3 == 0);
    if |a| > 1 {
      InsertCommasAppend(a[1..], b, false);
    } else {
      assert a[1..] + b == b;
      assert InsertCommas(a[1..], false) == [];
    }
  }

  /** Three digits after the first get exactly one comma, in front. */
  lemma LastGroup(b: string)
    requires |b| == 3
    ensures InsertCommas(b, false) == "," + b
  {
    assert b[1..][1..][1..] == [];
    assert InsertCommas(b[1..][1..], false) == [b[2]];
    assert InsertCommas(b[1..], false) == [b[1], b[2]];
    assert b == [b[0], b[1], b[2]];
  }

  /** Up to three digits get no comma. */
  lemma ShortUnchanged(s: string)
    requires |s| <= 3
    ensures InsertCommas(s, true) == s
  {
    if |s| > 0 {
      NoCommaBelowThree(s[1..]);
      assert s == [s[0]] + s[1..];
    }
  }

  /** Fewer than three digits after the first get no comma. */
  lemma {:induction false} NoCommaBelowThree(t: string)
    requires |t| < 3
    ensures InsertCommas(t, false) == t
  {
    if |t| > 0 {
      NoCommaBelowThree(t[1..]);
      assert t == [t[0]] + t[1..];
    }
  }

  /** The regular expression groups the digits in threes from the right. */
  lemma {:induction false} InsertCommasGroups(s: string)
    ensures InsertCommas(s, true) == Grouped(s)
    decreases |s|
  {
    if |s| <= 3 {
      ShortUnchanged(s);
    } else {
      var a, b := s[..|s| - 3], s[|s| - 3..];
      assert s == a + b;
      InsertCommasAppend(a, b, true);
      LastGroup(b);
      InsertCommasGroups(a);
    }
  }

  /** Grouping digits yields a first group of one to three digits and then full groups. */
  lemma {:induction false} GroupedShape(s: string)
    requires |s| >= 1 && forall i :: 0 <= i < |s| ==> IsDigit(s[i])
    ensures GroupShape(Grouped(s))
    decreases |s|
  {
    if |s| > 3 {
      var a := s[..|s| - 3];
      GroupedShape(a);
      var r := Grouped(s);
      assert r == Grouped(a) + "," + s[|s| - 3..];
      assert r[..|r| - 4] == Grouped(a);
      GroupedLength(a);
    }
  }

  lemma {:induction false} GroupedLength(s: string)
    ensures |Grouped(s)| >= |s|
    decreases |s|
  {
    if |s| > 3 {
      GroupedLength(s[..|s| - 3]);
    }
  }

  lemma {:induction false} RemoveCommasAppend(x: string, y: string)
    ensures RemoveCommas(x + y) == RemoveCommas(x) + RemoveCommas(y)
    decreases |y|
  {
    if |y| > 0 {
      assert (x + y)[..|x + y| - 1] == x + y[..|y| - 1];
      RemoveCommasAppend(x, y[..|y| - 1]);
    } else {
      assert x + y == x;
    }
  }

  lemma {:induction false} RemoveCommasNone(s: string)
    requires ',' !in s
    ensures RemoveCommas(s) == s
  {
    if |s| > 0 {
      RemoveCommasNone(s[..|s| - 1]);
    }
  }

  lemma RemoveCommasSnoc(x: string, c: char)
    ensures RemoveCommas(x + [c]) == RemoveCommas(x) + (if c == ',' then [] else [c])
  {
    assert (x + [c])[..|x|] == x;
  }

  /** A comma between two runs is deleted, and a run without commas is kept. */
  lemma RemoveSeparator(x: string, y: string)
    requires ',' !in y
    ensures RemoveCommas(x + "," + y) == RemoveCommas(x) + y
  {
    var xc := x + [','];
    assert x + "," + y == xc + y;
    RemoveCommasAppend(xc, y);
    RemoveCommasSnoc(x, ',');
    RemoveCommasNone(y);
  }

  /** Deleting the commas of a grouping gives back the digits. */
  lemma {:induction false} GroupedRoundTrip(s: string)
    requires ',' !in s
    ensures RemoveCommas(Grouped(s)) == s
    decreases |s|
  {
    if |s| <= 3 {
      RemoveCommasNone(s);
    } else {
      var a, b := s[..|s| - 3], s[|s| - 3..];
      assert s == a + b;
      assert ',' !in a && ',' !in b;
      GroupedRoundTrip(a);
      RemoveSeparator(Grouped(a), b);
    }
  }

  /**
   * What `formatNumber` promises for a non-negative integer: deleting the
   * commas gives `toString()` back, the digits come in a first group of one
   * to three and then groups of three, and below 1000 nothing changes.
   */
  lemma FormatNumberProperties(n: nat)
    ensures RemoveCommas(FormatNumber(n)) == NatToString(n)
    ensures GroupShape(FormatNumber(n))
    ensures n < 1000 ==> FormatNumber(n) == NatToString(n)
  {
    var s := NatToString(n);
    InsertCommasGroups(s);
    assert forall c :: c in s ==> IsDigit(c);
    GroupedRoundTrip(s);
    GroupedShape(s);
    NatToStringShort(n);
    if n < 1000 {
      ShortUnchanged(s);
    }
  }

  // ---------------------------------------------------------------------------
  // loadDatasetPreview
  // ---------------------------------------------------------------------------

  /** How many questions the preview shows at most. */
  const PreviewSize: nat := 3

  /** How many characters of the context a preview item quotes. */
  const ContextChars: nat := 150

  /** One preview item: its question line, its context line and its answer line. */
  datatype Item = Item(question: string, context: string, answer: string)

  /** What the preview container ends up holding. */
  datatype View = Items(items: seq<Item>) | NoData | LoadError

  /** JavaScript's `s.substring(0, n)`. */
  function Prefix(s: string, n: nat): (r: string)
    ensures |r| == (if |s| <= n then |s| else n) && r <= s
  {
    if |s| <= n then s else s[..n]
  }

  /** The item for an entry with an answer. */
  function ItemOf(e: Entry): (item: Item)
    requires |e.qa.answers| > 0
    ensures item.question == "Q: " + e.qa.question
    ensures |item.context| == 12 + (if |e.context| <= ContextChars then |e.context| else ContextChars)
    ensures item.context[..9] == "Context: " && item.context[|item.context| - 3..] == "..."
    ensures item.context[9..|item.context| - 3] == e.context[..|item.context| - 12]
    ensures item.answer == "A: " + e.qa.answers[0].text
  {
    var quoted := Prefix(e.context, ContextChars);
    var line := "Context: " + quoted + "...";
    assert line[9..|line| - 3] == quoted;
    Item("Q: " + e.qa.question, line, "A: " + e.qa.answers[0].text)
  }

  /**
   * The preview loops from the items shown so far over further entries:
   * stop once three are shown; an entry without answers throws
   * (`qa.answers[0].text` on `undefined`).
   */
  function Fill(items: seq<Item>, es: seq<Entry>): Result<seq<Item>>
    decreases |es|
  {
    if |es| == 0 || |items| >= PreviewSize then Ok(items)
    else if |es[0].qa.answers| == 0 then Err(TypeError)
    else Fill(items + [ItemOf(es[0])], es[1..])
  }

  /** The view a load shows. */
  function PreviewOf(page: Option<Dataset>): View {
    if page.None? then LoadError
    else
      match Fill([], Entries(page.value))
      case Err(_) => LoadError
      case Ok(items) => if |items| == 0 then NoData else Items(items)
  }

  lemma {:induction false} FillAppend(items: seq<Item>, xs: seq<Entry>, ys: seq<Entry>)
    ensures Fill(items, xs + ys) == match Fill(items, xs) case Err(e) => Err(e) case Ok(more) => Fill(more, ys)
    decreases |xs|
  {
    if |xs| == 0 {
      assert xs + ys == ys;
    } else if |items| < PreviewSize && |xs[0].qa.answers| > 0 {
      assert (xs + ys)[1..] == xs[1..] + ys;
      FillAppend(items + [ItemOf(xs[0])], xs[1..], ys);
    }
  }

  /** Once three items are shown, later entries change nothing. */
  lemma FillFull(items: seq<Item>, es: seq<Entry>)
    requires |items| >= PreviewSize
    ensures Fill(items, es) == Ok(items)
  {
  }

  /**
   * The reference for the preview: the items of the first `PreviewSize - |items|`
   * entries, when each of them has an answer; otherwise the error.
   */
  lemma FillTakes(items: seq<Item>, es: seq<Entry>)
    requires |items| <= PreviewSize
    ensures var n := if |es| <= PreviewSize - |items| then |es| else PreviewSize - |items|;
            Fill(items, es).Ok? <==> (forall k :: 0 <= k < n ==> |es[k].qa.answers| > 0)
    ensures var n := if |es| <= PreviewSize - |items| then |es| else PreviewSize - |items|;
            Fill(items, es).Ok? ==>
              |Fill(items, es).value| == |items| + n && Fill(items, es).value[..|items|] == items
              && forall k :: 0 <= k < n ==> |es[k].qa.answers| > 0 && Fill(items, es).value[|items| + k] == ItemOf(es[k])
  {
    FillOk(items, es);
    if Fill(items, es).Ok? {
      FillItems(items, es);
    }
  }

  /** The fill fails exactly when an entry it reaches has no answer. */
  lemma {:induction false} FillOk(items: seq<Item>, es: seq<Entry>)
    requires |items| <= PreviewSize
    ensures var n := if |es| <= PreviewSize - |items| then |es| else PreviewSize - |items|;
            Fill(items, es).Ok? <==> (forall k :: 0 <= k < n ==> |es[k].qa.answers| > 0)
    decreases |es|
  {
    if |es| > 0 && |items| < PreviewSize && |es[0].qa.answers| > 0 {
      FillOk(items + [ItemOf(es[0])], es[1..]);
      var n := if |es| <= PreviewSize - |items| then |es| else PreviewSize - |items|;
      assert forall k :: 1 <= k < n ==> es[1..][k - 1] == es[k];
    }
  }

  /** A fill that succeeds appends the items of the entries it reaches, in order. */
  lemma {:induction false} FillItems(items: seq<Item>, es: seq<Entry>)
    requires |items| <= PreviewSize && Fill(items, es).Ok?
    ensures var n := if |es| <= PreviewSize - |items| then |es| else PreviewSize - |items|;
            |Fill(items, es).value| == |items| + n && Fill(items, es).value[..|items|] == items
            && forall k :: 0 <= k < n ==> |es[k].qa.answers| > 0 && Fill(items, es).value[|items| + k] == ItemOf(es[k])
    decreases |es|
  {
    if |es| > 0 && |items| < PreviewSize {
      var next := items + [ItemOf(es[0])];
      var r := Fill(items, es).value;
      assert Fill(items, es) == Fill(next, es[1..]);
      FillItems(next, es[1..]);
      var n := if |es| <= PreviewSize - |items| then |es| else PreviewSize - |items|;
      assert forall k :: 1 <= k < n ==> es[1..][k - 1] == es[k];
      assert r[..|next|] == next;
      assert r[..|items|] == next[..|items|] == items;
      assert r[|items|] == next[|items|] == ItemOf(es[0]);
    }
  }

  /** The entries of the articles from `a` on, one article block after the other. */
  lemma ConcatFrom<T>(blocks: seq<seq<T>>, i: nat)
    requires i < |blocks|
    ensures Concat(blocks[i..]) == blocks[i] + Concat(blocks[i + 1..])
  {
    assert blocks[i..] == [blocks[i]] + blocks[i + 1..];
    ConcatAppend([blocks[i]], blocks[i + 1..]);
    assert [blocks[i]][..0] == [];
  }

  /** The innermost loop: the entries of one paragraph, while fewer than three are shown. */
  method PreviewQas(context: string, qas: seq<Qa>, items: seq<Item>) returns (r: Result<seq<Item>>)
    ensures r == Fill(items, QaEntries(context, qas))
  {
    ghost var es := QaEntries(context, qas);
    var shown := items;
    var j := 0;
    while j < |qas|
      invariant j <= |qas|
      invariant Fill(items, es) == Fill(shown, es[j..])
    {
      if |shown| >= 3 {
        break;
      }
      var qa := qas[j];
      assert es[j..][0] == Entry(context, qa) && es[j..][1..] == es[j + 1..];
      if |qa.answers| == 0 {
        return Err(TypeError);
      }
      shown := shown + [Item("Q: " + qa.question, "Context: " + Prefix(context, 150) + "...", "A: " + qa.answers[0].text)];
      j := j + 1;
    }
    return Ok(shown);
  }

  /** The middle loop: the paragraphs of one article. */
  method PreviewParagraphs(paragraphs: seq<Paragraph>, items: seq<Item>) returns (r: Result<seq<Item>>)
    ensures r == Fill(items, ParagraphEntries(paragraphs))
  {
    ghost var blocks := seq(|paragraphs|, p requires 0 <= p < |paragraphs| =>
                              QaEntries(paragraphs[p].context, paragraphs[p].qas));
    assert blocks[0..] == blocks;
    var shown := items;
    var p := 0;
    while p < |paragraphs|
      invariant p <= |paragraphs|
      invariant Fill(items, Concat(blocks)) == Fill(shown, Concat(blocks[p..]))
    {
      if |shown| >= 3 {
        break;
      }
      ConcatFrom(blocks, p);
      FillAppend(shown, blocks[p], Concat(blocks[p + 1..]));
      var more := PreviewQas(paragraphs[p].context, paragraphs[p].qas, shown);
      if more.Err? {
        return more;
      }
      shown := more.value;
      p := p + 1;
    }
    if p == |paragraphs| {
      assert blocks[p..] == [];
    }
    return Ok(shown);
  }

  /** The outer loop: the articles, while fewer than three are shown. */
  method PreviewArticles(articles: seq<Article>) returns (r: Result<seq<Item>>)
    ensures r == Fill([], ArticleEntries(articles))
  {
    ghost var blocks := seq(|articles|, a requires 0 <= a < |articles| => ParagraphEntries(articles[a].paragraphs));
    assert blocks[0..] == blocks;
    var shown: seq<Item> := [];
    var a := 0;
    while a < |articles|
      invariant a <= |articles|
      invariant Fill([], Concat(blocks)) == Fill(shown, Concat(blocks[a..]))
    {
      if |shown| >= 3 {
        break;
      }
      ConcatFrom(blocks, a);
      FillAppend(shown, blocks[a], Concat(blocks[a + 1..]));
      var more := PreviewParagraphs(articles[a].paragraphs, shown);
      if more.Err? {
        return more;
      }
      shown := more.value;
      a := a + 1;
    }
    if a == |articles| {
      assert blocks[a..] == [];
    }
    return Ok(shown);
  }

  /**
   * `loadDatasetPreview`: the first three questions of the file, or the
   * no-data message when it holds none, or the error message when the load
   * fails or an item cannot be built.
   */
  method LoadDatasetPreview(page: Option<Dataset>) returns (view: View)
    ensures view == PreviewOf(page)
  {
    if page.None? {
      return LoadError;
    }
    var filled := PreviewArticles(page.value.data);
    if filled.Err? {
      return LoadError;
    }
    if |filled.value| == 0 {
      return NoData;
    }
    return Items(filled.value);
  }

  /**
   * The preview holds at most three items, the first ones in article,
   * paragraph and question order; it is empty exactly when the file holds
   * no question.
   */
  lemma PreviewShowsFirstQuestions(d: Dataset)
    ensures var es := Entries(d);
            var n := if |es| <= PreviewSize then |es| else PreviewSize;
            match PreviewOf(Some(d))
            case Items(items) =>
              0 < n && |items| == n && forall k :: 0 <= k < n ==> |es[k].qa.answers| > 0 && items[k] == ItemOf(es[k])
            case NoData => |es| == 0
            case LoadError => exists k :: 0 <= k < n && |es[k].qa.answers| == 0
  {
    FillTakes([], Entries(d));
  }
}
