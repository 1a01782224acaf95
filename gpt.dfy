/**
 * The string handling around the GPT model in the GPT example script: the
 * prompt built from a context and a question, and the answer cut out of the
 * text the model generates. The model and its tokenizer are not modelled;
 * the decoded text is a parameter.
 */
module Gpt {
  import opened Common
  import opened Text

  const Marker: string := "Answer:"

  /** `format_prompt`: the context, the question, and the "Answer:" cue the model continues. */
  function FormatPrompt(context: string, question: string): (r: string)
    ensures |r| == |context| + |question| + 30
    ensures r[..9 + |context|] == "Context: " + context
    ensures EndsWith(r, Marker)
  {
    "Context: " + context + "\n\nQuestion: " + question + "\n\n" + Marker
  }

  /** The question sits between the context and the answer cue. */
  lemma PromptQuestion(context: string, question: string)
    ensures FormatPrompt(context, question)[21 + |context|..21 + |context| + |question|] == question
  {
    var p := FormatPrompt(context, question);
    assert p == ("Context: " + context + "\n\nQuestion: ") + question + ("\n\n" + Marker);
  }

  /** Two prompts are equal only for the same context and the same question. */
  lemma PromptInjective(c1: string, q1: string, c2: string, q2: string)
    requires FormatPrompt(c1, q1) == FormatPrompt(c2, q2)
    requires |c1| == |c2|
    ensures c1 == c2 && q1 == q2
  {
    var p := FormatPrompt(c1, q1);
    assert "Context: " + c1 == p[..9 + |c1|] == "Context: " + c2;
    assert c1 == ("Context: " + c1)[9..];
    assert c2 == ("Context: " + c2)[9..];
    PromptQuestion(c1, q1);
    PromptQuestion(c2, q2);
  }

  /**
   * The answer extraction of `generate_answer`: the text after the last
   * "Answer:" when there is one, otherwise the text past the prompt's length;
   * stripped either way.
   */
  function ExtractAnswer(generated: string, prompt: string): (r: string)
    ensures |r| <= |generated|
    ensures r == [] || (!IsSpace(r[0]) && !IsSpace(r[|r| - 1]))
    ensures !Contains(r, Marker)
    ensures !Contains(generated, Marker) && |generated| <= |prompt| ==> r == []
  {
    if Contains(generated, Marker) then
      var parts := Split(generated, Marker);
      var last := Last(parts);
      SplitPiecesFree(generated, Marker);
      StripKeepsAbsence(last, Marker);
      SplitShorter(generated, Marker);
      Strip(last)
    else
      var rest := if |prompt| <= |generated| then generated[|prompt|..] else [];
      SliceKeepsAbsence(generated, Marker, |generated| - |rest|, |generated|);
      assert generated[|generated| - |rest|..|generated|] == rest;
      StripKeepsAbsence(rest, Marker);
      Strip(rest)
  }

  /** Python's `xs[-1]` on a non-empty list. */
  function Last(xs: seq<string>): string
    requires |xs| > 0
  {
    xs[|xs| - 1]
  }

  /** No piece of a split is longer than the string split. */
  lemma {:induction false} SplitShorter(s: string, sep: string)
    requires |sep| > 0
    ensures forall k :: 0 <= k < |Split(s, sep)| ==> |Split(s, sep)[k]| <= |s|
    decreases |s|
  {
    match IndexOf(s, sep)
    case None =>
    case Some(i) =>
      SplitShorter(s[i + |sep|..], sep);
  }

  // ---------------------------------------------------------------------------
  // The answer to an echoed prompt
  // ---------------------------------------------------------------------------

  /** An occurrence in a suffix is an occurrence in the whole string, shifted. */
  lemma OccursShift(s: string, sub: string, m: nat, k: nat)
    requires m <= |s|
    ensures OccursAt(s[m..], sub, k) <==> OccursAt(s, sub, m + k)
  {
    if OccursAt(s[m..], sub, k) {
      assert s[m..][k..k + |sub|] == s[m + k..m + k + |sub|];
    }
    if OccursAt(s, sub, m + k) {
      assert s[m..][k..k + |sub|] == s[m + k..m + k + |sub|];
    }
  }

  /**
   * `sep` occurs at `n`, not after it, and no earlier occurrence runs into
   * the one at `n`.
   */
  ghost predicate LastSeparator(s: string, sep: string, n: nat) {
    |sep| > 0 && OccursAt(s, sep, n)
    && (forall j :: n < j ==> !OccursAt(s, sep, j))
    && (forall i :: 0 <= i < n && OccursAt(s, sep, i) ==> i + |sep| <= n)
  }

  /** The last piece of the split at such a separator is what follows it. */
  lemma {:induction false} LastPiece(s: string, sep: string, n: nat)
    requires LastSeparator(s, sep, n)
    ensures Last(Split(s, sep)) == s[n + |sep|..]
    decreases |s|
  {
    var i := LastAfterFirst(s, sep, n);
    if i == n {
      LastAfterLast(s, sep, n);
    } else {
      var m := ShiftedConditions(s, sep, i, n);
      LastPiece(s[i + |sep|..], sep, m);
      DropDrop(s, i + |sep|, m + |sep|);
    }
  }

  /**
   * The last piece of a split is the last piece of the split of what follows
   * the first separator, which comes no later than any occurrence `n`.
   */
  lemma LastAfterFirst(s: string, sep: string, n: nat) returns (i: nat)
    requires |sep| > 0 && OccursAt(s, sep, n)
    ensures i <= n && OccursAt(s, sep, i)
    ensures Last(Split(s, sep)) == Last(Split(s[i + |sep|..], sep))
  {
    i := FirstOccurrence(s, sep, n);
    SplitAt(s, sep, i);
    LastCons(s[..i], Split(s[i + |sep|..], sep));
  }

  lemma LastSingleton(x: string)
    ensures Last([x]) == x
  {
  }

  lemma LastCons(first: string, rest: seq<string>)
    requires |rest| > 0
    ensures Last([first] + rest) == Last(rest)
  {
  }

  lemma DropDrop(s: string, a: nat, b: nat)
    requires a + b <= |s|
    ensures s[a..][b..] == s[a + b..]
  {
  }

  /** The first occurrence comes no later than any occurrence. */
  lemma FirstOccurrence(s: string, sep: string, n: nat) returns (i: nat)
    requires OccursAt(s, sep, n)
    ensures IndexOf(s, sep) == Some(i) && i <= n && OccursAt(s, sep, i)
  {
    i := IndexOf(s, sep).value;
  }

  lemma LastAfterLast(s: string, sep: string, n: nat)
    requires |sep| > 0 && OccursAt(s, sep, n)
    requires forall j :: n < j ==> !OccursAt(s, sep, j)
    ensures Last(Split(s[n + |sep|..], sep)) == s[n + |sep|..]
  {
    NothingAfter(s, sep, n);
    LastSingleton(s[n + |sep|..]);
  }

  /** With no occurrence after `n`, the text after the occurrence at `n` splits into itself. */
  lemma NothingAfter(s: string, sep: string, n: nat)
    requires |sep| > 0 && OccursAt(s, sep, n)
    requires forall j :: n < j ==> !OccursAt(s, sep, j)
    ensures Split(s[n + |sep|..], sep) == [s[n + |sep|..]]
  {
    NoneAfter(s, sep, n, s[n + |sep|..]);
    SplitWhole(s[n + |sep|..], sep);
  }

  /** No occurrence after `n` means none in the text past the occurrence at `n`. */
  lemma NoneAfter(s: string, sep: string, n: nat, rest: string)
    requires |sep| > 0 && n + |sep| <= |s| && rest == s[n + |sep|..]
    requires forall j :: n < j ==> !OccursAt(s, sep, j)
    ensures forall k :: !OccursAt(rest, sep, k)
  {
    forall k: nat ensures !OccursAt(rest, sep, k) {
      OccursShift(s, sep, n + |sep|, k);
    }
  }

  /** A string with no occurrence of the separator splits into itself. */
  lemma SplitWhole(t: string, sep: string)
    requires |sep| > 0
    requires forall k :: !OccursAt(t, sep, k)
    ensures Split(t, sep) == [t]
  {
    assert IndexOf(t, sep).None?;
  }

  /** The conditions of `LastPiece` carry over to the text after an earlier occurrence `i`. */
  lemma ShiftedConditions(s: string, sep: string, i: nat, n: nat) returns (m: nat)
    requires LastSeparator(s, sep, n) && i < n && OccursAt(s, sep, i)
    ensures i + |sep| + m == n
    ensures LastSeparator(s[i + |sep|..], sep, m)
  {
    var k := i + |sep|;
    m := n - k;
    OccursShift(s, sep, k, m);
    forall j: nat | m < j ensures !OccursAt(s[k..], sep, j) {
      OccursShift(s, sep, k, j);
    }
    forall l: nat | l < m && OccursAt(s[k..], sep, l) ensures l + |sep| <= m {
      OccursShift(s, sep, k, l);
    }
  }

  /** Two occurrences of "Answer:" never overlap: its first letter does not recur in it. */
  lemma MarkerApart(s: string, i: nat, n: nat)
    requires OccursAt(s, Marker, i) && OccursAt(s, Marker, n) && i < n
    ensures i + 7 <= n
  {
    assert forall k :: 0 <= k < 7 ==> s[i + k] == s[i..i + 7][k] == Marker[k];
    assert s[n] == s[n..n + 7][0] == 'A';
  }

  /**
   * A model that echoes its prompt and continues it with text free of
   * "Answer:" yields that continuation, stripped: the cue that ends the
   * prompt is the last occurrence, whatever the context and question hold.
   */
  lemma EchoedPromptAnswer(context: string, question: string, continuation: string)
    requires !Contains(continuation, Marker)
    ensures ExtractAnswer(FormatPrompt(context, question) + continuation, FormatPrompt(context, question))
            == Strip(continuation)
  {
    var p := FormatPrompt(context, question);
    var s := p + continuation;
    var n := |p| - 7;
    assert s[n..n + 7] == p[n..] == Marker;
    assert s[n + 7..] == continuation;
    NoMarkerAfter(p, continuation);
    forall i: nat | i < n && OccursAt(s, Marker, i) ensures i + 7 <= n {
      MarkerApart(s, i, n);
    }
    assert LastSeparator(s, Marker, n);
    LastPiece(s, Marker, n);
    assert Contains(s, Marker);
  }

  /** Past the cue that ends a prompt, "Answer:" occurs only in the continuation. */
  lemma NoMarkerAfter(p: string, continuation: string)
    requires |p| >= 7 && p[|p| - 7..] == Marker
    requires !Contains(continuation, Marker)
    ensures forall j :: |p| - 7 < j ==> !OccursAt(p + continuation, Marker, j)
  {
    var s := p + continuation;
    assert s[|p|..] == continuation;
    forall j: nat | |p| - 7 < j ensures !OccursAt(s, Marker, j) {
      if j < |p| {
        CueTail(p, j);
      } else {
        OccursShift(s, Marker, |p|, j - |p|);
      }
    }
  }

  /** Inside the cue, no position after its first holds an 'A'. */
  lemma CueTail(p: string, j: nat)
    requires |p| >= 7 && p[|p| - 7..] == Marker && |p| - 7 < j < |p|
    ensures p[j] != 'A'
  {
    assert p[j] == p[|p| - 7..][j - (|p| - 7)];
  }
}
