/**
 * The string primitives of Python and JavaScript that the modelled scripts use,
 * over strings as sequences of characters: substring search (`in`), `endswith`,
 * `lower`, `split(sep)`, `sep.join`, `strip()`, `str()` of an integer,
 * `replace(" ", "-")` and `os.path.join` on a POSIX system.
 */
module Text {
  import opened Common

  // ---------------------------------------------------------------------------
  // Substring search
  // ---------------------------------------------------------------------------

  /** `sub` occurs in `s` starting at index `i`. */
  predicate OccursAt(s: string, sub: string, i: int) {
    0 <= i && i + |sub| <= |s| && s[i..i + |sub|] == sub
  }

  /** The first index at which `sub` occurs in `s` (Python's `s.find(sub)`). */
  function IndexOf(s: string, sub: string): (r: Option<nat>)
    ensures r.Some? ==> OccursAt(s, sub, r.value)
    ensures r.Some? ==> forall j :: 0 <= j < r.value ==> !OccursAt(s, sub, j)
    ensures r.None? ==> forall j :: !OccursAt(s, sub, j)
    decreases |s|
  {
    if |s| < |sub| then None
    else if s[..|sub|] == sub then Some(0)
    else
      var rest := IndexOf(s[1..], sub);
      assert forall j :: 1 <= j && OccursAt(s, sub, j) ==> OccursAt(s[1..], sub, j - 1) by {
        forall j | 1 <= j && OccursAt(s, sub, j) ensures OccursAt(s[1..], sub, j - 1) {
          assert s[1..][j - 1..j - 1 + |sub|] == s[j..j + |sub|];
        }
      }
      match rest
      case None => None
      case Some(i) =>
        assert s[1..][i..i + |sub|] == s[i + 1..i + 1 + |sub|];
        Some(i + 1)
  }

  /** Python's `sub in s`. */
  predicate Contains(s: string, sub: string) {
    IndexOf(s, sub).Some?
  }

  lemma ContainsIff(s: string, sub: string)
    ensures Contains(s, sub) <==> exists i :: OccursAt(s, sub, i)
  {
  }

  /** Python's `s.endswith(suffix)`. */
  predicate EndsWith(s: string, suffix: string) {
    |suffix| <= |s| && s[|s| - |suffix|..] == suffix
  }

  // ---------------------------------------------------------------------------
  // Case and character replacement
  // ---------------------------------------------------------------------------

  function LowerChar(c: char): char {
    if 'A' <= c <= 'Z' then ((c as int) + 32) as char else c
  }

  /**
   * `s.lower()` restricted to the ASCII letters. No other character lowers to
   * '.', 'p', 'd' or 'f', so the tests `"pdf" in s.lower()` and
   * `s.lower().endswith(".pdf")` get the same answer from this function.
   */
  function Lower(s: string): (r: string)
    ensures |r| == |s|
    ensures forall i :: 0 <= i < |s| ==> r[i] == LowerChar(s[i])
  {
    seq(|s|, i requires 0 <= i < |s| => LowerChar(s[i]))
  }

  /** Python's `s.replace(" ", "-")`, which every path builder applies to names. */
  function Dashed(s: string): (r: string)
    ensures |r| == |s|
    ensures forall i :: 0 <= i < |s| ==> r[i] == if s[i] == ' ' then '-' else s[i]
    ensures ' ' !in r
  {
    seq(|s|, i requires 0 <= i < |s| => if s[i] == ' ' then '-' else s[i])
  }

  // ---------------------------------------------------------------------------
  // split and join
  // ---------------------------------------------------------------------------

  /** Python's `sep.join(parts)`. */
  function Join(parts: seq<string>, sep: string): string {
    if |parts| == 0 then ""
    else if |parts| == 1 then parts[0]
    else parts[0] + sep + Join(parts[1..], sep)
  }

  /**
   * Python's `s.split(sep)` for a non-empty separator (an empty one raises
   * `ValueError`): the pieces between the occurrences found left to right.
   */
  function Split(s: string, sep: string): (parts: seq<string>)
    requires |sep| > 0
    ensures |parts| >= 1
    decreases |s|
  {
    match IndexOf(s, sep)
    case None => [s]
    case Some(i) => [s[..i]] + Split(s[i + |sep|..], sep)
  }

  /** Joining the pieces of a split with the same separator gives back the string. */
  lemma {:induction false} JoinSplit(s: string, sep: string)
    requires |sep| > 0
    ensures Join(Split(s, sep), sep) == s
    decreases |s|
  {
    match IndexOf(s, sep)
    case None =>
    case Some(i) =>
      var rest := s[i + |sep|..];
      JoinSplit(rest, sep);
      SplitJoinStep(s, sep, i);
  }

  /** Split and join agree on the piece up to the first separator. */
  lemma SplitJoinStep(s: string, sep: string, i: nat)
    requires |sep| > 0 && IndexOf(s, sep) == Some(i)
    ensures Join(Split(s, sep), sep) == s[..i] + sep + Join(Split(s[i + |sep|..], sep), sep)
    ensures s == s[..i] + sep + s[i + |sep|..]
  {
    var pieces := Split(s[i + |sep|..], sep);
    SplitAt(s, sep, i);
    JoinCons(s[..i], pieces, sep);
    AroundOccurrence(s, sep, i);
  }

  lemma SplitAt(s: string, sep: string, i: nat)
    requires |sep| > 0 && IndexOf(s, sep) == Some(i)
    ensures Split(s, sep) == [s[..i]] + Split(s[i + |sep|..], sep)
  {
  }

  /** A string is what precedes an occurrence, the occurrence, and what follows it. */
  lemma AroundOccurrence(s: string, sub: string, i: nat)
    requires OccursAt(s, sub, i)
    ensures s == s[..i] + sub + s[i + |sub|..]
  {
    assert s == s[..i] + s[i..i + |sub|] + s[i + |sub|..];
  }

  lemma JoinCons(first: string, rest: seq<string>, sep: string)
    requires |rest| > 0
    ensures Join([first] + rest, sep) == first + sep + Join(rest, sep)
  {
    assert ([first] + rest)[1..] == rest;
  }

  /** No piece of a split contains the separator. */
  lemma {:induction false} SplitPiecesFree(s: string, sep: string)
    requires |sep| > 0
    ensures forall k :: 0 <= k < |Split(s, sep)| ==> !Contains(Split(s, sep)[k], sep)
    decreases |s|
  {
    match IndexOf(s, sep)
    case None =>
    case Some(i) =>
      var rest := s[i + |sep|..];
      SplitPiecesFree(rest, sep);
      PrefixBeforeFirstFree(s, sep, i);
      assert Split(s, sep) == [s[..i]] + Split(rest, sep);
  }

  /** The text before the first occurrence of `sep` does not contain `sep`. */
  lemma PrefixBeforeFirstFree(s: string, sep: string, i: nat)
    requires |sep| > 0
    requires IndexOf(s, sep) == Some(i)
    ensures !Contains(s[..i], sep)
  {
    forall j | OccursAt(s[..i], sep, j) ensures OccursAt(s, sep, j) && j < i {
      assert s[..i][j..j + |sep|] == s[j..j + |sep|];
    }
  }

  /** The number of pieces of a split is one more than the number of separators found. */
  function CountOccurrences(s: string, sep: string): nat
    requires |sep| > 0
    decreases |s|
  {
    match IndexOf(s, sep)
    case None => 0
    case Some(i) => 1 + CountOccurrences(s[i + |sep|..], sep)
  }

  lemma {:induction false} SplitLength(s: string, sep: string)
    requires |sep| > 0
    ensures |Split(s, sep)| == CountOccurrences(s, sep) + 1
    decreases |s|
  {
    match IndexOf(s, sep)
    case None =>
    case Some(i) => SplitLength(s[i + |sep|..], sep);
  }

  /** With one-character separators, the count is the number of that character. */
  function CountChar(s: string, c: char): nat {
    if |s| == 0 then 0 else (if s[0] == c then 1 else 0) + CountChar(s[1..], c)
  }

  lemma {:induction false} CountCharAppend(a: string, b: string, c: char)
    ensures CountChar(a + b, c) == CountChar(a, c) + CountChar(b, c)
    decreases |a|
  {
    if |a| == 0 {
      assert a + b == b;
    } else {
      assert (a + b)[1..] == a[1..] + b;
      CountCharAppend(a[1..], b, c);
    }
  }

  lemma {:induction false} CountOccurrencesOfChar(s: string, c: char)
    ensures CountOccurrences(s, [c]) == CountChar(s, c)
    decreases |s|
  {
    match IndexOf(s, [c])
    case None =>
      CharOccurs(s, c);
    case Some(i) =>
      var rest := s[i + 1..];
      CountOccurrencesOfChar(rest, c);
      PrefixBeforeFirstFree(s, [c], i);
      CharOccurs(s[..i], c);
      assert s == s[..i] + [c] + rest by { assert s[i..i + 1] == [c]; }
      CountCharAppend(s[..i] + [c], rest, c);
      CountCharAppend(s[..i], [c], c);
  }

  lemma {:induction false} CountCharAbsent(s: string, c: char)
    requires forall i :: 0 <= i < |s| ==> s[i] != c
    ensures CountChar(s, c) == 0
    decreases |s|
  {
    if |s| > 0 {
      CountCharAbsent(s[1..], c);
    }
  }

  /** Words without `c` joined by `c` hold one `c` fewer than there are words. */
  lemma {:induction false} CountCharJoined(words: seq<string>, c: char)
    requires |words| > 0
    requires forall k, i :: 0 <= k < |words| && 0 <= i < |words[k]| ==> words[k][i] != c
    ensures CountChar(Join(words, [c]), c) == |words| - 1
  {
    if |words| == 1 {
      CountCharAbsent(words[0], c);
    } else {
      CountCharJoined(words[1..], c);
      CountCharAbsent(words[0], c);
      assert [c][1..] == [];
      CountCharAppend(words[0], [c], c);
      CountCharAppend(words[0] + [c], Join(words[1..], [c]), c);
    }
  }

  lemma CharOccurs(s: string, c: char)
    ensures CountChar(s, c) > 0 ==> Contains(s, [c])
  {
    if CountChar(s, c) > 0 {
      var k := FindChar(s, c);
      assert s[k..k + 1] == [c];
      assert OccursAt(s, [c], k);
    }
  }

  /** A position of `c` in `s` when `s` counts one. */
  lemma FindChar(s: string, c: char) returns (k: nat)
    requires CountChar(s, c) > 0
    ensures k < |s| && s[k] == c
    decreases |s|
  {
    if s[0] == c {
      k := 0;
    } else {
      var k' := FindChar(s[1..], c);
      k := k' + 1;
    }
  }

  // ---------------------------------------------------------------------------
  // strip()
  // ---------------------------------------------------------------------------

  /** Python's `str.isspace()` for one character. */
  predicate IsSpace(c: char) {
    var k := c as int;
    (9 <= k <= 13) || (28 <= k <= 32) || k == 0x85 || k == 0xA0 || k == 0x1680
    || (0x2000 <= k <= 0x200A) || k == 0x2028 || k == 0x2029 || k == 0x202F
    || k == 0x205F || k == 0x3000
  }

  function TrimStart(s: string): (r: string)
    ensures |r| <= |s| && r == s[|s| - |r|..]
    ensures forall i :: 0 <= i < |s| - |r| ==> IsSpace(s[i])
    ensures r == [] || !IsSpace(r[0])
  {
    if |s| > 0 && IsSpace(s[0]) then TrimStart(s[1..]) else s
  }

  function TrimEnd(s: string): (r: string)
    ensures |r| <= |s| && r == s[..|r|]
    ensures forall i :: |r| <= i < |s| ==> IsSpace(s[i])
    ensures r == [] || !IsSpace(r[|r| - 1])
  {
    if |s| > 0 && IsSpace(s[|s| - 1]) then TrimEnd(s[..|s| - 1]) else s
  }

  /** Python's `s.strip()`: the slice left after dropping whitespace at both ends. */
  function Strip(s: string): (r: string)
    ensures |r| <= |s|
    ensures r == [] || (!IsSpace(r[0]) && !IsSpace(r[|r| - 1]))
  {
    var t := TrimStart(s);
    var r := TrimEnd(t);
    assert r != [] ==> r[0] == t[0];
    r
  }

  /** What strip() keeps is a slice of the original, and only whitespace is dropped. */
  lemma StripSlice(s: string) returns (i: nat)
    ensures i + |Strip(s)| <= |s| && Strip(s) == s[i..i + |Strip(s)|]
    ensures forall k :: 0 <= k < i ==> IsSpace(s[k])
    ensures forall k :: i + |Strip(s)| <= k < |s| ==> IsSpace(s[k])
  {
    var t := TrimStart(s);
    i := |s| - |t|;
    var r := TrimEnd(t);
    assert Strip(s) == r;
    PrefixOfSuffix(s, t, r, i);
  }

  /** A prefix `r` of the suffix `t` of `s` from `i` on, with only whitespace after it in `t`. */
  lemma PrefixOfSuffix(s: string, t: string, r: string, i: nat)
    requires i <= |s| && t == s[i..] && |r| <= |t| && r == t[..|r|]
    requires forall j :: |r| <= j < |t| ==> IsSpace(t[j])
    ensures r == s[i..i + |r|]
    ensures forall k :: i + |r| <= k < |s| ==> IsSpace(s[k])
  {
    forall k | i + |r| <= k < |s| ensures IsSpace(s[k]) {
      assert s[k] == t[k - i];
    }
  }

  /** Stripping cannot create an occurrence that was not in the original string. */
  lemma StripKeepsAbsence(s: string, sub: string)
    requires !Contains(s, sub)
    ensures !Contains(Strip(s), sub)
  {
    var i := StripSlice(s);
    SliceKeepsAbsence(s, sub, i, i + |Strip(s)|);
  }

  /** A slice of a string contains only what the string contains. */
  lemma SliceKeepsAbsence(s: string, sub: string, i: nat, j: nat)
    requires i <= j <= |s|
    requires forall k :: !OccursAt(s, sub, k)
    ensures forall k :: !OccursAt(s[i..j], sub, k)
  {
    forall k | OccursAt(s[i..j], sub, k) ensures OccursAt(s, sub, i + k) {
      var inSlice, inWhole := s[i..j][k..k + |sub|], s[i + k..i + k + |sub|];
      assert forall m :: 0 <= m < |sub| ==> inSlice[m] == inWhole[m];
      assert inSlice == inWhole;
    }
  }

  // ---------------------------------------------------------------------------
  // str() of integers
  // ---------------------------------------------------------------------------

  predicate IsDigit(c: char) {
    '0' <= c <= '9'
  }

  function DigitChar(d: nat): (c: char)
    requires d < 10
    ensures IsDigit(c) && (c as int) - ('0' as int) == d
  {
    ((d + '0' as int) as char)
  }

  /** Python's `str(n)` and JavaScript's `n.toString()` for a natural number. */
  function NatToString(n: nat): (r: string)
    ensures |r| >= 1
    ensures forall i :: 0 <= i < |r| ==> IsDigit(r[i])
    ensures r[0] == '0' ==> n == 0 && r == "0"
  {
    if n < 10 then [DigitChar(n)] else NatToString(n / 10) + [DigitChar(n % 10)]
  }

  /** The number a string of decimal digits denotes. */
  function DigitsValue(s: string): nat
    requires forall i :: 0 <= i < |s| ==> IsDigit(s[i])
  {
    if |s| == 0 then 0
    else DigitsValue(s[..|s| - 1]) * 10 + DigitValue(s[|s| - 1])
  }

  function DigitValue(c: char): nat
    requires IsDigit(c)
  {
    (c as int) - ('0' as int)
  }

  /** Reading back the digits of `str(n)` gives `n`. */
  lemma {:induction false} NatToStringValue(n: nat)
    ensures DigitsValue(NatToString(n)) == n
  {
    if n >= 10 {
      NatToStringValue(n / 10);
      var r := NatToString(n);
      assert r[..|r| - 1] == NatToString(n / 10);
    }
  }

  /** `str(n)` has no more digits than needed: below 1000 means at most three. */
  lemma {:induction false} NatToStringShort(n: nat)
    ensures |NatToString(n)| <= 3 <==> n < 1000
  {
    if n >= 10 {
      NatToStringShort(n / 10);
    }
  }

  /** Different numbers print differently. */
  lemma NatToStringInjective(m: nat, n: nat)
    requires NatToString(m) == NatToString(n)
    ensures m == n
  {
    NatToStringValue(m);
    NatToStringValue(n);
  }

  /**
   * A run of digits followed by a non-digit is determined by the string: the
   * digits end where the first non-digit is.
   */
  lemma DigitsPrefixUnique(a: string, x: string, b: string, y: string)
    requires forall i :: 0 <= i < |a| ==> IsDigit(a[i])
    requires forall i :: 0 <= i < |b| ==> IsDigit(b[i])
    requires |x| > 0 && !IsDigit(x[0]) && |y| > 0 && !IsDigit(y[0])
    requires a + x == b + y
    ensures a == b && x == y
  {
    var s := a + x;
    DigitRunLength(a, x);
    DigitRunLength(b, y);
    assert a == s[..|a|] && b == s[..|b|];
    assert x == s[|a|..] && y == s[|b|..];
  }

  /** The number of leading digits of `s`. */
  function LeadingDigits(s: string): nat {
    if |s| == 0 || !IsDigit(s[0]) then 0 else 1 + LeadingDigits(s[1..])
  }

  lemma {:induction false} DigitRunLength(a: string, x: string)
    requires forall i :: 0 <= i < |a| ==> IsDigit(a[i])
    requires |x| > 0 && !IsDigit(x[0])
    ensures LeadingDigits(a + x) == |a|
    decreases |a|
  {
    if |a| == 0 {
      assert a + x == x;
    } else {
      assert (a + x)[1..] == a[1..] + x;
      DigitRunLength(a[1..], x);
    }
  }

  /** Python's `str(i)` for any integer. */
  function IntToString(i: int): (r: string)
    ensures |r| >= 1
    ensures r[0] == '-' <==> i < 0
  {
    if i < 0 then "-" + NatToString(-i) else NatToString(i)
  }

  // ---------------------------------------------------------------------------
  // os.path.join on POSIX
  // ---------------------------------------------------------------------------

  /**
   * `posixpath.join(a, b)`: an absolute `b` replaces `a`; otherwise `b` is
   * appended, with a "/" unless `a` is empty or already ends with one.
   */
  function PathJoin(a: string, b: string): string {
    if |b| > 0 && b[0] == '/' then b
    else if |a| == 0 || a[|a| - 1] == '/' then a + b
    else a + "/" + b
  }

  /** `os.path.join(base, parts[0], parts[1], ...)`: the two-argument join folded left. */
  function PathJoinAll(base: string, parts: seq<string>): string
    decreases |parts|
  {
    if |parts| == 0 then base
    else PathJoinAll(PathJoin(base, parts[0]), parts[1..])
  }

  /** Joining a list of parts is joining its first half, then the rest onto that. */
  lemma {:induction false} PathJoinAllAppend(base: string, xs: seq<string>, ys: seq<string>)
    ensures PathJoinAll(base, xs + ys) == PathJoinAll(PathJoinAll(base, xs), ys)
    decreases |xs|
  {
    if |xs| == 0 {
      assert xs + ys == ys;
    } else {
      assert (xs + ys)[1..] == xs[1..] + ys;
      PathJoinAllAppend(PathJoin(base, xs[0]), xs[1..], ys);
    }
  }

  /** A path component that neither starts nor ends with a separator. */
  predicate Plain(s: string) {
    |s| > 0 && s[0] != '/' && s[|s| - 1] != '/'
  }

  /** Joining plain components puts exactly one "/" between them. */
  lemma {:induction false} PathJoinAllPlain(base: string, parts: seq<string>)
    requires Plain(base) && |parts| > 0
    requires forall k :: 0 <= k < |parts| ==> Plain(parts[k])
    ensures PathJoinAll(base, parts) == base + "/" + Join(parts, "/")
    decreases |parts|
  {
    var next := base + "/" + parts[0];
    assert PathJoin(base, parts[0]) == next;
    if |parts| > 1 {
      PathJoinAllPlain(next, parts[1..]);
    }
  }

  /** Plainness is kept by replacing spaces with dashes. */
  lemma DashedPlain(s: string)
    requires Plain(s)
    ensures Plain(Dashed(s))
  {
  }

  /** A year rendered by `str()` is a plain path component. */
  lemma IntToStringPlain(i: int)
    ensures Plain(IntToString(i))
  {
    var r := IntToString(i);
    if i < 0 {
      assert r[1..] == NatToString(-i);
      assert IsDigit(r[|r| - 1]);
    } else {
      assert IsDigit(r[0]) && IsDigit(r[|r| - 1]);
    }
  }

  /** A placeholder line "Q<i>" followed by the rest of its text. */
  function QLine(i: nat, rest: string): string {
    "Q" + NatToString(i) + rest
  }

  /** Two placeholder lines whose rests start with a non-digit are equal only for the same number. */
  lemma QLineInjective(i: nat, x: string, j: nat, y: string)
    requires |x| > 0 && !IsDigit(x[0]) && |y| > 0 && !IsDigit(y[0])
    requires QLine(i, x) == QLine(j, y)
    ensures i == j
  {
    var a, b := NatToString(i), NatToString(j);
    assert QLine(i, x) == "Q" + (a + x);
    assert QLine(j, y) == "Q" + (b + y);
    assert a + x == ("Q" + (a + x))[1..];
    assert b + y == ("Q" + (b + y))[1..];
    DigitsPrefixUnique(a, x, b, y);
    NatToStringInjective(i, j);
  }
}
