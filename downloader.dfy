/**
 * The real-paper downloader: the retry-and-accept loop of `download_pdf`, the
 * mapping from a paper name to its save path, and the loop over the direct
 * download links that counts successful downloads.
 *
 * The network is a function from the attempt number to what that attempt got
 * back; the filesystem is a map from path to file size; `time.sleep` only adds
 * to a counter of seconds slept.
 */
module Downloader {
  import opened Common
  import opened Text

  /** What one call to `requests.get` gave the loop. */
  datatype Attempt =
    | RequestFailed                 // a `RequestException` (connection error, timeout, ...)
    | Response(status: int, contentType: string, bodySize: nat)
      // `contentType` is "" when the header is missing; `bodySize` is what the
      // chunk loop writes to the file

  const MinSize: nat := 1000        // accepted files are strictly larger
  const RetrySleep: nat := 2        // seconds between attempts
  const PoliteSleep: nat := 1       // seconds after each direct-link download
  const DefaultRetries: int := 3

  /** "pdf" in the lower-cased content type, or a lower-cased URL ending in ".pdf". */
  predicate LooksLikePdf(url: string, contentType: string) {
    Contains(Lower(contentType), "pdf") || EndsWith(Lower(url), ".pdf")
  }

  /** The attempt writes the body to the save path. */
  predicate Writes(url: string, a: Attempt) {
    a.Response? && a.status == 200 && LooksLikePdf(url, a.contentType)
  }

  /** The attempt is accepted: written, and bigger than the minimum size. */
  predicate Accepted(url: string, a: Attempt) {
    Writes(url, a) && a.bodySize > MinSize
  }

  /** What one call leaves at the save path, relative to what was there before. */
  datatype FileEffect = Untouched | Written(size: nat) | Removed

  function ApplyEffect(files: map<string, nat>, path: string, effect: FileEffect): map<string, nat> {
    match effect
    case Untouched => files
    case Written(size) => files[path := size]
    case Removed => files - {path}
  }

  /** The outcome of one call: its result, how many requests and sleeps it made, and its file effect. */
  datatype Run = Run(ok: bool, requests: nat, sleeps: nat, file: FileEffect)

  /** One attempt, given the save path's effect so far: accepted?, and the effect after it. */
  function Step(url: string, a: Attempt, file: FileEffect): (bool, FileEffect) {
    match a
    case RequestFailed => (false, file)
    case Response(status, contentType, size) =>
      if status != 200 then (false, file)
      else if !LooksLikePdf(url, contentType) then (false, file)
      else if size > MinSize then (true, Written(size))
      else (false, Removed)
  }

  /**
   * The retry loop as a state machine, from attempt `attempt` on, with `sleeps`
   * sleeps made and the effect `file` so far.
   */
  function RunFrom(url: string, net: nat -> Attempt, maxRetries: int, attempt: nat,
                   sleeps: nat, file: FileEffect): Run
    decreases maxRetries - attempt
  {
    if attempt >= maxRetries then Run(false, attempt, sleeps, file)
    else
      var (accepted, file') := Step(url, net(attempt), file);
      if accepted then Run(true, attempt + 1, sleeps, file')
      else
        var sleeps' := if attempt < maxRetries - 1 then sleeps + 1 else sleeps;
        RunFrom(url, net, maxRetries, attempt + 1, sleeps', file')
  }

  /** The retry loop after one attempt: it stops on an accepted one, and goes on otherwise. */
  lemma RunFromStep(url: string, net: nat -> Attempt, maxRetries: int, attempt: nat,
                    sleeps: nat, file: FileEffect)
    requires attempt < maxRetries
    ensures Step(url, net(attempt), file).0 ==>
              RunFrom(url, net, maxRetries, attempt, sleeps, file)
              == Run(true, attempt + 1, sleeps, Step(url, net(attempt), file).1)
    ensures !Step(url, net(attempt), file).0 ==>
              RunFrom(url, net, maxRetries, attempt, sleeps, file)
              == RunFrom(url, net, maxRetries, attempt + 1,
                         if attempt < maxRetries - 1 then sleeps + 1 else sleeps,
                         Step(url, net(attempt), file).1)
  {
  }

  /** A write or a removal at a path overrides whatever an earlier call left there. */
  lemma ApplyEffectOver(files: map<string, nat>, path: string, earlier: FileEffect, later: FileEffect)
    requires !later.Untouched?
    ensures ApplyEffect(ApplyEffect(files, path, earlier), path, later) == ApplyEffect(files, path, later)
  {
  }

  /** `download_pdf(url, save_path, max_retries)` as a value. */
  function Download(url: string, net: nat -> Attempt, maxRetries: int): Run {
    RunFrom(url, net, maxRetries, 0, 0, Untouched)
  }

  // ---------------------------------------------------------------------------
  // What the retry loop promises
  // ---------------------------------------------------------------------------

  lemma {:induction false} RunFromOkIff(url: string, net: nat -> Attempt, maxRetries: int,
                                        attempt: nat, sleeps: nat, file: FileEffect)
    ensures RunFrom(url, net, maxRetries, attempt, sleeps, file).ok
            <==> exists k :: attempt <= k < maxRetries && Accepted(url, net(k))
    decreases maxRetries - attempt
  {
    if attempt < maxRetries {
      var (accepted, file') := Step(url, net(attempt), file);
      if !accepted {
        var sleeps' := if attempt < maxRetries - 1 then sleeps + 1 else sleeps;
        RunFromOkIff(url, net, maxRetries, attempt + 1, sleeps', file');
        if exists k :: attempt <= k < maxRetries && Accepted(url, net(k)) {
          var k :| attempt <= k < maxRetries && Accepted(url, net(k));
          assert k != attempt;
        }
      }
    }
  }

  /** The download succeeds exactly when one of the first `maxRetries` attempts is accepted. */
  lemma DownloadOkIff(url: string, net: nat -> Attempt, maxRetries: int)
    ensures Download(url, net, maxRetries).ok
            <==> exists k :: 0 <= k < maxRetries && Accepted(url, net(k))
  {
    RunFromOkIff(url, net, maxRetries, 0, 0, Untouched);
  }

  lemma {:induction false} RunFromFirstAccepted(url: string, net: nat -> Attempt, maxRetries: int,
                                                attempt: nat, sleeps: nat, file: FileEffect, k: nat)
    requires attempt <= k < maxRetries && Accepted(url, net(k))
    requires forall j :: attempt <= j < k ==> !Accepted(url, net(j))
    ensures RunFrom(url, net, maxRetries, attempt, sleeps, file)
            == Run(true, k + 1, sleeps + (k - attempt), Written(net(k).bodySize))
    decreases k - attempt
  {
    if attempt < k {
      var (accepted, file') := Step(url, net(attempt), file);
      RunFromFirstAccepted(url, net, maxRetries, attempt + 1, sleeps + 1, file', k);
    }
  }

  /**
   * When attempt `k` is the first accepted one, the call stops there: `k + 1`
   * requests, a sleep after each of the `k` failures, and the body of attempt
   * `k` left at the save path.
   */
  lemma DownloadStopsAtFirstAccepted(url: string, net: nat -> Attempt, maxRetries: int, k: nat)
    requires k < maxRetries && Accepted(url, net(k))
    requires forall j :: 0 <= j < k ==> !Accepted(url, net(j))
    ensures Download(url, net, maxRetries) == Run(true, k + 1, k, Written(net(k).bodySize))
  {
    RunFromFirstAccepted(url, net, maxRetries, 0, 0, Untouched, k);
  }

  /** Some attempt in `[from, to)` wrote the body to the save path. */
  predicate SomeWrite(url: string, net: nat -> Attempt, from: nat, to: int) {
    exists j: nat :: from <= j < to && Writes(url, net(j))
  }

  lemma {:induction false} RunFromAllFail(url: string, net: nat -> Attempt, maxRetries: int,
                                          attempt: nat, sleeps: nat, file: FileEffect)
    requires forall j :: attempt <= j < maxRetries ==> !Accepted(url, net(j))
    ensures RunFrom(url, net, maxRetries, attempt, sleeps, file)
            == Run(false,
                   if attempt < maxRetries then maxRetries else attempt,
                   if attempt < maxRetries then sleeps + (maxRetries - 1 - attempt) else sleeps,
                   if SomeWrite(url, net, attempt, maxRetries) then Removed else file)
    decreases maxRetries - attempt
  {
    if attempt < maxRetries {
      var (accepted, file') := Step(url, net(attempt), file);
      var sleeps' := if attempt < maxRetries - 1 then sleeps + 1 else sleeps;
      RunFromAllFail(url, net, maxRetries, attempt + 1, sleeps', file');
      if SomeWrite(url, net, attempt + 1, maxRetries) {
        var j: nat :| attempt + 1 <= j < maxRetries && Writes(url, net(j));
        assert attempt <= j < maxRetries && Writes(url, net(j));
      }
      if SomeWrite(url, net, attempt, maxRetries) && !Writes(url, net(attempt)) {
        var j: nat :| attempt <= j < maxRetries && Writes(url, net(j));
        assert attempt + 1 <= j;
      }
    }
  }

  /**
   * When no attempt is accepted, every one of the `maxRetries` attempts is made
   * (none when `maxRetries <= 0`), a sleep follows all but the last, and the
   * save path is removed if any attempt wrote to it and untouched otherwise.
   */
  lemma DownloadAllFail(url: string, net: nat -> Attempt, maxRetries: int)
    requires forall j :: 0 <= j < maxRetries ==> !Accepted(url, net(j))
    ensures Download(url, net, maxRetries)
            == Run(false,
                   if maxRetries > 0 then maxRetries else 0,
                   if maxRetries > 0 then maxRetries - 1 else 0,
                   if SomeWrite(url, net, 0, maxRetries) then Removed else Untouched)
  {
    RunFromAllFail(url, net, maxRetries, 0, 0, Untouched);
  }

  /**
   * A file that is left at the save path is larger than the minimum size: a
   * written file of at most 1000 bytes is always removed again.
   */
  lemma DownloadKeepsOnlyLargeFiles(url: string, net: nat -> Attempt, maxRetries: int)
    ensures Download(url, net, maxRetries).file.Written?
            ==> Download(url, net, maxRetries).ok
                && Download(url, net, maxRetries).file.size > MinSize
  {
    if exists k :: 0 <= k < maxRetries && Accepted(url, net(k)) {
      var k := FirstAccepted(url, net, maxRetries);
      DownloadStopsAtFirstAccepted(url, net, maxRetries, k);
    } else {
      DownloadAllFail(url, net, maxRetries);
    }
  }

  /** The least accepted attempt, when there is one. */
  lemma FirstAccepted(url: string, net: nat -> Attempt, maxRetries: int) returns (k: nat)
    requires exists k :: 0 <= k < maxRetries && Accepted(url, net(k))
    ensures k < maxRetries && Accepted(url, net(k))
    ensures forall j :: 0 <= j < k ==> !Accepted(url, net(j))
  {
    var m :| 0 <= m < maxRetries && Accepted(url, net(m));
    k := m;
    while k > 0 && exists j :: 0 <= j < k && Accepted(url, net(j))
      invariant k < maxRetries && Accepted(url, net(k))
      decreases k
    {
      var j :| 0 <= j < k && Accepted(url, net(j));
      k := j;
    }
  }

  // ---------------------------------------------------------------------------
  // The host the downloader runs on
  // ---------------------------------------------------------------------------

  /** The filesystem and counters of one run of the downloader script. */
  datatype HostState = HostState(files: map<string, nat>, requests: nat, slept: nat)

  function AfterDownload(st: HostState, path: string, run: Run): HostState {
    HostState(ApplyEffect(st.files, path, run.file), st.requests + run.requests,
              st.slept + RetrySleep * run.sleeps)
  }

  class Host {
    var files: map<string, nat>     // path -> size of the file there
    var requests: nat               // HTTP requests issued so far
    var slept: nat                  // seconds passed to time.sleep so far

    function State(): HostState
      reads this
    {
      HostState(files, requests, slept)
    }

    constructor (files0: map<string, nat>)
      ensures State() == HostState(files0, 0, 0)
    {
      files, requests, slept := files0, 0, 0;
    }

    /** `download_pdf(url, save_path, max_retries)`. */
    method DownloadPdf(url: string, savePath: string, maxRetries: int, net: nat -> Attempt)
      returns (ok: bool)
      modifies this
      ensures ok == Download(url, net, maxRetries).ok
      ensures State() == AfterDownload(old(State()), savePath, Download(url, net, maxRetries))
    {
      var attempt: nat := 0;
      ghost var sleeps: nat := 0;
      ghost var effect := Untouched;
      while attempt < maxRetries
        invariant RunFrom(url, net, maxRetries, attempt, sleeps, effect) == Download(url, net, maxRetries)
        invariant requests == old(requests) + attempt
        invariant slept == old(slept) + RetrySleep * sleeps
        invariant files == ApplyEffect(old(files), savePath, effect)
        invariant !effect.Written?
        decreases maxRetries - attempt
      {
        requests := requests + 1;
        ghost var step := Step(url, net(attempt), effect);
        RunFromStep(url, net, maxRetries, attempt, sleeps, effect);
        match net(attempt) {
          case RequestFailed =>
          case Response(status, contentType, size) =>
            if status == 200 {
              if LooksLikePdf(url, contentType) {
                ApplyEffectOver(old(files), savePath, effect, Written(size));
                files := files[savePath := size];
                if files[savePath] > MinSize {
                  return true;
                } else {
                  ApplyEffectOver(old(files), savePath, Written(size), Removed);
                  files := files - {savePath};
                }
              }
            }
        }
        effect := step.1;
        if attempt < maxRetries - 1 {
          slept := slept + RetrySleep;
          sleeps := sleeps + 1;
        }
        attempt := attempt + 1;
      }
      return false;
    }

    /** One pass of the direct-link loop body: skip the paper, or download it and sleep. */
    method ProcessPaper(paper: Link, responses: nat -> Attempt, downloaded: nat)
      returns (downloaded': nat)
      modifies this
      ensures (State(), downloaded') == PaperStep((old(State()), downloaded), paper, responses)
    {
      var path := SavePath(paper.paperName);
      PaperStepAt((State(), downloaded), paper, responses, path);
      if path.Some? {
        downloaded' := FetchPaper(paper.url, path.value, responses, downloaded);
      } else {
        downloaded' := downloaded;
      }
    }

    /** The download of one paper to its save path, the count, and the polite sleep after it. */
    method FetchPaper(url: string, path: string, responses: nat -> Attempt, downloaded: nat)
      returns (downloaded': nat)
      modifies this
      ensures (State(), downloaded')
              == ApplyResult((old(State()), downloaded), Tried(path, Download(url, responses, DefaultRetries)))
    {
      downloaded' := downloaded;
      var ok := DownloadPdf(url, path, DefaultRetries, responses);
      if ok {
        downloaded' := downloaded' + 1;
      }
      slept := slept + PoliteSleep;
    }

    /**
     * The inner loop of `download_from_direct_links()` over one board's papers,
     * which sit at positions `first`.. of the whole table `all`, continuing a
     * run over `all` that started in `st0`.
     */
    method DownloadBoard(papers: seq<Link>, net: nat -> nat -> Attempt, first: nat, downloaded: nat,
                         ghost st0: HostState, ghost all: seq<Link>)
      returns (downloaded': nat)
      requires first + |papers| <= |all| && all[first..first + |papers|] == papers
      requires (State(), downloaded) == DirectLinksRun(st0, all, net, first)
      modifies this
      ensures (State(), downloaded') == DirectLinksRun(st0, all, net, first + |papers|)
    {
      downloaded' := downloaded;
      var p := 0;
      while p < |papers|
        invariant p <= |papers|
        invariant (State(), downloaded') == DirectLinksRun(st0, all, net, first + p)
      {
        assert all[first + p] == papers[p];
        downloaded' := ProcessPaper(papers[p], net(first + p), downloaded');
        p := p + 1;
      }
    }

    /**
     * `download_from_direct_links()` over the given link table; `net(g)` answers
     * the attempts for the `g`-th paper of the table.
     */
    method DownloadFromDirectLinks(links: seq<BoardLinks>, net: nat -> nat -> Attempt)
      returns (downloaded: nat)
      modifies this
      ensures (State(), downloaded) == DirectLinksRun(old(State()), Papers(links), net, |Papers(links)|)
    {
      ghost var all := Papers(links);
      downloaded := 0;
      var b := 0;
      var g := 0;     // position of the board's first paper in the whole table
      while b < |links|
        invariant b <= |links|
        invariant g == |Papers(links[..b])| <= |all|
        invariant (State(), downloaded) == DirectLinksRun(old(State()), all, net, g)
      {
        PapersSlice(links, b);
        downloaded := DownloadBoard(links[b].papers, net, g, downloaded, old(State()), all);
        g := g + |links[b].papers|;
        b := b + 1;
      }
      assert links[..b] == links;
    }
  }

  // ---------------------------------------------------------------------------
  // Direct download links
  // ---------------------------------------------------------------------------

  datatype Link = Link(paperName: string, url: string)

  /** One board's entry of the direct-link table: paper name -> URL, in table order. */
  datatype BoardLinks = BoardLinks(board: string, papers: seq<Link>)

  const BaseDir := "question-papers/real-papers"

  /** `os.path.join(base_dir, "boards", "West-Bengal-Board")`, and the same for CBSE. */
  const WestBengalDir := PathJoinAll(BaseDir, ["boards", "West-Bengal-Board"])
  const CbseDir := PathJoinAll(BaseDir, ["boards", "CBSE"])

  /** The shipped direct-link table. */
  const DirectDownloadLinks: seq<BoardLinks> := [
    BoardLinks("West Bengal Board", [
      Link("WBBSE-Class-10-Mathematics-2024",
           "https://www.wbbse.org/uploads/question_papers/2024/Class10_Mathematics_2024.pdf"),
      Link("WBBSE-Class-10-English-2024",
           "https://www.wbbse.org/uploads/question_papers/2024/Class10_English_2024.pdf")]),
    BoardLinks("CBSE", [
      Link("CBSE-Class-10-Mathematics-2024",
           "https://cbse.gov.in/cbsenew/question-papers/2024/Class10_Math_2024.pdf")])
  ]

  /** All papers of the table in iteration order. */
  function Papers(links: seq<BoardLinks>): seq<Link> {
    if |links| == 0 then [] else Papers(links[..|links| - 1]) + links[|links| - 1].papers
  }

  /** The save path of a paper, or None when the loop skips it. */
  function SavePath(paperName: string): Option<string> {
    if Contains(paperName, "WBBSE") || Contains(paperName, "WBCHSE") then
      var parts := Split(paperName, "-");
      if |parts| >= 6 then
        Some(PathJoinAll(WestBengalDir, [parts[2] + "-" + parts[3], parts[4], parts[5],
                                         paperName + ".pdf"]))
      else None
    else if Contains(paperName, "CBSE") then
      var parts := Split(paperName, "-");
      if |parts| >= 5 then
        Some(PathJoinAll(CbseDir, [parts[1] + "-" + parts[2], parts[3], parts[4],
                                   paperName + ".pdf"]))
      else None
    else None
  }

  /** What the loop does with one paper: skip it, or download it to a path. */
  datatype PaperResult = Skipped | Tried(path: string, run: Run)

  function Attempted(paper: Link, responses: nat -> Attempt): PaperResult {
    match SavePath(paper.paperName)
    case None => Skipped
    case Some(path) => Tried(path, Download(paper.url, responses, DefaultRetries))
  }

  /** The host state and count after one paper's result, from those before it. */
  function ApplyResult(acc: (HostState, nat), r: PaperResult): (HostState, nat) {
    match r
    case Skipped => acc
    case Tried(path, run) =>
      var after := AfterDownload(acc.0, path, run);
      (after.(slept := after.slept + PoliteSleep), acc.1 + if run.ok then 1 else 0)
  }

  /** The loop body for one paper, from the host state and count before it. */
  function PaperStep(acc: (HostState, nat), paper: Link, responses: nat -> Attempt): (HostState, nat) {
    ApplyResult(acc, Attempted(paper, responses))
  }

  /** The loop body for one paper, by the save path it gets. */
  lemma PaperStepAt(acc: (HostState, nat), paper: Link, responses: nat -> Attempt, path: Option<string>)
    requires path == SavePath(paper.paperName)
    ensures path.None? ==> PaperStep(acc, paper, responses) == acc
    ensures path.Some? ==>
              PaperStep(acc, paper, responses) == ApplyResult(acc, Tried(path.value, Download(paper.url, responses, DefaultRetries)))
  {
  }

  /**
   * One paper adds one to `downloaded` exactly when it gets a save path and one
   * of its three attempts is accepted, and it issues at most three requests.
   */
  lemma PaperStepCount(acc: (HostState, nat), paper: Link, responses: nat -> Attempt)
    ensures PaperStep(acc, paper, responses).1
            == acc.1 + if SavePath(paper.paperName).Some?
                          && exists k :: 0 <= k < DefaultRetries && Accepted(paper.url, responses(k))
                       then 1 else 0
    ensures acc.0.requests <= PaperStep(acc, paper, responses).0.requests <= acc.0.requests + DefaultRetries
  {
    var path := SavePath(paper.paperName);
    PaperStepAt(acc, paper, responses, path);
    if path.Some? {
      DownloadOkIff(paper.url, responses, DefaultRetries);
      DownloadRequests(paper.url, responses, DefaultRetries);
    }
  }

  /** A paper changes the file at its own save path only; every other path keeps what it held. */
  lemma PaperStepLocal(acc: (HostState, nat), paper: Link, responses: nat -> Attempt, q: string)
    requires SavePath(paper.paperName) != Some(q)
    ensures var files := PaperStep(acc, paper, responses).0.files;
            (q in files <==> q in acc.0.files) && (q in files ==> files[q] == acc.0.files[q])
  {
    PaperStepAt(acc, paper, responses, SavePath(paper.paperName));
  }

  /** A download issues no more requests than `maxRetries` (none when it is not positive). */
  lemma DownloadRequests(url: string, net: nat -> Attempt, maxRetries: int)
    ensures Download(url, net, maxRetries).requests <= if maxRetries > 0 then maxRetries else 0
  {
    if exists k :: 0 <= k < maxRetries && Accepted(url, net(k)) {
      var k := FirstAccepted(url, net, maxRetries);
      DownloadStopsAtFirstAccepted(url, net, maxRetries, k);
    } else {
      DownloadAllFail(url, net, maxRetries);
    }
  }

  /** Each paper's result, in table order; `net(i)` answers the attempts for paper `i`. */
  function Results(papers: seq<Link>, net: nat -> nat -> Attempt): seq<PaperResult> {
    seq(|papers|, i requires 0 <= i < |papers| => Attempted(papers[i], net(i)))
  }

  /** Host state and count after the first `n` results. */
  function RunResults(st: HostState, rs: seq<PaperResult>, n: nat): (HostState, nat)
    requires n <= |rs|
  {
    if n == 0 then (st, 0) else ApplyResult(RunResults(st, rs, n - 1), rs[n - 1])
  }

  /** The direct-link loop as a state machine: host state and count after the first `n` papers. */
  function DirectLinksRun(st: HostState, papers: seq<Link>, net: nat -> nat -> Attempt, n: nat): (HostState, nat)
    requires n <= |papers|
  {
    RunResults(st, Results(papers, net), n)
  }

  lemma PapersSnoc(links: seq<BoardLinks>, b: nat)
    requires b < |links|
    ensures Papers(links[..b + 1]) == Papers(links[..b]) + links[b].papers
  {
    assert links[..b + 1][..b] == links[..b];
  }

  lemma {:induction false} PapersPrefix(links: seq<BoardLinks>, b: nat)
    requires b <= |links|
    ensures Papers(links[..b]) <= Papers(links)
    decreases |links| - b
  {
    if b == |links| {
      assert links[..b] == links;
    } else {
      PapersSnoc(links, b);
      PapersPrefix(links, b + 1);
    }
  }

  /** Board `b`'s papers sit in the whole table right after those of the boards before it. */
  lemma PapersSlice(links: seq<BoardLinks>, b: nat)
    requires b < |links|
    ensures var g := |Papers(links[..b])|;
            g + |links[b].papers| == |Papers(links[..b + 1])| <= |Papers(links)|
            && Papers(links)[g..g + |links[b].papers|] == links[b].papers
  {
    PapersSnoc(links, b);
    PapersPrefix(links, b + 1);
    var g := |Papers(links[..b])|;
    var upto := Papers(links[..b + 1]);
    assert upto[g..] == links[b].papers;
    assert Papers(links)[..|upto|] == upto;
  }

  /** Paper `i` has a save path and its download returned True. */
  predicate Fetched(papers: seq<Link>, net: nat -> nat -> Attempt, i: nat)
  {
    i < |papers| && Succeeded(Attempted(papers[i], net(i)))
  }

  predicate Succeeded(r: PaperResult) {
    r.Tried? && r.run.ok
  }

  predicate SucceededAt(rs: seq<PaperResult>, i: nat) {
    i < |rs| && Succeeded(rs[i])
  }

  /** A result adds one to the count exactly when it is a download that returned True. */
  lemma ApplyResultCount(acc: (HostState, nat), r: PaperResult)
    ensures ApplyResult(acc, r).1 == acc.1 + if Succeeded(r) then 1 else 0
  {
  }

  /** The count after `n` results is the number of successful downloads among them. */
  lemma {:induction false} RunResultsCount(st: HostState, rs: seq<PaperResult>, n: nat)
    requires n <= |rs|
    ensures RunResults(st, rs, n).1 == |set i: nat | i < n && SucceededAt(rs, i)|
  {
    if n == 0 {
      assert (set i: nat | i < 0 && SucceededAt(rs, i)) == {};
    } else {
      RunResultsCount(st, rs, n - 1);
      ApplyResultCount(RunResults(st, rs, n - 1), rs[n - 1]);
      var before := set i: nat | i < n - 1 && SucceededAt(rs, i);
      var after := set i: nat | i < n && SucceededAt(rs, i);
      if Succeeded(rs[n - 1]) {
        assert after == before + {n - 1};
      } else {
        assert after == before;
      }
    }
  }

  /** `downloaded` is the number of papers whose download returned True. */
  lemma DownloadedCountsSuccesses(st: HostState, papers: seq<Link>, net: nat -> nat -> Attempt)
    ensures DirectLinksRun(st, papers, net, |papers|).1
            == |set i: nat | i < |papers| && Fetched(papers, net, i)|
  {
    var rs := Results(papers, net);
    RunResultsCount(st, rs, |papers|);
    forall i: nat | i < |papers| ensures SucceededAt(rs, i) == Fetched(papers, net, i) {
      assert rs[i] == Attempted(papers[i], net(i));
    }
    assert (set i: nat | i < |rs| && SucceededAt(rs, i)) == set i: nat | i < |papers| && Fetched(papers, net, i);
  }

  // ---------------------------------------------------------------------------
  // Save paths
  // ---------------------------------------------------------------------------

  lemma {:induction false} SplitPiecesFromString(s: string, sep: string)
    requires |sep| > 0
    ensures forall k, c :: 0 <= k < |Split(s, sep)| && c in Split(s, sep)[k] ==> c in s
    decreases |s|
  {
    match IndexOf(s, sep)
    case None =>
    case Some(i) =>
      var rest := s[i + |sep|..];
      SplitPiecesFromString(rest, sep);
      assert Split(s, sep) == [s[..i]] + Split(rest, sep);
      forall c | c in rest ensures c in s {
        var m :| 0 <= m < |rest| && rest[m] == c;
        assert s[i + |sep| + m] == c;
      }
  }

  /** The pieces of a name without "/" can be joined as plain path components. */
  lemma PiecesPlain(name: string, parts: seq<string>, ks: set<nat>)
    requires parts == Split(name, "-") && '/' !in name
    requires forall k :: k in ks ==> k < |parts| && |parts[k]| > 0
    ensures forall k :: k in ks ==> Plain(parts[k])
  {
    SplitPiecesFromString(name, "-");
    forall k | k in ks ensures Plain(parts[k]) {
      assert parts[k][0] in parts[k];
      assert parts[k][|parts[k]| - 1] in parts[k];
    }
  }

  /** The last four components of a board path are plain when the pieces they take are non-empty. */
  lemma TailPlain(name: string, parts: seq<string>, a: nat) returns (tail: seq<string>)
    requires parts == Split(name, "-") && '/' !in name
    requires a + 3 < |parts| && |parts[a]| > 0 && |parts[a + 2]| > 0 && |parts[a + 3]| > 0
    ensures tail == [parts[a] + "-" + parts[a + 1], parts[a + 2], parts[a + 3], name + ".pdf"]
    ensures forall k :: 0 <= k < |tail| ==> Plain(tail[k])
  {
    PiecesPlain(name, parts, {a, a + 2, a + 3});
    assert Plain(parts[a] + "-" + parts[a + 1]) by {
      assert (parts[a] + "-" + parts[a + 1])[0] == parts[a][0];
      if |parts[a + 1]| > 0 {
        PiecesPlain(name, parts, {a + 1});
      }
    }
    assert Plain(name + ".pdf") by {
      if |name| > 0 { assert name[0] in name; }
    }
    tail := [parts[a] + "-" + parts[a + 1], parts[a + 2], parts[a + 3], name + ".pdf"];
  }

  /**
   * A West Bengal name (one mentioning WBBSE or WBCHSE) gets a path exactly when it has at least six dash-separated
   * parts, and the path is `os.path.join(base_dir, "boards", "West-Bengal-Board",
   * p2-p3, p4, p5, name + ".pdf")`.
   */
  lemma SavePathWestBengal(name: string)
    requires Contains(name, "WBBSE") || Contains(name, "WBCHSE")
    ensures SavePath(name).Some? <==> |Split(name, "-")| >= 6
    ensures var parts := Split(name, "-");
            |parts| >= 6 ==> SavePath(name) == Some(PathJoinAll(BaseDir, ["boards", "West-Bengal-Board", parts[2] + "-" + parts[3], parts[4], parts[5], name + ".pdf"]))
  {
    var parts := Split(name, "-");
    if |parts| >= 6 {
      var rest := [parts[2] + "-" + parts[3], parts[4], parts[5], name + ".pdf"];
      PathJoinAllAppend(BaseDir, ["boards", "West-Bengal-Board"], rest);
      assert ["boards", "West-Bengal-Board"] + rest == ["boards", "West-Bengal-Board", parts[2] + "-" + parts[3], parts[4], parts[5], name + ".pdf"];
    }
  }

  /**
   * For such a name without "/" whose parts 2, 4 and 5 are non-empty, every
   * component is plain, so the path is the components with one "/" between each.
   */
  lemma SavePathWestBengalPlain(name: string)
    requires Contains(name, "WBBSE") || Contains(name, "WBCHSE")
    requires var parts := Split(name, "-");
             |parts| >= 6 && '/' !in name && |parts[2]| > 0 && |parts[4]| > 0 && |parts[5]| > 0
    ensures var parts := Split(name, "-");
            SavePath(name) == Some(BaseDir + "/" + Join(["boards", "West-Bengal-Board", parts[2] + "-" + parts[3], parts[4], parts[5], name + ".pdf"], "/"))
  {
    SavePathWestBengal(name);
    BoardPathPlain("West-Bengal-Board", name, Split(name, "-"), 2);
  }

  /**
   * A name mentioning CBSE but neither West Bengal board gets a path exactly when it has at least five dash-separated
   * parts, and the path is `os.path.join(base_dir, "boards", "CBSE",
   * p1-p2, p3, p4, name + ".pdf")`.
   */
  lemma SavePathCbse(name: string)
    requires !Contains(name, "WBBSE") && !Contains(name, "WBCHSE") && Contains(name, "CBSE")
    ensures SavePath(name).Some? <==> |Split(name, "-")| >= 5
    ensures var parts := Split(name, "-");
            |parts| >= 5 ==> SavePath(name) == Some(PathJoinAll(BaseDir, ["boards", "CBSE", parts[1] + "-" + parts[2], parts[3], parts[4], name + ".pdf"]))
  {
    var parts := Split(name, "-");
    if |parts| >= 5 {
      var rest := [parts[1] + "-" + parts[2], parts[3], parts[4], name + ".pdf"];
      PathJoinAllAppend(BaseDir, ["boards", "CBSE"], rest);
      assert ["boards", "CBSE"] + rest == ["boards", "CBSE", parts[1] + "-" + parts[2], parts[3], parts[4], name + ".pdf"];
    }
  }

  /**
   * For such a name without "/" whose parts 1, 3 and 4 are non-empty, every
   * component is plain, so the path is the components with one "/" between each.
   */
  lemma SavePathCbsePlain(name: string)
    requires !Contains(name, "WBBSE") && !Contains(name, "WBCHSE") && Contains(name, "CBSE")
    requires var parts := Split(name, "-");
             |parts| >= 5 && '/' !in name && |parts[1]| > 0 && |parts[3]| > 0 && |parts[4]| > 0
    ensures var parts := Split(name, "-");
            SavePath(name) == Some(BaseDir + "/" + Join(["boards", "CBSE", parts[1] + "-" + parts[2], parts[3], parts[4], name + ".pdf"], "/"))
  {
    SavePathCbse(name);
    BoardPathPlain("CBSE", name, Split(name, "-"), 1);
  }

  /** The six components of a board path are plain, so joining them puts one "/" between each. */
  lemma BoardPathPlain(board: string, name: string, parts: seq<string>, a: nat)
    requires Plain(board)
    requires parts == Split(name, "-") && '/' !in name
    requires a + 3 < |parts| && |parts[a]| > 0 && |parts[a + 2]| > 0 && |parts[a + 3]| > 0
    ensures var comps := ["boards", board, parts[a] + "-" + parts[a + 1], parts[a + 2], parts[a + 3], name + ".pdf"];
            PathJoinAll(BaseDir, comps) == BaseDir + "/" + Join(comps, "/")
  {
    var tail := TailPlain(name, parts, a);
    var comps := ["boards", board] + tail;
    assert comps == ["boards", board, parts[a] + "-" + parts[a + 1], parts[a + 2], parts[a + 3], name + ".pdf"];
    forall k | 0 <= k < |comps| ensures Plain(comps[k]) {
      if k >= 2 {
        assert comps[k] == tail[k - 2];
      }
    }
    PathJoinAllPlain(BaseDir, comps);
  }

  /** Names that mention none of the three boards are skipped. */
  lemma SavePathOthersSkipped(name: string)
    requires !Contains(name, "WBBSE") && !Contains(name, "WBCHSE") && !Contains(name, "CBSE")
    ensures SavePath(name) == None
  {
  }

  /** A name with `n` dashes splits into `n + 1` parts. */
  lemma DashParts(name: string)
    ensures |Split(name, "-")| == CountChar(name, '-') + 1
  {
    SplitLength(name, "-");
    CountOccurrencesOfChar(name, '-');
  }

  /** A West Bengal name made of five dash-free words is skipped. */
  lemma FiveWordWestBengalNameSkipped(words: seq<string>)
    requires |words| == 5
    requires forall k, i :: 0 <= k < 5 && 0 <= i < |words[k]| ==> words[k][i] != '-'
    requires Contains(Join(words, "-"), "WBBSE") || Contains(Join(words, "-"), "WBCHSE")
    ensures SavePath(Join(words, "-")) == None
  {
    CountCharJoined(words, '-');
    DashParts(Join(words, "-"));
  }

  lemma MathematicsNameWords()
    ensures Join(["WBBSE", "Class", "10", "Mathematics", "2024"], "-") == "WBBSE-Class-10-Mathematics-2024"
  {
    var m := ["WBBSE", "Class", "10", "Mathematics", "2024"];
    assert m[1..][1..][1..][1..] == ["2024"];
    assert m[1..][1..][1..] == ["Mathematics", "2024"];
    assert m[1..][1..] == ["10", "Mathematics", "2024"];
    assert m[1..] == ["Class", "10", "Mathematics", "2024"];
  }

  lemma EnglishNameWords()
    ensures Join(["WBBSE", "Class", "10", "English", "2024"], "-") == "WBBSE-Class-10-English-2024"
  {
    var e := ["WBBSE", "Class", "10", "English", "2024"];
    assert e[1..][1..][1..][1..] == ["2024"];
    assert e[1..][1..][1..] == ["English", "2024"];
    assert e[1..][1..] == ["10", "English", "2024"];
    assert e[1..] == ["Class", "10", "English", "2024"];
  }

  /** The shipped West Bengal mathematics name has only five parts, so it is skipped. */
  lemma MathematicsNameSkipped()
    ensures SavePath("WBBSE-Class-10-Mathematics-2024") == None
  {
    var words := ["WBBSE", "Class", "10", "Mathematics", "2024"];
    MathematicsNameWords();
    assert OccursAt(Join(words, "-"), "WBBSE", 0);
    FiveWordWestBengalNameSkipped(words);
  }

  /** The shipped West Bengal English name has only five parts, so it is skipped. */
  lemma EnglishNameSkipped()
    ensures SavePath("WBBSE-Class-10-English-2024") == None
  {
    var words := ["WBBSE", "Class", "10", "English", "2024"];
    EnglishNameWords();
    assert OccursAt(Join(words, "-"), "WBBSE", 0);
    FiveWordWestBengalNameSkipped(words);
  }
}
