/**
 * The beautification job runner (backend/app/services/background_tasks.py):
 * a state machine over a job record (running, then completed or error) around one
 * sequential loop that transcribes every page and upserts one row per page number.
 *
 * The page transcriber, the PDF page counter and the place where an exception
 * strikes are parameters; the clock is the single reading `now`.
 */
module BackgroundTasks {
  import opened Wrappers
  import opened Text
  import opened Records

  /** Where an exception is raised inside the runner's `try` block, if anywhere. */
  datatype Fault =
    | NoFault
    | FailAtPage(page: int, msg: string) // while page `page` is processed, after its progress commit
    | FailAtFinish(msg: string)          // when the document's new status is committed

  /** `a // n` for a positive divisor, as repeated subtraction. */
  function Quot(a: int, n: int): nat
    requires n > 0
    decreases a
  {
    if a < n then 0 else 1 + Quot(a - n, n)
  }

  lemma {:induction false} QuotAtMost(a: int, n: int, k: nat)
    requires n > 0 && a <= k * n
    ensures Quot(a, n) <= k
    decreases k
  {
    if a >= n {
      assert k != 0;
      QuotAtMost(a - n, n, k - 1);
    }
  }

  lemma {:induction false} QuotAtLeast(a: int, n: int, k: nat)
    requires n > 0 && a >= k * n
    ensures Quot(a, n) >= k
    decreases k
  {
    if k > 0 {
      assert k * n == (k - 1) * n + n;
      QuotAtLeast(a - n, n, k - 1);
    }
  }

  lemma {:induction false} QuotMonotone(a: int, b: int, n: int)
    requires n > 0 && a <= b
    ensures Quot(a, n) <= Quot(b, n)
    decreases if a < 0 then 0 else a
  {
    if a >= n {
      QuotMonotone(a - n, b - n, n);
    }
  }

  /** Progress reported for page `i` of `n`: ten, plus the floor of eighty times the fraction done. */
  function Progress(i: int, n: int): int
    requires 1 <= i <= n
  {
    10 + Quot(80 * i, n)
  }

  lemma ProgressBounds(i: int, n: int)
    requires 1 <= i <= n
    ensures 10 <= Progress(i, n) <= 90
    ensures i == n ==> Progress(i, n) == 90
  {
    QuotAtMost(80 * i, n, 80);
    if i == n {
      QuotAtLeast(80 * i, n, 80);
    }
  }

  /** Progress never goes down from one page to a later one. */
  lemma ProgressMonotone(i: int, j: int, n: int)
    requires 1 <= i <= j <= n
    ensures Progress(i, n) <= Progress(j, n)
  {
    QuotMonotone(80 * i, 80 * j, n);
  }

  /** The number of pages the runner walks: 1, unless the path ends in ".pdf" in any case. */
  function PageCount(filePath: string, pdfPages: Option<nat>): (n: nat)
    ensures !EndsWith(Lower(filePath), ".pdf") ==> n == 1
    ensures EndsWith(Lower(filePath), ".pdf") ==> n == pdfPages.GetOr(1)
  {
    if EndsWith(Lower(filePath), ".pdf") then
      match pdfPages
      case Some(c) => c
      case None => 1 // the counter raised
    else 1
  }

  /** Index of the first row with page number `number`, or `|pages|`. */
  function FindPage(pages: seq<PageRow>, number: int): (k: nat)
    ensures k <= |pages|
    ensures k < |pages| ==> pages[k].number == number
    ensures forall j :: 0 <= j < k ==> pages[j].number != number
  {
    if pages == [] then 0
    else if pages[0].number == number then 0
    else 1 + FindPage(pages[1..], number)
  }

  /** Store the transcription of page `number`: overwrite the first row with that number, or add a row. */
  function Upsert(pages: seq<PageRow>, number: int, filePath: string, text: string): seq<PageRow> {
    var k := FindPage(pages, number);
    if k < |pages| then pages[k := pages[k].(beautifiedText := Some(text))]
    else pages + [PageRow(number, filePath, None, None, Some(text))]
  }

  /** The rows after pages 1..k have been transcribed by `transcripts`. */
  function Processed(pages: seq<PageRow>, filePath: string, transcripts: seq<string>, k: nat): seq<PageRow>
    requires k <= |transcripts|
  {
    if k == 0 then pages
    else Upsert(Processed(pages, filePath, transcripts, k - 1), k, filePath, transcripts[k - 1])
  }

  /** The number of rows with page number `number`. */
  function CountNumber(pages: seq<PageRow>, number: int): nat {
    if pages == [] then 0
    else (if pages[0].number == number then 1 else 0) + CountNumber(pages[1..], number)
  }

  lemma {:induction false} CountNumberAppend(pages: seq<PageRow>, row: PageRow, number: int)
    ensures CountNumber(pages + [row], number) == CountNumber(pages, number) + (if row.number == number then 1 else 0)
  {
    if pages != [] {
      assert (pages + [row])[1..] == pages[1..] + [row];
      CountNumberAppend(pages[1..], row, number);
    }
  }

  lemma {:induction false} CountNumberUpdate(pages: seq<PageRow>, k: nat, row: PageRow, number: int)
    requires k < |pages| && row.number == pages[k].number
    ensures CountNumber(pages[k := row], number) == CountNumber(pages, number)
  {
    if k > 0 {
      assert pages[k := row][1..] == pages[1..][k - 1 := row];
      CountNumberUpdate(pages[1..], k - 1, row, number);
    }
  }

  lemma {:induction false} CountNumberZero(pages: seq<PageRow>, number: int)
    requires FindPage(pages, number) == |pages|
    ensures CountNumber(pages, number) == 0
  {
    if pages != [] {
      CountNumberZero(pages[1..], number);
    }
  }

  lemma {:induction false} CountNumberFound(pages: seq<PageRow>, number: int)
    requires FindPage(pages, number) < |pages|
    ensures CountNumber(pages, number) >= 1
  {
    if pages[0].number != number {
      CountNumberFound(pages[1..], number);
    }
  }

  /** An upsert adds a row for its number only when there was none, and changes no other number's rows. */
  lemma UpsertCounts(pages: seq<PageRow>, number: int, filePath: string, text: string, other: int)
    ensures CountNumber(Upsert(pages, number, filePath, text), other) ==
      if other == number && CountNumber(pages, number) == 0 then 1 else CountNumber(pages, other)
  {
    var k := FindPage(pages, number);
    if k < |pages| {
      CountNumberFound(pages, number);
      CountNumberUpdate(pages, k, pages[k].(beautifiedText := Some(text)), other);
    } else {
      CountNumberZero(pages, number);
      CountNumberAppend(pages, PageRow(number, filePath, None, None, Some(text)), other);
    }
  }

  /** The first row with number `number` after an upsert carries the new text. */
  lemma UpsertStores(pages: seq<PageRow>, number: int, filePath: string, text: string)
    ensures var p := Upsert(pages, number, filePath, text);
      FindPage(p, number) < |p| && p[FindPage(p, number)].beautifiedText == Some(text)
  {
    var k := FindPage(pages, number);
    var p := Upsert(pages, number, filePath, text);
    if k < |pages| {
      FindPageAgrees(pages, p, number, k);
    } else {
      FindPageAgrees(pages, p, number, |pages|);
    }
  }

  /** Two row lists that agree on page numbers up to the first row numbered `number` find the same row. */
  lemma {:induction false} FindPageAgrees(a: seq<PageRow>, b: seq<PageRow>, number: int, k: nat)
    requires k < |b| && b[k].number == number
    requires k <= |a| && forall j :: 0 <= j < k ==> a[j].number == b[j].number && a[j].number != number
    ensures FindPage(b, number) == k
  {
    if k > 0 {
      FindPageAgrees(a[1..], b[1..], number, k - 1);
    }
  }

  /** Upserting one number does not change which row another number finds, nor that row's text. */
  lemma UpsertKeepsOther(pages: seq<PageRow>, number: int, filePath: string, text: string, other: int)
    requires other != number
    requires FindPage(pages, other) < |pages|
    ensures var p := Upsert(pages, number, filePath, text);
      FindPage(p, other) == FindPage(pages, other) && p[FindPage(p, other)] == pages[FindPage(pages, other)]
  {
    var k := FindPage(pages, number);
    var p := Upsert(pages, number, filePath, text);
    FindPageAgrees(pages, p, other, FindPage(pages, other));
  }

  /**
   * Upserting page `number` touches one row at most: the first row with that number, or a row
   * appended after all the others. Every row of another number stays where it was, unchanged.
   */
  lemma UpsertTouchesOneRow(pages: seq<PageRow>, number: int, filePath: string, text: string)
    ensures var p := Upsert(pages, number, filePath, text);
      |p| == (if FindPage(pages, number) < |pages| then |pages| else |pages| + 1)
    ensures var p := Upsert(pages, number, filePath, text);
      forall j :: 0 <= j < |pages| && j != FindPage(pages, number) ==> p[j] == pages[j]
    ensures var p := Upsert(pages, number, filePath, text);
      forall j :: 0 <= j < |pages| && pages[j].number != number ==> p[j] == pages[j]
    ensures var p := Upsert(pages, number, filePath, text);
      var k := FindPage(pages, number);
      FindPage(p, number) == k &&
      p[k] == (if k < |pages| then pages[k].(beautifiedText := Some(text))
               else PageRow(number, filePath, None, None, Some(text)))
  {
    var p := Upsert(pages, number, filePath, text);
    FindPageAgrees(pages, p, number, FindPage(pages, number));
  }

  /** After pages 1..k, a number in 1..k that had no row has exactly one; every other count is unchanged. */
  lemma {:induction false} ProcessedCounts(pages: seq<PageRow>, filePath: string,
                                           transcripts: seq<string>, k: nat, number: int)
    requires k <= |transcripts|
    ensures CountNumber(Processed(pages, filePath, transcripts, k), number) ==
      if 1 <= number <= k && CountNumber(pages, number) == 0 then 1 else CountNumber(pages, number)
  {
    if k > 0 {
      var prev := Processed(pages, filePath, transcripts, k - 1);
      ProcessedCounts(pages, filePath, transcripts, k - 1, number);
      UpsertCounts(prev, k, filePath, transcripts[k - 1], number);
    }
  }

  /** After pages 1..k, the first row of each number in 1..k carries that page's transcription. */
  lemma {:induction false} ProcessedStores(pages: seq<PageRow>, filePath: string,
                                           transcripts: seq<string>, k: nat, number: int)
    requires k <= |transcripts| && 1 <= number <= k
    ensures var p := Processed(pages, filePath, transcripts, k);
      FindPage(p, number) < |p| && p[FindPage(p, number)].beautifiedText == Some(transcripts[number - 1])
  {
    var prev := Processed(pages, filePath, transcripts, k - 1);
    if number == k {
      UpsertStores(prev, k, filePath, transcripts[k - 1]);
    } else {
      ProcessedStores(pages, filePath, transcripts, k - 1, number);
      UpsertKeepsOther(prev, k, filePath, transcripts[k - 1], number);
    }
  }

  /**
   * After pages 1..k: every number in 1..k has at least one row and no new duplicate (a row was added
   * exactly for the numbers that had none), the first row of each carries its transcription, and every
   * other number keeps its rows.
   */
  lemma ProcessedUpsertsEachPageOnce(pages: seq<PageRow>, filePath: string,
                                     transcripts: seq<string>, k: nat, number: int)
    requires k <= |transcripts|
    ensures var p := Processed(pages, filePath, transcripts, k);
      CountNumber(p, number) ==
        if 1 <= number <= k && CountNumber(pages, number) == 0 then 1 else CountNumber(pages, number)
    ensures var p := Processed(pages, filePath, transcripts, k);
      1 <= number <= k ==> FindPage(p, number) < |p| && p[FindPage(p, number)].beautifiedText == Some(transcripts[number - 1])
  {
    ProcessedCounts(pages, filePath, transcripts, k, number);
    if 1 <= number <= k {
      ProcessedStores(pages, filePath, transcripts, k, number);
    }
  }

  /** How many pages are stored before the runner stops. */
  function PagesDone(fault: Fault, n: nat): (d: nat)
    ensures d <= n
  {
    if fault.FailAtPage? && 1 <= fault.page <= n then fault.page - 1 else n
  }

  /** Whether the `try` block completes without an exception. */
  predicate Succeeds(fault: Fault, n: nat) {
    !(fault.FailAtPage? && 1 <= fault.page <= n) && !fault.FailAtFinish?
  }

  /** The committed job states are non-decreasing in progress while running, within [5, 90]. */
  predicate RunningMonotone(commits: seq<JobSnap>) {
    (forall a, b :: 0 <= a < b < |commits| && commits[b].status == Running ==>
       commits[a].progress <= commits[b].progress) &&
    (forall a :: 0 <= a < |commits| && commits[a].status == Running ==> 5 <= commits[a].progress <= 90)
  }

  lemma MonotoneExtend(commits: seq<JobSnap>, s: JobSnap)
    requires RunningMonotone(commits)
    requires s.status == Running ==> 5 <= s.progress <= 90
    requires s.status == Running ==> forall a :: 0 <= a < |commits| ==> commits[a].progress <= s.progress
    ensures RunningMonotone(commits + [s])
  {
  }

  /** The job is running, its last commit is its current state, and no commit exceeds its progress. */
  ghost predicate JobRunning(job: Job, commits: seq<JobSnap>, first: JobSnap, startedAt: Option<int>, finishedAt: Option<int>)
    reads job
  {
    commits != [] && commits[|commits| - 1] == job.Snap() && commits[0] == first &&
    job.status == Running && job.startedAt == startedAt && job.finishedAt == finishedAt &&
    forall a :: 0 <= a < |commits| ==> commits[a].progress <= job.progress
  }

  /** The progress commit before page `i` of `n`; the job stays running and its commits stay monotone. */
  method ReportPage(job: Job, i: int, n: int, commits: seq<JobSnap>, ghost first: JobSnap,
                    ghost startedAt: Option<int>, ghost finishedAt: Option<int>)
    returns (commits': seq<JobSnap>)
    requires 1 <= i <= n
    requires JobRunning(job, commits, first, startedAt, finishedAt) && RunningMonotone(commits)
    requires job.progress <= Progress(i, n)
    modifies job
    ensures job.documentId == old(job.documentId)
    ensures job.progress == Progress(i, n)
    ensures job.message == "Processing page " + IntToString(i) + " of " + IntToString(n) + "..."
    ensures commits' == commits + [job.Snap()]
    ensures JobRunning(job, commits', first, startedAt, finishedAt) && RunningMonotone(commits')
  {
    ProgressBounds(i, n);
    job.progress := Progress(i, n);
    job.message := "Processing page " + IntToString(i) + " of " + IntToString(n) + "...";
    MonotoneExtend(commits, job.Snap());
    commits' := commits + [job.Snap()];
  }

  /** One turn of the page loop: report page `i`, then store its transcription unless an exception strikes. */
  method TranscribeOne(pages: seq<PageRow>, ghost pages0: seq<PageRow>, filePath: string, job: Job?, i: int, n: nat,
                       transcripts: seq<string>, fault: Fault, commits: seq<JobSnap>, ghost first: JobSnap,
                       ghost startedAt: Option<int>, ghost finishedAt: Option<int>)
    returns (pages': seq<PageRow>, failed: bool, commits': seq<JobSnap>)
    requires 1 <= i <= n <= |transcripts|
    requires pages == Processed(pages0, filePath, transcripts, i - 1)
    requires Reporting(job, commits, first, startedAt, finishedAt, i, n)
    modifies job
    ensures job != null ==> job.documentId == old(job.documentId)
    ensures failed <==> fault.FailAtPage? && fault.page == i
    ensures failed ==> pages' == pages
    ensures !failed ==> pages' == Processed(pages0, filePath, transcripts, i)
    ensures job != null ==> job.progress == Progress(i, n)
    ensures Reporting(job, commits', first, startedAt, finishedAt, i + 1, n)
  {
    commits' := commits;
    if job != null {
      commits' := ReportPage(job, i, n, commits, first, startedAt, finishedAt);
      if i < n {
        ProgressMonotone(i, i + 1, n);
      }
    }
    failed := fault.FailAtPage? && fault.page == i;
    pages' := if failed then pages else Upsert(pages, i, filePath, transcripts[i - 1]);
  }

  /**
   * The page loop of `run_beautify_job`: for i = 1..n, commit the progress of page i, then store its
   * transcription in the document's rows; an exception at page i ends the loop before that page is stored.
   */
  method TranscribePages(pages0: seq<PageRow>, filePath: string, job: Job?, n: nat, transcripts: seq<string>,
                         fault: Fault, commits0: seq<JobSnap>)
    returns (pages: seq<PageRow>, failure: Option<string>, commits: seq<JobSnap>)
    requires n <= |transcripts|
    requires job == null ==> commits0 == []
    requires job != null ==> commits0 == [job.Snap()] && job.status == Running && job.progress == 5
    modifies job
    ensures job != null ==> job.documentId == old(job.documentId)
    ensures pages == Processed(pages0, filePath, transcripts, PagesDone(fault, n))
    ensures failure.Some? <==> fault.FailAtPage? && 1 <= fault.page <= n
    ensures failure.Some? ==> failure.value == fault.msg
    ensures job == null ==> commits == []
    ensures job != null ==> JobRunning(job, commits, commits0[0], old(job.startedAt), old(job.finishedAt))
    ensures RunningMonotone(commits)
  {
    pages, commits, failure := pages0, commits0, None;
    ghost var first := if job != null then commits0[0] else JobSnap(Running, 5, "", None, None);
    ghost var startedAt := if job != null then job.startedAt else None;
    ghost var finishedAt := if job != null then job.finishedAt else None;
    if n >= 1 {
      ProgressBounds(1, n);
    }
    var i := 1;
    while i <= n
      invariant 1 <= i <= n + 1
      invariant pages == Processed(pages0, filePath, transcripts, i - 1)
      invariant !(fault.FailAtPage? && 1 <= fault.page < i)
      invariant Reporting(job, commits, first, startedAt, finishedAt, i, n)
      invariant job != null ==> job.documentId == old(job.documentId)
    {
      var failed;
      pages, failed, commits := TranscribeOne(pages, pages0, filePath, job, i, n, transcripts, fault, commits,
                                              first, startedAt, finishedAt);
      if failed {
        failure := Some(fault.msg);
        assert PagesDone(fault, n) == i - 1;
        break;
      }
      i := i + 1;
    }
    assert failure.None? ==> i == n + 1 && PagesDone(fault, n) == n;
  }

  /** The job side of the page loop before page `i` of `n`. */
  ghost predicate Reporting(job: Job?, commits: seq<JobSnap>, first: JobSnap, startedAt: Option<int>,
                            finishedAt: Option<int>, i: int, n: int)
    reads job
  {
    (job == null ==> commits == []) &&
    (job != null ==> JobRunning(job, commits, first, startedAt, finishedAt)) &&
    RunningMonotone(commits) &&
    (job != null && 1 <= i <= n ==> job.progress <= Progress(i, n))
  }

  /**
   * `run_beautify_job`. Returns the job states in the order they are committed.
   * `pdfPages` is the parser's page count (None when it raised), `transcripts[i - 1]` what the
   * transcriber returns for page i (one answer per page), and `fault` where an exception strikes.
   */
  method RunBeautifyJob(doc: Document?, job: Job?, pdfPages: Option<nat>, transcripts: seq<string>,
                        fault: Fault, now: int)
    returns (commits: seq<JobSnap>)
    requires doc != null ==> PageCount(doc.filePath, pdfPages) <= |transcripts|
    modifies doc, job
    ensures job == null ==> commits == []
    ensures job != null ==> job.documentId == old(job.documentId)
    ensures doc != null ==> doc.id == old(doc.id) && doc.filename == old(doc.filename)
    ensures job != null ==> |commits| >= 2 && commits[|commits| - 1] == job.Snap()
    ensures job != null ==> commits[0] == JobSnap(Running, 5, "Starting beautification", Some(now), old(job.finishedAt))
    ensures job != null ==> job.status != Running && job.startedAt == Some(now)
    ensures RunningMonotone(commits)
    ensures doc == null && job != null ==>
      job.status == Error && job.message == "Document not found" && job.progress == 0 &&
      job.finishedAt == old(job.finishedAt)
    ensures doc != null ==>
      var n := PageCount(old(doc.filePath), pdfPages);
      doc.filePath == old(doc.filePath) &&
      doc.pages == Processed(old(doc.pages), old(doc.filePath), transcripts, PagesDone(fault, n)) &&
      (Succeeds(fault, n) ==>
         doc.status == "beautified" &&
         (job != null ==> job.status == Completed && job.progress == 100 &&
                          job.message == "Beautification complete" && job.finishedAt == Some(now))) &&
      (!Succeeds(fault, n) ==>
         doc.status == "error" &&
         (job != null ==> job.status == Error && job.progress == 0 && job.finishedAt == Some(now) &&
                          job.message == fault.msg))
  {
    commits := [];
    if job != null {
      job.status := Running;
      job.startedAt := Some(now);
      job.progress := 5;
      job.message := "Starting beautification";
      commits := commits + [job.Snap()];
    }

    if doc == null {
      if job != null {
        job.status := Error;
        job.message := "Document not found";
        job.progress := 0;
        MonotoneExtend(commits, job.Snap());
        commits := commits + [job.Snap()];
      }
      return;
    }

    var n := PageCount(doc.filePath, pdfPages);
    var pages, failure;
    pages, failure, commits := TranscribePages(doc.pages, doc.filePath, job, n, transcripts, fault, commits);
    doc.pages := pages;

    if failure.None? && fault.FailAtFinish? {
      failure := Some(fault.msg);
    }
    if failure.None? {
      doc.status := "beautified";
      if job != null {
        job.progress := 100;
        job.status := Completed;
        job.message := "Beautification complete";
        job.finishedAt := Some(now);
        MonotoneExtend(commits, job.Snap());
        commits := commits + [job.Snap()];
      }
    } else {
      doc.status := "error";
      if job != null {
        job.status := Error;
        job.message := failure.value;
        job.progress := 0;
        job.finishedAt := Some(now);
        MonotoneExtend(commits, job.Snap());
        commits := commits + [job.Snap()];
      }
    }
  }
}
