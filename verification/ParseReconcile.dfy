/** The retry count survives in the job id, retries are bounded, and live jobs are not duplicated. */
module ParseReconcile {
  import opened Wrappers
  import opened Text
  import opened Decimals
  import opened ParseQueue

  // ----- reading the count back

  lemma {:induction false} TailOfDigits(a: string, d: string)
    requires AllDigits(d) && (a == "" || !IsDigit(a[|a| - 1]))
    ensures DigitTail(a + d) == |d|
    decreases |d|
  {
    if d == "" {
      assert a + d == a;
    } else {
      assert (a + d)[..|a + d| - 1] == a + d[..|d| - 1];
      TailOfDigits(a, d[..|d| - 1]);
    }
  }

  lemma {:induction false} SuffixOfRequeue(base: string, n: nat)
    ensures RequeueSuffix(base + ":r" + Decimal(n)) == Some(n)
  {
    var a, d := base + ":r", Decimal(n);
    DecimalChars(n);
    NumberOfDecimal(n);
    TailOfDigits(a, d);
    assert (a + d)[|a + d| - |d|..] == d;
  }

  /** Only what follows the last colon can look like a retry count. */
  lemma {:induction false} SuffixIsLocal(x: string, id: string)
    ensures RequeueSuffix(x + ":" + id) == RequeueSuffix(":" + id)
  {
    TailBehindColon(x + ":", id);
    TailBehindColon(":", id);
    SameEnd(x + ":" + id, ":" + id, DigitTail(id));
    assert (x + ":" + id)[|x|..] == ":" + id;
    if DigitTail(id) == |id| { assert (x + ":" + id)[|x|] == ':'; }
  }

  /** The suffix depends on the last characters alone: `t` ends `s`, and reaches past the digits. */
  lemma {:induction false} SameEnd(s: string, t: string, n: nat)
    requires DigitTail(s) == n && DigitTail(t) == n && n < |t| <= |s| && s[|s| - |t|..] == t
    requires n + 1 == |t| ==> t[0] != 'r'
    ensures RequeueSuffix(s) == RequeueSuffix(t)
  {
    assert s[|s| - n..] == t[|t| - n..];
    assert s[|s| - n - 1] == t[|t| - n - 1];
    assert n + 2 <= |t| ==> s[|s| - n - 2] == t[|t| - n - 2];
  }

  lemma {:induction false} TailBehindColon(a: string, id: string)
    requires a != "" && a[|a| - 1] == ':'
    ensures DigitTail(a + id) == DigitTail(id)
    decreases |id|
  {
    if id == "" {
      assert a + id == a;
    } else {
      assert (a + id)[..|a + id| - 1] == a + id[..|id| - 1];
      TailBehindColon(a, id[..|id| - 1]);
    }
  }

  lemma {:induction false} BaseEndsInId(doc: Doc)
    ensures RequeueSuffix(BaseId(doc)) == RequeueSuffix(":" + doc.id)
  {
    match doc
    case Procurement(kind, id) => SuffixIsLocal("procurement-parse:" + kind, id);
    case Catalog(id) =>
      assert BaseId(doc) == "catalog-parse" + ":" + id;
      SuffixIsLocal("catalog-parse", id);
  }

  /** The count read back is the count written, unless a first job's document id itself ends like a retry. */
  lemma {:induction false} CountReadsBack(doc: Doc, n: nat)
    ensures RequeueCount(Some(JobId(doc, n))) == n <==> n > 0 || RequeueCount(Some(":" + doc.id)) == 0
  {
    if n > 0 { SuffixOfRequeue(BaseId(doc), n); } else { BaseEndsInId(doc); }
  }

  // ----- one job id, one document, one attempt

  /** Ids as the database makes them: no colon, and not of the form `r7`. */
  ghost predicate Plain(doc: Doc) {
    ':' !in doc.id && (doc.Procurement? ==> ':' !in doc.kind) && RequeueCount(Some(":" + doc.id)) == 0
  }

  lemma {:induction false} PartsOfBase(doc: Doc)
    requires Plain(doc)
    ensures Split(BaseId(doc), ':')
      == match doc
         case Procurement(kind, id) => ["procurement-parse", kind, id]
         case Catalog(id) => ["catalog-parse", id]
  {
    match doc
    case Procurement(kind, id) =>
      assert BaseId(doc) == "procurement-parse" + [':'] + (kind + [':'] + id);
      SplitFirst("procurement-parse", ':', kind + [':'] + id);
      SplitFirst(kind, ':', id);
      SplitNone(id, ':');
    case Catalog(id) =>
      assert BaseId(doc) == "catalog-parse" + [':'] + id;
      SplitFirst("catalog-parse", ':', id);
      SplitNone(id, ':');
  }

  lemma {:induction false} BaseInjective(d: Doc, e: Doc)
    requires Plain(d) && Plain(e) && BaseId(d) == BaseId(e)
    ensures d == e
  {
    PartsOfBase(d);
    PartsOfBase(e);
    var p, q := Split(BaseId(d), ':'), Split(BaseId(e), ':');
    assert p == q && |p| == |q| && p[1] == q[1] && p[|p| - 1] == q[|q| - 1];
  }

  lemma {:induction false} SameTail(a: string, b: string, tail: string)
    requires a + tail == b + tail
    ensures a == b
  {
    assert a == (a + tail)[..|a + tail| - |tail|] && b == (b + tail)[..|b + tail| - |tail|];
  }

  lemma {:induction false} SameCount(d: Doc, m: nat, e: Doc, n: nat)
    requires Plain(d) && Plain(e) && JobId(d, m) == JobId(e, n)
    ensures m == n
  {
    CountReadsBack(d, m);
    CountReadsBack(e, n);
  }

  lemma {:induction false} JobIdParts(d: Doc, n: nat)
    ensures JobId(d, n) == BaseId(d) + if n > 0 then ":r" + Decimal(n) else ""
  {
  }

  lemma {:induction false} JobIdInjective(d: Doc, m: nat, e: Doc, n: nat)
    requires Plain(d) && Plain(e) && JobId(d, m) == JobId(e, n)
    ensures d == e && m == n
  {
    SameCount(d, m, e, n);
    JobIdParts(d, m);
    JobIdParts(e, n);
    SameTail(BaseId(d), BaseId(e), if n > 0 then ":r" + Decimal(n) else "");
    BaseInjective(d, e);
  }

  // ----- runs

  /** How often a document was requeued, and how often a due visit found its job gone. */
  datatype Book = Book(requeued: nat, missed: nat)

  datatype World = World(s: State, book: map<Doc, Book>)

  function BookOf(w: World, doc: Doc): Book { if doc in w.book then w.book[doc] else Book(0, 0) }

  datatype Step =
    | Upload(doc: Doc, now: int, accepted: bool)
    | Visiting(doc: Doc, now: int, luck: Luck)
    | JobMoves(id: string, state: Option<Job>)
    | WorkerWrites(doc: Doc, status: Status, startedAt: Option<int>, now: int)

  predicate Live(job: Job) { job.Waiting? || job.Active? }

  predicate Unfinished(row: Row) { row.status.Pending? || row.status.Processing? }

  predicate Enabled(w: World, step: Step) {
    match step
    case Upload(doc, _, _) => doc !in w.s.rows
    case Visiting(doc, _, _) => doc in w.s.rows && Unfinished(w.s.rows[doc])
    case JobMoves(id, moved) => id in w.s.queue && (moved.Some? && Live(moved.value) ==> Live(w.s.queue[id]))
    case WorkerWrites(doc, _, _, _) => doc in w.s.rows
  }

  /** The visit is due and finds no job that waits, runs or has failed. */
  predicate Misses(s: State, doc: Doc, now: int, luck: Luck)
    requires doc in s.rows
  {
    var seen := Look(s.queue, s.rows[doc].queueJobId, luck);
    Stale(s.rows[doc], now) && (seen.Missing? || seen == Known(Completed))
  }

  function Visited(w: World, doc: Doc, now: int, luck: Luck): World
    requires doc in w.s.rows
  {
    var row, b := w.s.rows[doc], BookOf(w, doc);
    var r := Visit(w.s, doc, row, now, luck);
    if !Misses(w.s, doc, now, luck) then w.(s := r)
    else
      var requeued := if RequeueCount(row.queueJobId) < MAX_REQUEUES then b.requeued + 1 else b.requeued;
      World(r, w.book[doc := Book(requeued, b.missed + 1)])
  }

  function Uploaded(w: World, doc: Doc, now: int, accepted: bool): World {
    var added := w.s.(rows := w.s.rows[doc := Row(Pending, None, None, None, now, None)]);
    World(Queued(added, doc, 0, now, accepted), w.book[doc := Book(0, 0)])
  }

  function Moved(w: World, id: string, moved: Option<Job>): World {
    w.(s := w.s.(queue := if moved.None? then Without(w.s.queue, id) else w.s.queue[id := moved.value]))
  }

  /** The worker changes the status, never the job id. */
  function Written(w: World, doc: Doc, status: Status, startedAt: Option<int>, now: int): World
    requires doc in w.s.rows
  {
    var row := w.s.rows[doc].(status := status, processingStartedAt := startedAt, updatedAt := now);
    w.(s := w.s.(rows := w.s.rows[doc := row]))
  }

  function Apply(w: World, step: Step): World
    requires Enabled(w, step)
  {
    match step
    case Upload(doc, now, accepted) => Uploaded(w, doc, now, accepted)
    case Visiting(doc, now, luck) => Visited(w, doc, now, luck)
    case JobMoves(id, moved) => Moved(w, id, moved)
    case WorkerWrites(doc, status, startedAt, now) => Written(w, doc, status, startedAt, now)
  }

  predicate Trace(w: World, steps: seq<Step>, last: World)
    decreases |steps|
  {
    if steps == [] then last == w
    else Enabled(w, steps[0]) && Trace(Apply(w, steps[0]), steps[1..], last)
  }

  const Empty := World(State(map[], map[]), map[])

  /** Documents have ids as the database makes them, and the queue answers when it is asked for a job. */
  ghost predicate PlainStep(step: Step) { step.Upload? ==> Plain(step.doc) }

  ghost predicate Answers(step: Step) { step.Visiting? ==> step.luck.getJob }

  // ----- what a visit does, in terms of the count

  /** The row names the job of this attempt. */
  ghost predicate Names(s: State, doc: Doc, n: nat) { doc in s.rows && s.rows[doc].queueJobId == Some(JobId(doc, n)) }

  /** Only this row may differ. */
  ghost predicate OnlyRow(s: State, r: State, doc: Doc) {
    doc in s.rows && r.rows.Keys == s.rows.Keys && forall d :: d in s.rows && d != doc ==> r.rows[d] == s.rows[d]
  }

  lemma {:induction false} QueuedShape(s: State, doc: Doc, n: nat, now: int, accepted: bool)
    requires doc in s.rows
    ensures var r := Queued(s, doc, n, now, accepted);
      && OnlyRow(s, r, doc) && Names(r, doc, n)
      && r.rows[doc].status == (if accepted then Pending else Failed)
      && r.queue == if accepted then AddJob(s.queue, JobId(doc, n)) else s.queue
  {
  }

  lemma {:induction false} VisitShape(s: State, doc: Doc, n: nat, now: int, luck: Luck)
    requires Names(s, doc, n) && RequeueCount(Some(JobId(doc, n))) == n
    ensures var r := Visit(s, doc, s.rows[doc], now, luck);
      if Misses(s, doc, now, luck) && n < MAX_REQUEUES then r == Queued(s, doc, n + 1, now, luck.accepted)
      else
        && OnlyRow(s, r, doc) && Names(r, doc, n) && r.queue == s.queue
        && (Misses(s, doc, now, luck) ==> r.rows[doc].status.Failed?)
  {
    var act := ActOn(s.queue, s.rows[doc], now, luck);
    if act.Fail? { FailedShape(s, doc, n, act.error, now); }
  }

  lemma {:induction false} FailedShape(s: State, doc: Doc, n: nat, error: string, now: int)
    requires Names(s, doc, n)
    ensures var r := MarkedFailed(s, doc, error, now);
      OnlyRow(s, r, doc) && Names(r, doc, n) && r.queue == s.queue && r.rows[doc].status.Failed?
  {
  }

  // ----- the bound

  ghost predicate CountOk(w: World, doc: Doc) {
    var b := BookOf(w, doc);
    && Plain(doc) && Names(w.s, doc, b.requeued)
    && b.requeued == if b.missed < MAX_REQUEUES then b.missed else MAX_REQUEUES
  }

  ghost predicate CountsOk(w: World) { forall doc :: doc in w.s.rows ==> CountOk(w, doc) }

  /** The book after a visit, given the count it started from. */
  lemma {:induction false} BookAfter(w: World, doc: Doc, now: int, luck: Luck)
    requires CountOk(w, doc)
    ensures RequeueCount(Some(JobId(doc, BookOf(w, doc).requeued))) == BookOf(w, doc).requeued
    ensures var b, r := BookOf(w, doc), Visited(w, doc, now, luck);
      && (forall d :: d != doc ==> BookOf(r, d) == BookOf(w, d))
      && BookOf(r, doc) == if !Misses(w.s, doc, now, luck) then b
                           else Book(if b.requeued < MAX_REQUEUES then b.requeued + 1 else b.requeued, b.missed + 1)
  {
    CountReadsBack(doc, BookOf(w, doc).requeued);
  }

  /** Whatever the visit does, the row then names the attempt the book then counts. */
  lemma {:induction false} NamedAfter(w: World, doc: Doc, c: nat, now: int, luck: Luck)
    requires Names(w.s, doc, c) && RequeueCount(Some(JobId(doc, c))) == c
    ensures var r := Visit(w.s, doc, w.s.rows[doc], now, luck);
      OnlyRow(w.s, r, doc) && Names(r, doc, if Misses(w.s, doc, now, luck) && c < MAX_REQUEUES then c + 1 else c)
  {
    VisitShape(w.s, doc, c, now, luck);
    if Misses(w.s, doc, now, luck) && c < MAX_REQUEUES { QueuedShape(w.s, doc, c + 1, now, luck.accepted); }
  }

  lemma {:induction false} OwnCount(w: World, doc: Doc, now: int, luck: Luck)
    requires CountOk(w, doc)
    ensures CountOk(Visited(w, doc, now, luck), doc) && OnlyRow(w.s, Visited(w, doc, now, luck).s, doc)
  {
    BookAfter(w, doc, now, luck);
    NamedAfter(w, doc, BookOf(w, doc).requeued, now, luck);
  }

  lemma {:induction false} VisitCounts(w: World, doc: Doc, now: int, luck: Luck)
    requires CountsOk(w) && doc in w.s.rows
    ensures CountsOk(Visited(w, doc, now, luck))
  {
    var r := Visited(w, doc, now, luck);
    OwnCount(w, doc, now, luck);
    BookAfter(w, doc, now, luck);
    forall d | d in r.s.rows && d != doc ensures CountOk(r, d) { assert CountOk(w, d); }
  }

  lemma {:induction false} UploadCounts(w: World, doc: Doc, now: int, accepted: bool)
    requires CountsOk(w) && doc !in w.s.rows && Plain(doc)
    ensures CountsOk(Uploaded(w, doc, now, accepted))
  {
    var r := Uploaded(w, doc, now, accepted);
    var added := w.s.(rows := w.s.rows[doc := Row(Pending, None, None, None, now, None)]);
    QueuedShape(added, doc, 0, now, accepted);
    forall d | d in r.s.rows && d != doc ensures CountOk(r, d) { assert CountOk(w, d); }
  }

  lemma {:induction false} OtherCounts(w: World, step: Step)
    requires CountsOk(w) && Enabled(w, step) && (step.JobMoves? || step.WorkerWrites?)
    ensures CountsOk(Apply(w, step))
  {
    var r := Apply(w, step);
    forall d | d in r.s.rows ensures CountOk(r, d) { assert CountOk(w, d); }
  }

  lemma {:induction false} StepCounts(w: World, step: Step)
    requires CountsOk(w) && Enabled(w, step) && PlainStep(step)
    ensures CountsOk(Apply(w, step))
  {
    match step
    case Visiting(doc, now, luck) => VisitCounts(w, doc, now, luck);
    case Upload(doc, now, accepted) => UploadCounts(w, doc, now, accepted);
    case _ => OtherCounts(w, step);
  }

  lemma {:induction false} CountsAlong(w: World, steps: seq<Step>, last: World)
    requires CountsOk(w) && Trace(w, steps, last) && forall i :: 0 <= i < |steps| ==> PlainStep(steps[i])
    ensures CountsOk(last)
    decreases |steps|
  {
    if steps != [] {
      StepCounts(w, steps[0]);
      CountsAlong(Apply(w, steps[0]), steps[1..], last);
    }
  }

  /** On every run: a document is requeued at most twice, and its job id says how often. */
  lemma {:induction false} RequeuedAtMostTwice(steps: seq<Step>, last: World, doc: Doc)
    requires Trace(Empty, steps, last) && doc in last.s.rows && forall i :: 0 <= i < |steps| ==> PlainStep(steps[i])
    ensures BookOf(last, doc).requeued <= MAX_REQUEUES
    ensures RequeueCount(last.s.rows[doc].queueJobId) == BookOf(last, doc).requeued
  {
    CountsAlong(Empty, steps, last);
    assert CountOk(last, doc);
    CountReadsBack(doc, BookOf(last, doc).requeued);
  }

  /** A due visit leaves a live or unreadable job alone, and fails the row of a failed job. */
  lemma {:induction false} DueVisitFindsJob(s: State, doc: Doc, now: int, luck: Luck)
    requires doc in s.rows && Stale(s.rows[doc], now)
    ensures var r, seen := Visit(s, doc, s.rows[doc], now, luck), Look(s.queue, s.rows[doc].queueJobId, luck);
      && (seen.Unknown? || (seen.Known? && Live(seen.job)) ==> r == s)
      && (seen == Known(Exhausted) ==> r.rows[doc].status.Failed? && r.queue == s.queue)
  {
  }

  /**
   * Below the cap the next attempt is queued under its own id, or failed if the
   * queue refuses it; at the cap the row fails.
   */
  ghost predicate AfterMiss(s: State, r: State, doc: Doc, misses: nat, luck: Luck)
    requires doc in s.rows && doc in r.rows
  {
    if misses < 2 then
      && Names(s, doc, misses) && Names(r, doc, misses + 1)
      && r.rows[doc].status == (if luck.accepted then Pending else Failed)
      && r.queue == if luck.accepted then AddJob(s.queue, JobId(doc, misses + 1)) else s.queue
    else r.rows[doc].status.Failed? && r.queue == s.queue
  }

  lemma {:induction false} MissWithin(s: State, doc: Doc, c: nat, now: int, luck: Luck)
    requires Names(s, doc, c) && RequeueCount(Some(JobId(doc, c))) == c && Misses(s, doc, now, luck)
    ensures AfterMiss(s, Visit(s, doc, s.rows[doc], now, luck), doc, c, luck)
  {
    VisitShape(s, doc, c, now, luck);
    if c < 2 { QueuedShape(s, doc, c + 1, now, luck.accepted); }
  }

  lemma {:induction false} CountOf(w: World, doc: Doc)
    requires CountOk(w, doc)
    ensures var c := BookOf(w, doc).requeued; Names(w.s, doc, c) && RequeueCount(Some(JobId(doc, c))) == c
    ensures BookOf(w, doc).requeued == if BookOf(w, doc).missed < 2 then BookOf(w, doc).missed else 2
  {
    CountReadsBack(doc, BookOf(w, doc).requeued);
  }

  /** One that finds no job raises the count by one and queues the next job, and the third of them fails the row. */
  lemma {:induction false} DueVisitFindsNone(steps: seq<Step>, w: World, doc: Doc, now: int, luck: Luck)
    requires Trace(Empty, steps, w) && doc in w.s.rows && forall i :: 0 <= i < |steps| ==> PlainStep(steps[i])
    requires Misses(w.s, doc, now, luck)
    ensures AfterMiss(w.s, Visit(w.s, doc, w.s.rows[doc], now, luck), doc, BookOf(w, doc).missed, luck)
  {
    CountsAlong(Empty, steps, w);
    CountOf(w, doc);
    MissWithin(w.s, doc, BookOf(w, doc).requeued, now, luck);
    CapOrMissed(w.s, Visit(w.s, doc, w.s.rows[doc], now, luck), doc, BookOf(w, doc), luck);
  }

  lemma {:induction false} CapOrMissed(s: State, r: State, doc: Doc, b: Book, luck: Luck)
    requires doc in s.rows && doc in r.rows && b.requeued == if b.missed < 2 then b.missed else 2
    ensures AfterMiss(s, r, doc, b.requeued, luck) ==> AfterMiss(s, r, doc, b.missed, luck)
  {
  }

  // ----- live jobs

  predicate LiveAt(s: State, doc: Doc, n: nat) { JobId(doc, n) in s.queue && Live(s.queue[JobId(doc, n)]) }

  /** The job is of no later attempt than the row's, and of the row's if it is live. */
  ghost predicate AtMostCurrent(w: World, doc: Doc, n: nat)
    requires JobId(doc, n) in w.s.queue
  {
    n <= BookOf(w, doc).requeued && (Live(w.s.queue[JobId(doc, n)]) ==> n == BookOf(w, doc).requeued)
  }

  /** The document's only live job, if any, is the one its row names; later ids are unused. */
  ghost predicate JobsOk(w: World, doc: Doc) {
    forall n: nat :: JobId(doc, n) in w.s.queue ==>
      doc in w.s.rows && AtMostCurrent(w, doc, n)
  }

  ghost predicate OneLive(w: World) { CountsOk(w) && forall doc :: Plain(doc) ==> JobsOk(w, doc) }

  /** A new job for an attempt not made yet, when the one before is not live. */
  lemma {:induction false} NewJob(w: World, r: World, doc: Doc, n: nat, d: Doc)
    requires Plain(doc) && Plain(d) && JobsOk(w, d)
    requires (forall x :: x in w.s.rows ==> x in r.s.rows) && doc in r.s.rows && BookOf(r, doc).requeued == n
    requires r.s.queue == w.s.queue || r.s.queue == AddJob(w.s.queue, JobId(doc, n))
    requires d != doc ==> BookOf(r, d) == BookOf(w, d)
    requires doc in w.s.rows ==> BookOf(w, doc).requeued < n && !LiveAt(w.s, doc, BookOf(w, doc).requeued)
    ensures JobsOk(r, d)
  {
    forall m: nat | JobId(d, m) in r.s.queue
      ensures d in r.s.rows && AtMostCurrent(r, d, m)
    {
      if JobId(d, m) == JobId(doc, n) { JobIdInjective(d, m, doc, n); }
    }
  }

  /** A due visit that misses although the queue answers: the named job is not live. */
  lemma {:induction false} MissedIsDead(s: State, doc: Doc, n: nat, now: int, luck: Luck)
    requires Names(s, doc, n) && Misses(s, doc, now, luck) && luck.getJob
    ensures !LiveAt(s, doc, n)
  {
  }

  lemma {:induction false} VisitJobs(w: World, doc: Doc, now: int, luck: Luck, d: Doc)
    requires CountOk(w, doc) && luck.getJob && Plain(d) && JobsOk(w, d)
    ensures JobsOk(Visited(w, doc, now, luck), d)
  {
    var r, c := Visited(w, doc, now, luck), BookOf(w, doc).requeued;
    BookAfter(w, doc, now, luck);
    VisitShape(w.s, doc, c, now, luck);
    if Misses(w.s, doc, now, luck) && c < MAX_REQUEUES {
      QueuedShape(w.s, doc, c + 1, now, luck.accepted);
      MissedIsDead(w.s, doc, c, now, luck);
      NewJob(w, r, doc, c + 1, d);
    } else {
      SameJobs(w, r, d);
    }
  }

  lemma {:induction false} SameJobs(w: World, r: World, d: Doc)
    requires JobsOk(w, d) && r.s.queue == w.s.queue && r.s.rows.Keys == w.s.rows.Keys
    requires BookOf(r, d).requeued == BookOf(w, d).requeued
    ensures JobsOk(r, d)
  {
  }

  lemma {:induction false} VisitKeepsOneLive(w: World, doc: Doc, now: int, luck: Luck)
    requires OneLive(w) && doc in w.s.rows && luck.getJob
    ensures OneLive(Visited(w, doc, now, luck))
  {
    VisitCounts(w, doc, now, luck);
    assert CountOk(w, doc);
    forall d | Plain(d) ensures JobsOk(Visited(w, doc, now, luck), d) { VisitJobs(w, doc, now, luck, d); }
  }

  lemma {:induction false} UploadKeepsOneLive(w: World, doc: Doc, now: int, accepted: bool)
    requires OneLive(w) && doc !in w.s.rows && Plain(doc)
    ensures OneLive(Uploaded(w, doc, now, accepted))
  {
    var r := Uploaded(w, doc, now, accepted);
    var added := w.s.(rows := w.s.rows[doc := Row(Pending, None, None, None, now, None)]);
    UploadCounts(w, doc, now, accepted);
    QueuedShape(added, doc, 0, now, accepted);
    forall d | Plain(d) ensures JobsOk(r, d) { NewJob(w, r, doc, 0, d); }
  }

  lemma {:induction false} OthersKeepOneLive(w: World, step: Step)
    requires OneLive(w) && Enabled(w, step) && (step.JobMoves? || step.WorkerWrites?)
    ensures OneLive(Apply(w, step))
  {
    OtherCounts(w, step);
    forall d | Plain(d) ensures JobsOk(Apply(w, step), d) { assert JobsOk(w, d); }
  }

  lemma {:induction false} OneLiveAlong(w: World, steps: seq<Step>, last: World)
    requires OneLive(w) && Trace(w, steps, last)
    requires forall i :: 0 <= i < |steps| ==> PlainStep(steps[i]) && Answers(steps[i])
    ensures OneLive(last)
    decreases |steps|
  {
    if steps != [] {
      var step := steps[0];
      match step {
        case Visiting(doc, now, luck) => VisitKeepsOneLive(w, doc, now, luck);
        case Upload(doc, now, accepted) => UploadKeepsOneLive(w, doc, now, accepted);
        case _ => OthersKeepOneLive(w, step);
      }
      OneLiveAlong(Apply(w, step), steps[1..], last);
    }
  }

  /** While the queue answers, no document ever has two live jobs. */
  lemma {:induction false} NoDuplicateJobs(steps: seq<Step>, last: World, doc: Doc, m: nat, n: nat)
    requires Trace(Empty, steps, last) && Plain(doc)
    requires forall i :: 0 <= i < |steps| ==> PlainStep(steps[i]) && Answers(steps[i])
    requires LiveAt(last.s, doc, m) && LiveAt(last.s, doc, n)
    ensures m == n
  {
    OneLiveAlong(Empty, steps, last);
    assert JobsOk(last, doc);
  }

  /** Due, its job alive, the read of it failing, requeues left, and the queue takes the new job. */
  predicate Duplicates(w: World, doc: Doc, now: int, luck: Luck)
    requires doc in w.s.rows
  {
    && Stale(w.s.rows[doc], now) && LiveAt(w.s, doc, BookOf(w, doc).requeued)
    && !luck.getJob && BookOf(w, doc).requeued < MAX_REQUEUES && luck.accepted
  }

  /** An error reading the queue passes for a missing job: exactly then the visit adds a second live one. */
  lemma {:induction false} DuplicatedExactly(steps: seq<Step>, w: World, doc: Doc, now: int, luck: Luck)
    requires Trace(Empty, steps, w) && forall i :: 0 <= i < |steps| ==> PlainStep(steps[i]) && Answers(steps[i])
    requires doc in w.s.rows
    ensures var r := Visit(w.s, doc, w.s.rows[doc], now, luck);
      Duplicates(w, doc, now, luck) <==> exists m: nat, n: nat :: m != n && LiveAt(r, doc, m) && LiveAt(r, doc, n)
  {
    OneLiveAlong(Empty, steps, w);
    var r := Visit(w.s, doc, w.s.rows[doc], now, luck);
    if Duplicates(w, doc, now, luck) {
      SecondLive(w, doc, now, luck);
    } else {
      forall m: nat, n: nat | LiveAt(r, doc, m) && LiveAt(r, doc, n) ensures m == n {
        NoSecond(w, doc, now, luck, m);
        NoSecond(w, doc, now, luck, n);
      }
    }
  }

  lemma {:induction false} SecondLive(w: World, doc: Doc, now: int, luck: Luck)
    requires OneLive(w) && doc in w.s.rows && Duplicates(w, doc, now, luck)
    ensures var r, c := Visit(w.s, doc, w.s.rows[doc], now, luck), BookOf(w, doc).requeued;
      LiveAt(r, doc, c) && LiveAt(r, doc, c + 1)
  {
    var c := BookOf(w, doc).requeued;
    assert CountOk(w, doc) && JobsOk(w, doc);
    CountReadsBack(doc, c);
    VisitShape(w.s, doc, c, now, luck);
    QueuedShape(w.s, doc, c + 1, now, luck.accepted);
    assert JobId(doc, c + 1) !in w.s.queue;
  }

  /** Otherwise every job live after the visit is the one its row then names. */
  lemma {:induction false} NoSecond(w: World, doc: Doc, now: int, luck: Luck, m: nat)
    requires OneLive(w) && doc in w.s.rows && !Duplicates(w, doc, now, luck)
    requires LiveAt(Visit(w.s, doc, w.s.rows[doc], now, luck), doc, m)
    ensures m == BookOf(w, doc).requeued
                 + if luck.accepted && Misses(w.s, doc, now, luck) && BookOf(w, doc).requeued < MAX_REQUEUES then 1
                   else 0
  {
    var c := BookOf(w, doc).requeued;
    assert CountOk(w, doc) && JobsOk(w, doc);
    CountReadsBack(doc, c);
    VisitShape(w.s, doc, c, now, luck);
    if Misses(w.s, doc, now, luck) && c < MAX_REQUEUES {
      QueuedShape(w.s, doc, c + 1, now, luck.accepted);
      NoSecondQueued(w, doc, c, now, luck, m);
    }
  }

  lemma {:induction false} NoSecondQueued(w: World, doc: Doc, c: nat, now: int, luck: Luck, m: nat)
    requires JobsOk(w, doc) && Plain(doc) && Names(w.s, doc, c) && c == BookOf(w, doc).requeued
    requires Misses(w.s, doc, now, luck) && (luck.accepted ==> luck.getJob || !LiveAt(w.s, doc, c))
    requires var queue := if luck.accepted then AddJob(w.s.queue, JobId(doc, c + 1)) else w.s.queue;
      JobId(doc, m) in queue && Live(queue[JobId(doc, m)])
    ensures m == c + if luck.accepted then 1 else 0
  {
    if luck.accepted {
      if luck.getJob { MissedIsDead(w.s, doc, c, now, luck); }
      if JobId(doc, m) == JobId(doc, c + 1) { JobIdInjective(doc, m, doc, c + 1); }
    }
  }
}
