/**
 * Visits that act on a row read earlier: a scan that lags behind the workers,
 * or a second reconciler beside the first.
 */
module ParseLag {
  import opened Wrappers
  import opened ParseQueue
  import opened ParseReconcile

  // ----- one late visit

  /** The visit of this row is due and finds no job that waits, runs or has failed. */
  predicate MissesRow(s: State, row: Row, now: int, luck: Luck) {
    var seen := Look(s.queue, row.queueJobId, luck);
    Stale(row, now) && (seen.Missing? || seen == Known(Completed))
  }

  /** The row names attempt `n`. */
  ghost predicate RowNames(row: Row, doc: Doc, n: nat) { row.queueJobId == Some(JobId(doc, n)) }

  lemma {:induction false} LateShape(s: State, doc: Doc, row: Row, n: nat, now: int, luck: Luck)
    requires doc in s.rows && RowNames(row, doc, n) && RequeueCount(Some(JobId(doc, n))) == n
    ensures var r := Visit(s, doc, row, now, luck);
      && OnlyRow(s, r, doc)
      && r.queue == (if MissesRow(s, row, now, luck) && n < MAX_REQUEUES && luck.accepted
                     then AddJob(s.queue, JobId(doc, n + 1)) else s.queue)
      && (r.rows[doc].queueJobId != s.rows[doc].queueJobId ==> n < MAX_REQUEUES && Names(r, doc, n + 1))
  {
    if MissesRow(s, row, now, luck) && n < MAX_REQUEUES {
      assert ActOn(s.queue, row, now, luck).Requeue?;
      QueuedShape(s, doc, n + 1, now, luck.accepted);
    }
  }

  /** The visit adds a job of an attempt that is not the live one, under an id the queue has let go. */
  predicate AddsSecond(w: World, doc: Doc, row: Row, n: nat, now: int, luck: Luck) {
    var c := BookOf(w, doc).requeued;
    && MissesRow(w.s, row, now, luck) && n < MAX_REQUEUES && luck.accepted
    && LiveAt(w.s, doc, c) && n + 1 != c && JobId(doc, n + 1) !in w.s.queue
  }

  ghost predicate TwoLive(s: State, doc: Doc) {
    exists m: nat, n: nat :: m != n && LiveAt(s, doc, m) && LiveAt(s, doc, n)
  }

  lemma {:induction false} AddedSecond(w: World, doc: Doc, row: Row, n: nat, now: int, luck: Luck)
    requires doc in w.s.rows && Plain(doc) && RowNames(row, doc, n) && RequeueCount(Some(JobId(doc, n))) == n
    requires AddsSecond(w, doc, row, n, now, luck)
    ensures TwoLive(Visit(w.s, doc, row, now, luck), doc)
  {
    var r, c := Visit(w.s, doc, row, now, luck), BookOf(w, doc).requeued;
    LateShape(w.s, doc, row, n, now, luck);
    assert LiveAt(r, doc, n + 1) && LiveAt(r, doc, c);
  }

  lemma {:induction false} OnlyLive(w: World, doc: Doc, row: Row, n: nat, now: int, luck: Luck, m: nat)
    requires OneLive(w) && doc in w.s.rows && Plain(doc) && RowNames(row, doc, n)
    requires RequeueCount(Some(JobId(doc, n))) == n
    requires !AddsSecond(w, doc, row, n, now, luck) && LiveAt(Visit(w.s, doc, row, now, luck), doc, m)
    ensures m == if LiveAt(w.s, doc, BookOf(w, doc).requeued) then BookOf(w, doc).requeued else n + 1
  {
    LateShape(w.s, doc, row, n, now, luck);
    assert JobsOk(w, doc);
    if JobId(doc, m) !in w.s.queue { JobIdInjective(doc, m, doc, n + 1); }
  }

  /**
   * From any state that up-to-date visits lead to: a visit on a row read when
   * the document stood at attempt `n` leaves two live jobs exactly when it adds
   * one beside the live one. An attempt just behind the live one never does.
   */
  lemma {:induction false} LateVisitExactly(
    steps: seq<Step>, w: World, doc: Doc, row: Row, n: nat, now: int, luck: Luck)
    requires Trace(Empty, steps, w) && forall i :: 0 <= i < |steps| ==> PlainStep(steps[i]) && Answers(steps[i])
    requires doc in w.s.rows && RowNames(row, doc, n)
    ensures TwoLive(Visit(w.s, doc, row, now, luck), doc) <==> AddsSecond(w, doc, row, n, now, luck)
    ensures BookOf(w, doc).requeued == n + 1 ==> !TwoLive(Visit(w.s, doc, row, now, luck), doc)
  {
    OneLiveAlong(Empty, steps, w);
    assert CountOk(w, doc);
    CountReadsBack(doc, n);
    if AddsSecond(w, doc, row, n, now, luck) {
      AddedSecond(w, doc, row, n, now, luck);
    } else {
      var r := Visit(w.s, doc, row, now, luck);
      forall m: nat, x: nat | LiveAt(r, doc, m) && LiveAt(r, doc, x)
        ensures m == x
      {
        OnlyLive(w, doc, row, n, now, luck, m);
        OnlyLive(w, doc, row, n, now, luck, x);
      }
    }
  }

  // ----- any number of them

  /** A row as some scan read it. */
  datatype Past = Past(doc: Doc, row: Row)

  datatype Lagged = Lagged(w: World, past: set<Past>)

  datatype LagStep = Scan(doc: Doc) | LateVisit(p: Past, now: int, luck: Luck) | Other(step: Step)

  predicate CanTake(l: Lagged, step: LagStep) {
    match step
    case Scan(doc) => doc in l.w.s.rows
    case LateVisit(p, _, _) => p in l.past && p.doc in l.w.s.rows
    case Other(step) => Enabled(l.w, step)
  }

  function Take(l: Lagged, step: LagStep): Lagged
    requires CanTake(l, step)
  {
    match step
    case Scan(doc) => l.(past := l.past + {Past(doc, l.w.s.rows[doc])})
    case LateVisit(p, now, luck) => l.(w := l.w.(s := Visit(l.w.s, p.doc, p.row, now, luck)))
    case Other(step) => l.(w := Apply(l.w, step))
  }

  predicate LagTrace(l: Lagged, steps: seq<LagStep>, last: Lagged)
    decreases |steps|
  {
    if steps == [] then last == l
    else CanTake(l, steps[0]) && LagTrace(Take(l, steps[0]), steps[1..], last)
  }

  ghost predicate PlainLag(step: LagStep) { step.Other? ==> PlainStep(step.step) }

  /** The row names the first attempt or one of the two requeued. */
  ghost predicate WithinCap(row: Row, doc: Doc) {
    Plain(doc) && exists n: nat :: n <= MAX_REQUEUES && RowNames(row, doc, n)
  }

  ghost predicate RowsWithin(s: State) { forall doc :: doc in s.rows ==> WithinCap(s.rows[doc], doc) }

  ghost predicate JobsWithin(s: State) {
    forall doc, n: nat :: Plain(doc) && JobId(doc, n) in s.queue ==> n <= MAX_REQUEUES
  }

  ghost predicate Capped(l: Lagged) {
    RowsWithin(l.w.s) && JobsWithin(l.w.s) && forall p :: p in l.past ==> WithinCap(p.row, p.doc)
  }

  lemma {:induction false} AddedWithin(s: State, r: State, doc: Doc, n: nat)
    requires JobsWithin(s) && Plain(doc) && n <= MAX_REQUEUES
    requires r.queue == s.queue || r.queue == AddJob(s.queue, JobId(doc, n))
    ensures JobsWithin(r)
  {
    forall d, m: nat | Plain(d) && JobId(d, m) in r.queue ensures m <= MAX_REQUEUES {
      if JobId(d, m) == JobId(doc, n) { JobIdInjective(d, m, doc, n); }
    }
  }

  lemma {:induction false} VisitCapped(s: State, doc: Doc, row: Row, now: int, luck: Luck)
    requires RowsWithin(s) && JobsWithin(s) && doc in s.rows && WithinCap(row, doc)
    ensures RowsWithin(Visit(s, doc, row, now, luck)) && JobsWithin(Visit(s, doc, row, now, luck))
  {
    var n: nat :| n <= MAX_REQUEUES && RowNames(row, doc, n);
    CountReadsBack(doc, n);
    LateShape(s, doc, row, n, now, luck);
    ShapeCapped(s, Visit(s, doc, row, now, luck), doc, n);
  }

  lemma {:induction false} ShapeCapped(s: State, r: State, doc: Doc, n: nat)
    requires RowsWithin(s) && JobsWithin(s) && Plain(doc) && OnlyRow(s, r, doc)
    requires r.queue == s.queue || (n < MAX_REQUEUES && r.queue == AddJob(s.queue, JobId(doc, n + 1)))
    requires r.rows[doc].queueJobId != s.rows[doc].queueJobId ==> n < MAX_REQUEUES && Names(r, doc, n + 1)
    ensures RowsWithin(r) && JobsWithin(r)
  {
    if n < MAX_REQUEUES { AddedWithin(s, r, doc, n + 1); }
    RowStaysWithin(s, r, doc, n);
  }

  lemma {:induction false} RowStaysWithin(s: State, r: State, doc: Doc, n: nat)
    requires RowsWithin(s) && OnlyRow(s, r, doc)
    requires r.rows[doc].queueJobId != s.rows[doc].queueJobId ==> n < MAX_REQUEUES && Names(r, doc, n + 1)
    ensures RowsWithin(r)
  {
    assert WithinCap(s.rows[doc], doc);
    if r.rows[doc].queueJobId != s.rows[doc].queueJobId { assert RowNames(r.rows[doc], doc, n + 1); }
    else {
      var m: nat :| m <= MAX_REQUEUES && RowNames(s.rows[doc], doc, m);
      assert RowNames(r.rows[doc], doc, m);
    }
  }

  lemma {:induction false} OtherCapped(w: World, step: Step)
    requires RowsWithin(w.s) && JobsWithin(w.s) && Enabled(w, step) && PlainStep(step)
    ensures RowsWithin(Apply(w, step).s) && JobsWithin(Apply(w, step).s)
  {
    var r := Apply(w, step).s;
    match step
    case Visiting(doc, now, luck) => VisitCapped(w.s, doc, w.s.rows[doc], now, luck);
    case Upload(doc, now, accepted) =>
      var added := w.s.(rows := w.s.rows[doc := Row(Pending, None, None, None, now, None)]);
      QueuedShape(added, doc, 0, now, accepted);
      AddedWithin(w.s, r, doc, 0);
      assert RowNames(r.rows[doc], doc, 0);
    case WorkerWrites(doc, _, _, _) =>
      assert WithinCap(w.s.rows[doc], doc);
      var n: nat :| n <= MAX_REQUEUES && RowNames(w.s.rows[doc], doc, n);
      assert RowNames(r.rows[doc], doc, n);
    case JobMoves(_, _) =>
  }

  lemma {:induction false} CappedAlong(l: Lagged, steps: seq<LagStep>, last: Lagged)
    requires Capped(l) && LagTrace(l, steps, last) && forall i :: 0 <= i < |steps| ==> PlainLag(steps[i])
    ensures Capped(last)
    decreases |steps|
  {
    if steps != [] {
      match steps[0] {
        case Scan(_) =>
        case LateVisit(p, now, luck) => VisitCapped(l.w.s, p.doc, p.row, now, luck);
        case Other(step) => OtherCapped(l.w, step);
      }
      CappedAlong(Take(l, steps[0]), steps[1..], last);
    }
  }

  /**
   * However late, however many scans overlap, and whether or not the queue
   * answers: a document's row names one of three attempts, and no job of a
   * fourth is ever queued.
   */
  lemma {:induction false} ThreeAttemptsAtMost(steps: seq<LagStep>, last: Lagged, doc: Doc, n: nat)
    requires LagTrace(Lagged(Empty, {}), steps, last) && forall i :: 0 <= i < |steps| ==> PlainLag(steps[i])
    requires Plain(doc)
    ensures doc in last.w.s.rows ==> WithinCap(last.w.s.rows[doc], doc)
    ensures JobId(doc, n) in last.w.s.queue ==> n <= MAX_REQUEUES
  {
    CappedAlong(Lagged(Empty, {}), steps, last);
  }

  // ----- a scan two requeues behind adds a second live job

  const Fine := Luck(true, true, true)

  function FirstRow(doc: Doc): Row { Row(Pending, Some(JobId(doc, 0)), Some(0), None, 0, None) }

  function RequeuedRow(doc: Doc, n: nat, now: int): Row {
    Row(Pending, Some(JobId(doc, n)), Some(now), None, now, None)
  }

  function Requeued(doc: Doc, n: nat, now: int): World {
    World(State(map[doc := RequeuedRow(doc, n, now)], map[JobId(doc, n) := Waiting]), map[doc := Book(n, n)])
  }

  function JobGone(doc: Doc, n: nat, now: int): World {
    World(State(map[doc := RequeuedRow(doc, n, now)], map[]), map[doc := Book(n, n)])
  }

  lemma {:induction false} MissedVisit(w: World, doc: Doc, n: nat, now: int)
    requires doc in w.s.rows && Misses(w.s, doc, now, Fine) && BookOf(w, doc) == Book(n, n)
    requires RequeueCount(w.s.rows[doc].queueJobId) == n < MAX_REQUEUES
    ensures Visited(w, doc, now, Fine) == World(Queued(w.s, doc, n + 1, now, true), w.book[doc := Book(n + 1, n + 1)])
  {
    assert ActOn(w.s.queue, w.s.rows[doc], now, Fine).Requeue?;
  }

  lemma {:induction false} Overwritten<K, V>(k: K, a: V, b: V)
    ensures map[k := a][k := b] == map[k := b]
  {
  }

  lemma {:induction false} QueuedFromGone(doc: Doc, n: nat, now: int, at: int)
    ensures Queued(JobGone(doc, n, now).s, doc, n + 1, at, true) == Requeued(doc, n + 1, at).s
  {
    Overwritten(doc, RequeuedRow(doc, n, now), RequeuedRow(doc, n + 1, at));
    assert AddJob(map[], JobId(doc, n + 1)) == map[JobId(doc, n + 1) := Waiting];
  }

  lemma {:induction false} VisitRequeues(doc: Doc, n: nat, now: int)
    requires Plain(doc) && n < MAX_REQUEUES
    ensures var at := now + PENDING_STALE_MS;
      Visited(JobGone(doc, n, now), doc, at, Fine) == Requeued(doc, n + 1, at)
  {
    CountReadsBack(doc, n);
    MissedVisit(JobGone(doc, n, now), doc, n, now + PENDING_STALE_MS);
    QueuedFromGone(doc, n, now, now + PENDING_STALE_MS);
    Overwritten(doc, Book(n, n), Book(n + 1, n + 1));
  }

  /** A run of visits to current rows, with a queue that answers. */
  ghost predicate LeadsTo(w: World, steps: seq<Step>, last: World) {
    Trace(w, steps, last) && forall i :: 0 <= i < |steps| ==> PlainStep(steps[i]) && Answers(steps[i])
  }

  lemma {:induction false} Then(w: World, steps: seq<Step>, mid: World, step: Step)
    requires Trace(w, steps, mid) && Enabled(mid, step)
    ensures Trace(w, steps + [step], Apply(mid, step))
    decreases |steps|
  {
    if steps == [] {
      assert steps + [step] == [step] && [step][1..] == [];
      assert Trace(Apply(w, step), [], Apply(mid, step));
    } else {
      assert (steps + [step])[1..] == steps[1..] + [step];
      Then(Apply(w, steps[0]), steps[1..], mid, step);
    }
  }

  lemma {:induction false} ThenLeads(w: World, steps: seq<Step>, mid: World, step: Step, last: World)
    requires LeadsTo(w, steps, mid) && Enabled(mid, step) && last == Apply(mid, step) && PlainStep(step)
    requires Answers(step)
    ensures LeadsTo(w, steps + [step], last)
  {
    Then(w, steps, mid, step);
  }

  /** The queued job is lost, and two minutes later a visit queues the next one. */
  lemma {:induction false} LoseAndRequeue(
    w: World, steps: seq<Step>, doc: Doc, n: nat, now: int) returns (longer: seq<Step>)
    requires Plain(doc) && n < MAX_REQUEUES && LeadsTo(w, steps, Requeued(doc, n, now))
    ensures LeadsTo(w, longer, Requeued(doc, n + 1, now + PENDING_STALE_MS))
  {
    var at, gone := now + PENDING_STALE_MS, JobGone(doc, n, now);
    LoseJob(doc, n, now);
    ThenLeads(w, steps, Requeued(doc, n, now), JobMoves(JobId(doc, n), None), gone);
    VisitRequeues(doc, n, now);
    ThenLeads(w, steps + [JobMoves(JobId(doc, n), None)], gone, Visiting(doc, at, Fine), Requeued(doc, n + 1, at));
    longer := steps + [JobMoves(JobId(doc, n), None)] + [Visiting(doc, at, Fine)];
  }

  lemma {:induction false} LoseJob(doc: Doc, n: nat, now: int)
    ensures Moved(Requeued(doc, n, now), JobId(doc, n), None) == JobGone(doc, n, now)
  {
  }

  lemma {:induction false} ToUploaded(doc: Doc) returns (steps: seq<Step>)
    requires Plain(doc)
    ensures LeadsTo(Empty, steps, Requeued(doc, 0, 0))
  {
    steps := [] + [Upload(doc, 0, true)];
    assert Uploaded(Empty, doc, 0, true) == Requeued(doc, 0, 0);
    ThenLeads(Empty, [], Empty, Upload(doc, 0, true), Requeued(doc, 0, 0));
  }

  lemma {:induction false} ToRequeuedOnce(doc: Doc) returns (steps: seq<Step>)
    requires Plain(doc)
    ensures LeadsTo(Empty, steps, Requeued(doc, 1, PENDING_STALE_MS))
  {
    var up := ToUploaded(doc);
    steps := LoseAndRequeue(Empty, up, doc, 0, 0);
  }

  lemma {:induction false} ToRequeuedTwice(doc: Doc) returns (steps: seq<Step>)
    requires Plain(doc)
    ensures LeadsTo(Empty, steps, Requeued(doc, 2, PENDING_STALE_MS + PENDING_STALE_MS))
  {
    var once := ToRequeuedOnce(doc);
    steps := LoseAndRequeue(Empty, once, doc, 1, PENDING_STALE_MS);
  }

  lemma {:induction false} FirstRowMisses(doc: Doc, now: int)
    requires Plain(doc) && now >= PENDING_STALE_MS
    ensures AddsSecond(Requeued(doc, 2, now), doc, FirstRow(doc), 0, now, Fine)
  {
    forall n: nat | n < 2 ensures JobId(doc, n) !in Requeued(doc, 2, now).s.queue {
      if JobId(doc, n) == JobId(doc, 2) { JobIdInjective(doc, n, doc, 2); }
    }
  }

  /** The row read at upload, visited after two requeues: a first and a second retry both live. */
  lemma {:induction false} LateScanDuplicates(doc: Doc) returns (steps: seq<Step>, w: World, now: int)
    requires Plain(doc)
    ensures LeadsTo(Empty, steps, w)
    ensures doc in w.s.rows && TwoLive(Visit(w.s, doc, FirstRow(doc), now, Fine), doc)
  {
    now := PENDING_STALE_MS + PENDING_STALE_MS;
    w := Requeued(doc, 2, now);
    steps := ToRequeuedTwice(doc);
    FirstRowMisses(doc, now);
    LateVisitExactly(steps, w, doc, FirstRow(doc), 0, now, Fine);
  }
}
