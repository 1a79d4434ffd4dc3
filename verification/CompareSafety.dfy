/** No verdict is lost: every comparable pair is answered, on its way, or left with a trace of why not. */
module CompareSafety {
  import opened CompareModel

  ghost predicate DocsInTime(s: State) {
    forall d :: Valid(s, d) ==> Get(s, d).updatedAt <= s.now && Get(s, d).committedAt <= s.now
  }

  /** A write under way is newer than its document, which is not comparable meanwhile. */
  ghost predicate StampOk(s: State, d: DocId, stamp: nat) {
    Valid(s, d) && Get(s, d).updatedAt < stamp <= s.now && !Cleared(Get(s, d)) && !Get(s, d).status.Failed?
  }

  ghost predicate StampsOk(s: State) { forall d :: d in s.stamps ==> StampOk(s, d, s.stamps[d]) }

  ghost predicate JobOk(s: State, j: JobId, job: Job) {
    && j.k < |s.invoices|
    && job.created <= s.now
    && (j.Auto? ==> j.version <= job.created)
    && (job.stage.Open? ==>
         && job.stage.run < |s.runs|
         && s.runs[job.stage.run].k == j.k
         && s.runs[job.stage.run].auto == j.Auto?
         && s.runs[job.stage.run].startedAt > job.created
         && !s.runs[job.stage.run].outcome.Succeeded?)
  }

  ghost predicate JobsOk(s: State) { forall j :: j in s.jobs ==> JobOk(s, j, s.jobs[j]) }

  ghost predicate TimesOk(s: State) {
    forall r :: 0 <= r < |s.runs| ==> s.runs[r].startedAt <= s.now
  }

  ghost predicate HasRow(s: State, j: JobId, run: nat) {
    j in s.jobs && s.jobs[j].stage.Open? && s.jobs[j].stage.run == run
  }

  /** A run row belongs to one job. */
  ghost predicate RowsOwned(s: State) {
    forall i, j, run :: HasRow(s, i, run) && HasRow(s, j, run) ==> i == j
  }

  ghost predicate Basics(s: State) { DocsInTime(s) && StampsOk(s) && JobsOk(s) && TimesOk(s) && RowsOwned(s) }

  ghost predicate Owed(s: State, k: nat) { exists d :: d in s.owed && Feeds(d, k) }

  /**
   * The pair's verdict is in hand or accounted for: an enqueue is still due, a
   * succeeded run is fresh, a job for inputs at least as new is in the queue
   * (waiting, running or kept as failed), or `compare` refused such a job when
   * every document it needs was ready.
   */
  ghost predicate Covered(s: State, k: nat)
    requires k < |s.invoices|
  {
    || Owed(s, k)
    || UpToDate(s, k)
    || exists v: nat :: Version(s, k) <= v && Asked(s, Auto(k, v))
  }

  ghost predicate Asked(s: State, j: JobId) { j in s.jobs || j in s.abandoned }

  /** Every parsed pair is covered, unless its latest enqueue was held back by a receipt. */
  ghost predicate NothingLost(s: State) {
    forall k :: PairParsed(s, k) && k !in s.deferred ==> Covered(s, k)
  }

  /** Ready to be compared, and nothing will. */
  ghost predicate Lost(s: State, k: nat) { Comparable(s, k) && !Covered(s, k) }

  // ----- what steps leave alone

  /** Only document `d` is new or changed, and no write on it is under way any more. */
  ghost predicate DocMove(s: State, r: State, d: DocId) {
    && r.now == s.now + 1 && r.jobs == s.jobs && r.runs == s.runs && r.abandoned == s.abandoned
    && r.deferred == s.deferred && s.owed <= r.owed
    && |s.invoices| <= |r.invoices| && |s.receipts| <= |r.receipts|
    && Valid(r, d) && Get(r, d).updatedAt <= r.now && Get(r, d).committedAt <= r.now
    && (forall x :: Valid(s, x) ==> Valid(r, x))
    && (forall x :: Valid(r, x) && x != d ==> Valid(s, x) && Get(r, x) == Get(s, x))
    && (forall x :: x in r.stamps ==> x != d && x in s.stamps && r.stamps[x] == s.stamps[x])
  }

  lemma {:induction false} SetFrame(s: State, d: DocId, doc: Doc)
    requires Valid(s, d)
    ensures var r := Set(s, d, doc);
      && Get(r, d) == doc
      && r == s.(order := r.order, invoices := r.invoices, receipts := r.receipts)
      && |r.invoices| == |s.invoices| && |r.receipts| == |s.receipts|
      && (forall x :: Valid(r, x) <==> Valid(s, x))
      && forall x :: Valid(s, x) && x != d ==> Get(r, x) == Get(s, x)
  {
  }

  lemma {:induction false} BeginMove(s: State, d: DocId, to: Status)
    requires Basics(s) && CanBegin(s, d, to)
    ensures DocMove(s, Begin(s, d, to), d)
  {
    SetFrame(s, d, Get(s, d).(status := to, updatedAt := s.now + 1));
  }

  lemma {:induction false} CommitMove(s: State, d: DocId)
    requires Basics(s) && CanCommit(s, d)
    ensures DocMove(s, Commit(s, d), d) && Get(Commit(s, d), d) == Committed(s, d)
  {
    SetFrame(s, d, Committed(s, d));
  }

  lemma {:induction false} FailMove(s: State, d: DocId)
    requires Basics(s) && CanFail(s, d)
    ensures DocMove(s, Fail(s, d), d)
  {
    SetFrame(s, d, Get(s, d).(status := Failed, updatedAt := s.now + 1));
  }

  lemma {:induction false} UploadMoves(s: State, rr: bool)
    requires Basics(s)
    ensures DocMove(s, UploadInvoice(s, rr), Invoice(|s.invoices|))
    ensures DocMove(s, UploadReceipt(s, rr), Receipt(|s.receipts|))
  {
  }

  /** Documents, writes and enqueue calls as they were; runs keep their start, pair and author. */
  ghost predicate JobMove(s: State, r: State) {
    && r == s.(now := s.now + 1, jobs := r.jobs, runs := r.runs, abandoned := r.abandoned)
    && s.abandoned <= r.abandoned
    && RunsGrow(s.runs, r.runs, r.now)
    && (forall j :: j in r.jobs ==>
          && j.k < |s.invoices|
          && (j in s.jobs ==> r.jobs[j].created == s.jobs[j].created && r.jobs[j].inputs == s.jobs[j].inputs)
          && (j !in s.jobs ==> j.Manual? && r.jobs[j].created == r.now && !r.jobs[j].stage.Open?))
    && (forall j :: j in r.jobs && r.jobs[j].stage.Open? ==>
          || (j in s.jobs && r.jobs[j].stage == s.jobs[j].stage && RowOpen(r, r.jobs[j].stage.run))
          || OpensLast(r, j))
    && RowsOwned(r)
  }

  ghost predicate RowOpen(r: State, run: nat) { run < |r.runs| ==> !r.runs[run].outcome.Succeeded? }

  ghost predicate RunsGrow(before: seq<Run>, after: seq<Run>, now: nat) {
    && |before| <= |after|
    && (forall i :: 0 <= i < |before| ==> after[i] == before[i].(outcome := after[i].outcome))
    && (forall i :: 0 <= i < |before| && before[i].outcome.Succeeded? ==> after[i].outcome.Succeeded?)
    && (forall i :: |before| <= i < |after| ==> after[i].startedAt == now && after[i].outcome.Running?)
  }

  ghost predicate OpensLast(r: State, j: JobId)
    requires j in r.jobs && r.jobs[j].stage.Open?
  {
    && r.runs != [] && r.jobs[j].stage.run == |r.runs| - 1
    && r.runs[|r.runs| - 1].k == j.k && r.runs[|r.runs| - 1].auto == j.Auto? && r.runs[|r.runs| - 1].startedAt == r.now
    && r.runs[|r.runs| - 1].outcome.Running?
  }

  /** A step that opens no row leaves rows with their jobs, which have not succeeded them. */
  lemma {:induction false} MoveRows(s: State, r: State)
    requires Basics(s)
    ensures forall i :: i in s.jobs ==> JobOk(s, i, s.jobs[i])
    ensures (forall i, run :: HasRow(r, i, run) ==> HasRow(s, i, run)) ==> RowsOwned(r)
  {
  }

  lemma {:induction false} PressMove(s: State, k: nat, ticket: nat)
    requires Basics(s) && CanPress(s, k, ticket)
    ensures JobMove(s, Press(s, k, ticket))
  {
    var r := Press(s, k, ticket);
    MoveRows(s, r);
  }

  lemma {:induction false} StartMove(s: State, j: JobId)
    requires Basics(s) && CanStart(s, j)
    ensures JobMove(s, Start(s, j))
  {
    var r := Start(s, j);
    MoveRows(s, r);
  }

  lemma {:induction false} ReadMove(s: State, j: JobId)
    requires Basics(s) && CanRead(s, j)
    ensures JobMove(s, Read(s, j))
  {
    var r := Read(s, j);
    MoveRows(s, r);
  }

  lemma {:induction false} RefuseMove(s: State, j: JobId)
    requires Basics(s) && CanRefuse(s, j)
    ensures JobMove(s, Refuse(s, j))
  {
    var r := Refuse(s, j);
    MoveRows(s, r);
  }

  lemma {:induction false} OpenMove(s: State, j: JobId)
    requires Basics(s) && CanOpen(s, j)
    ensures JobMove(s, OpenRow(s, j))
  {
    var r := OpenRow(s, j);
    MoveRows(s, r);
    assert forall i: JobId, run: nat :: HasRow(r, i, run) ==>
      (i == j && run == |s.runs|) || (HasRow(s, i, run) && run < |s.runs|);
  }

  lemma {:induction false} SucceedMove(s: State, j: JobId)
    requires Basics(s) && CanSucceed(s, j)
    ensures JobMove(s, Succeed(s, j))
  {
    var r := Succeed(s, j);
    MoveRows(s, r);
    assert HasRow(s, j, s.jobs[j].stage.run);
    assert forall i, run :: HasRow(r, i, run) ==> HasRow(s, i, run) && run != s.jobs[j].stage.run;
    assert forall i :: i in r.jobs && r.jobs[i].stage.Open? ==> HasRow(r, i, r.jobs[i].stage.run);
  }

  lemma {:induction false} FailJobMove(s: State, j: JobId, closeRun: bool)
    requires Basics(s) && CanFailJob(s, j, closeRun)
    ensures JobMove(s, FailJob(s, j, closeRun))
  {
    var r := FailJob(s, j, closeRun);
    MoveRows(s, r);
  }

  lemma {:induction false} SweepMove(s: State, run: nat)
    requires Basics(s) && CanSweep(s, run)
    ensures JobMove(s, Sweep(s, run))
  {
    var r := Sweep(s, run);
    MoveRows(s, r);
  }

  lemma {:induction false} AddJobsOnly(s: State, pairs: seq<Pair>, t: nat)
    ensures var r := AddJobs(s, pairs, t); r == s.(jobs := r.jobs)
    decreases |pairs|
  {
    if pairs != [] { AddJobsOnly(s, pairs[..|pairs| - 1], t); }
  }

  /** Jobs held stay as they are, every pair has its job, and a new job records the inputs of now. */
  lemma {:induction false} AddJobsShape(s: State, pairs: seq<Pair>, t: nat)
    ensures var r := AddJobs(s, pairs, t);
      && r == s.(jobs := r.jobs)
      && (forall j :: j in s.jobs ==> j in r.jobs && r.jobs[j] == s.jobs[j])
      && (forall i :: 0 <= i < |pairs| ==> Auto(pairs[i].k, pairs[i].version) in r.jobs)
      && (forall j :: j in r.jobs && j !in s.jobs ==> j.Auto? && Pair(j.k, j.version) in pairs)
      && (forall j :: j in r.jobs && j !in s.jobs ==> r.jobs[j] == Job(Waiting, 1, t, Inputs(s, j.k)))
    decreases |pairs|
  {
    AddJobsOnly(s, pairs, t);
    if pairs != [] {
      var front, last := pairs[..|pairs| - 1], pairs[|pairs| - 1];
      AddJobsShape(s, front, t);
      AddJobsOnly(s, front, t);
      assert pairs == front + [last];
      SameInputs(s, AddJobs(s, front, t), last.k);
    }
  }

  lemma {:induction false} SameInputs(s: State, r: State, k: nat)
    requires SameDocs(s, r)
    ensures Inputs(r, k) == Inputs(s, k)
  {
    assert forall d :: Valid(r, d) <==> Valid(s, d);
    assert forall d :: Valid(s, d) ==> Get(r, d) == Get(s, d);
  }

  ghost predicate SameDocs(s: State, t: State) {
    t.order == s.order && t.invoices == s.invoices && t.receipts == s.receipts
  }

  /** What an enqueue leaves: every job held, and one job for each comparable pair the document feeds. */
  ghost predicate Enqueues(s: State, r: State, d: DocId) {
    && r == s.(now := s.now + 1, jobs := r.jobs, owed := s.owed - {d}, deferred := Deferrals(s, d))
    && (forall j :: j in s.jobs ==> j in r.jobs && r.jobs[j] == s.jobs[j])
    && (forall j :: j in r.jobs && j !in s.jobs ==> NewJob(s, r, d, j))
    && (forall k :: Comparable(s, k) && Feeds(d, k) ==> Auto(k, Version(s, k)) in r.jobs)
  }

  ghost predicate NewJob(s: State, r: State, d: DocId, j: JobId)
    requires j in r.jobs
  {
    && j.Auto? && Comparable(s, j.k) && Feeds(d, j.k) && j.version == Version(s, j.k)
    && r.jobs[j] == Job(Waiting, 1, r.now, Inputs(s, j.k))
  }

  lemma {:induction false} EnqueueShape(s: State, d: DocId)
    requires Valid(s, d)
    ensures Enqueues(s, Enqueue(s, d), d)
  {
    var mid, pairs := s.(now := s.now + 1), PairsFor(s, d);
    AddedShape(s, d, mid, pairs, AddJobs(mid, pairs, mid.now), Enqueue(s, d));
  }

  lemma {:induction false} AddedShape(s: State, d: DocId, mid: State, pairs: seq<Pair>, added: State, r: State)
    requires Valid(s, d) && mid == s.(now := s.now + 1) && pairs == PairsFor(s, d)
    requires added == AddJobs(mid, pairs, mid.now) && r == added.(owed := s.owed - {d}, deferred := Deferrals(s, d))
    ensures Enqueues(s, r, d)
  {
    AddJobsShape(mid, pairs, mid.now);
    forall j | j in r.jobs && j !in s.jobs ensures NewJob(s, r, d, j) {
      PairsForExactly(s, d, j.k, j.version);
      SameInputs(s, mid, j.k);
    }
    forall k | Comparable(s, k) && Feeds(d, k) ensures Auto(k, Version(s, k)) in r.jobs {
      PairsForExactly(s, d, k, Version(s, k));
      var i :| 0 <= i < |pairs| && pairs[i] == Pair(k, Version(s, k));
      assert Auto(pairs[i].k, pairs[i].version) in r.jobs;
    }
  }

  // ----- the basic facts are kept

  lemma {:induction false} DocMoveBasics(s: State, r: State, d: DocId)
    requires Basics(s) && DocMove(s, r, d)
    ensures Basics(r)
  {
    assert forall j, run :: HasRow(r, j, run) ==> HasRow(s, j, run);
    assert DocsInTime(r) by {
      forall x | Valid(r, x) ensures Get(r, x).updatedAt <= r.now && Get(r, x).committedAt <= r.now {
        if x != d { assert Valid(s, x); }
      }
    }
    DocMoveStamps(s, r, d);
    DocMoveJobs(s, r, d);
  }

  lemma {:induction false} DocMoveStamps(s: State, r: State, d: DocId)
    requires Basics(s) && DocMove(s, r, d)
    ensures StampsOk(r)
  {
    forall x | x in r.stamps ensures StampOk(r, x, r.stamps[x]) {
      assert StampOk(s, x, s.stamps[x]);
    }
  }

  lemma {:induction false} DocMoveJobs(s: State, r: State, d: DocId)
    requires Basics(s) && DocMove(s, r, d)
    ensures JobsOk(r)
  {
    forall j | j in r.jobs ensures JobOk(r, j, r.jobs[j]) { assert JobOk(s, j, s.jobs[j]); }
  }

  lemma {:induction false} JobMoveBasics(s: State, r: State)
    requires Basics(s) && JobMove(s, r)
    ensures Basics(r)
  {
    assert forall x :: Valid(r, x) <==> Valid(s, x);
    assert forall x :: x in r.stamps ==> StampOk(s, x, s.stamps[x]);
    JobMoveJobs(s, r);
    assert TimesOk(r) by {
      forall i | 0 <= i < |r.runs| ensures r.runs[i].startedAt <= r.now {
        if i < |s.runs| { assert r.runs[i].startedAt == s.runs[i].startedAt; }
      }
    }
  }

  lemma {:induction false} JobMoveJobs(s: State, r: State)
    requires Basics(s) && JobMove(s, r)
    ensures JobsOk(r)
  {
    forall j | j in r.jobs ensures JobOk(r, j, r.jobs[j]) {
      if j in s.jobs { assert JobOk(s, j, s.jobs[j]); }
    }
  }

  lemma {:induction false} EnqueueBasics(s: State, r: State, d: DocId)
    requires Basics(s) && Enqueues(s, r, d)
    ensures Basics(r)
  {
    assert forall x :: Valid(r, x) <==> Valid(s, x);
    assert forall x :: x in r.stamps ==> StampOk(s, x, s.stamps[x]);
    EnqueueJobs(s, r, d);
    assert forall i, run :: HasRow(r, i, run) ==> HasRow(s, i, run);
  }

  lemma {:induction false} EnqueueJobs(s: State, r: State, d: DocId)
    requires Basics(s) && Enqueues(s, r, d)
    ensures JobsOk(r)
  {
    forall j | j in r.jobs ensures JobOk(r, j, r.jobs[j]) {
      if j in s.jobs { assert JobOk(s, j, s.jobs[j]); }
      else {
        assert NewJob(s, r, d, j);
        VersionInTime(s, j.k);
      }
    }
  }

  lemma {:induction false} VersionInTime(s: State, k: nat)
    requires DocsInTime(s) && k < |s.invoices|
    ensures Version(s, k) <= s.now
  {
    assert Valid(s, Order) && Valid(s, Invoice(k));
    assert Get(s, Invoice(k)).updatedAt <= s.now && Get(s, Order).updatedAt <= s.now;
    var n := NewestDone(s.receipts);
    if n > 0 {
      var i :| 0 <= i < |s.receipts| && s.receipts[i].status.Done? && s.receipts[i].updatedAt == n;
      assert Valid(s, Receipt(i)) && Get(s, Receipt(i)).updatedAt == n;
    }
  }

  // ----- nothing is lost

  /**
   * A job that leaves the queue leaves an answer: a fresh pair, a run newer than
   * its version, a refusal, or a document of its pair that is not ready.
   */
  ghost predicate Answered(r: State, j: JobId)
    requires j.k < |r.invoices|
  {
    || j.Manual?
    || UpToDate(r, j.k)
    || !Accepts(r, j.k)
    || j in r.abandoned
    || exists i :: 0 <= i < |r.runs|
         && r.runs[i].k == j.k && r.runs[i].outcome.Succeeded? && r.runs[i].startedAt > j.version
  }

  ghost predicate JobsAnswered(s: State, r: State)
    requires JobMove(s, r) && JobsOk(s)
  {
    forall j :: j in s.jobs && j !in r.jobs ==> JobOk(s, j, s.jobs[j]) && Answered(r, j)
  }

  lemma {:induction false} FreshGrows(s: State, r: State, k: nat)
    requires JobMove(s, r) && UpToDate(s, k)
    ensures UpToDate(r, k)
  {
    var latest := LatestStart(s.runs, k);
    var i :| 0 <= i < |s.runs|
      && s.runs[i].k == k && s.runs[i].outcome.Succeeded? && s.runs[i].startedAt == latest.value;
    assert r.runs[i].k == k && r.runs[i].outcome.Succeeded? && r.runs[i].startedAt == latest.value;
  }

  lemma {:induction false} StartAnswers(s: State, j: JobId)
    requires Basics(s) && CanStart(s, j)
    ensures JobMove(s, Start(s, j)) && JobsAnswered(s, Start(s, j))
  {
    StartMove(s, j);
    assert JobOk(s, j, s.jobs[j]);
    if UpToDate(s, j.k) { FreshGrows(s, Start(s, j), j.k); }
  }

  lemma {:induction false} SucceedAnswers(s: State, j: JobId)
    requires Basics(s) && CanSucceed(s, j)
    ensures JobMove(s, Succeed(s, j)) && JobsAnswered(s, Succeed(s, j))
  {
    SucceedMove(s, j);
    assert JobOk(s, j, s.jobs[j]);
    var r, i := Succeed(s, j), s.jobs[j].stage.run;
    assert r.runs[i].k == j.k && r.runs[i].outcome.Succeeded? && r.runs[i].startedAt == s.runs[i].startedAt;
  }

  lemma {:induction false} OthersAnswer(s: State, step: Step)
    requires Basics(s) && Enabled(s, step)
    requires step.DoPress? || step.DoRead? || step.DoRefuse? || step.DoOpen? || step.DoFailJob? || step.DoSweep?
    ensures JobMove(s, Apply(s, step)) && JobsAnswered(s, Apply(s, step))
  {
    match step
    case DoPress(k, ticket) => PressMove(s, k, ticket);
    case DoRead(j) => ReadMove(s, j);
    case DoRefuse(j) => RefuseMove(s, j); assert JobOk(s, j, s.jobs[j]);
    case DoOpen(j) => OpenMove(s, j);
    case DoFailJob(j, closeRun) => FailJobMove(s, j, closeRun); assert JobOk(s, j, s.jobs[j]);
    case DoSweep(run) => SweepMove(s, run);
    case _ =>
  }

  /** A run newer than the version of the inputs makes the pair fresh. */
  lemma {:induction false} NewerRunIsFresh(r: State, k: nat, i: nat)
    requires k < |r.invoices| && i < |r.runs|
    requires r.runs[i].k == k && r.runs[i].outcome.Succeeded? && r.runs[i].startedAt > Version(r, k)
    ensures UpToDate(r, k)
  {
  }

  // ----- a job for the current version meets no receipt that awaits review

  /** No receipt parsed by then awaits review, and none under way will look that old. */
  ghost predicate ReviewedAt(s: State, version: nat) {
    && (forall i :: 0 <= i < |s.receipts| && s.receipts[i].status.Done? && s.receipts[i].updatedAt <= version ==>
          !ReviewPending(s.receipts[i]))
    && (forall d :: d in s.stamps && d.Receipt? ==> s.stamps[d] > version)
  }

  ghost predicate Reviewed(s: State) { forall j :: j in s.jobs && j.Auto? ==> ReviewedAt(s, j.version) }

  /** So a parsed pair whose inputs are no newer than that is one `compare` accepts. */
  lemma {:induction false} ReviewedIsReady(s: State, k: nat, version: nat)
    requires PairParsed(s, k) && Version(s, k) <= version && ReviewedAt(s, version)
    ensures Accepts(s, k)
  {
  }

  lemma {:induction false} DocMoveReviewed(s: State, r: State, d: DocId)
    requires Reviewed(s) && DocMove(s, r, d)
    requires Get(r, d).status.Done? ==> d in s.stamps && Get(r, d).updatedAt == s.stamps[d]
    ensures Reviewed(r)
  {
    forall j | j in r.jobs && j.Auto? ensures ReviewedAt(r, j.version) {
      assert ReviewedAt(s, j.version);
      SameReceipts(s, r, d);
    }
  }

  lemma {:induction false} SameReceipts(s: State, r: State, d: DocId)
    requires DocMove(s, r, d)
    ensures forall i :: 0 <= i < |r.receipts| && Receipt(i) != d ==> i < |s.receipts| && r.receipts[i] == s.receipts[i]
  {
    forall i | 0 <= i < |r.receipts| && Receipt(i) != d ensures i < |s.receipts| && r.receipts[i] == s.receipts[i] {
      assert Valid(r, Receipt(i)) && Get(r, Receipt(i)) == Get(s, Receipt(i));
    }
  }

  lemma {:induction false} JobMoveReviewed(s: State, r: State)
    requires Reviewed(s) && JobMove(s, r)
    ensures Reviewed(r)
  {
    forall j | j in r.jobs && j.Auto? ensures ReviewedAt(r, j.version) { assert ReviewedAt(s, j.version); }
  }

  /** A pair that can be enqueued has no receipt awaiting review or under way. */
  lemma {:induction false} ComparableReviewed(s: State, k: nat, version: nat)
    requires Basics(s) && Comparable(s, k)
    ensures ReviewedAt(s, version)
  {
    forall i | 0 <= i < |s.receipts| ensures !Unsettled(s.receipts[i]) {}
    forall d | d in s.stamps ensures !d.Receipt? {
      assert StampOk(s, d, s.stamps[d]);
      assert d.Receipt? ==> Unsettled(s.receipts[d.i]);
    }
  }

  lemma {:induction false} EnqueueReviewed(s: State, r: State, d: DocId)
    requires Basics(s) && Reviewed(s) && Enqueues(s, r, d)
    ensures Reviewed(r)
  {
    forall j | j in r.jobs && j.Auto? ensures ReviewedAt(r, j.version) {
      if j !in s.jobs {
        assert NewJob(s, r, d, j);
        ComparableReviewed(s, j.k, j.version);
      }
      assert ReviewedAt(s, j.version);
    }
  }

  lemma {:induction false} StampReviewed(s: State, d: DocId)
    requires Basics(s) && Reviewed(s) && CanStamp(s, d)
    ensures Reviewed(Stamp(s, d))
  {
    var r := Stamp(s, d);
    forall j | j in r.jobs && j.Auto? ensures ReviewedAt(r, j.version) {
      assert ReviewedAt(s, j.version) && JobOk(s, j, s.jobs[j]);
    }
  }

  lemma {:induction false} StepReviewed(s: State, step: Step)
    requires Basics(s) && Reviewed(s) && Enabled(s, step)
    ensures Reviewed(Apply(s, step))
  {
    var r := Apply(s, step);
    if JobStep(step) { JobStepMoves(s, step); JobMoveReviewed(s, r); }
    else if step.DoStamp? { StampReviewed(s, step.d); }
    else if step.DoEnqueue? { EnqueueShape(s, step.d); EnqueueReviewed(s, r, step.d); }
    else if step.DoCommit? { CommitMove(s, step.d); DocMoveReviewed(s, r, step.d); }
    else { DocStepMoves(s, step); DocMoveReviewed(s, r, DocOf(s, step)); }
  }

  // ----- one step and one pair

  /**
   * What a step leaves of a pair: parsed and uncovered after it, the pair was so
   * before, or this very step is the enqueue that a receipt holds back.
   */
  ghost predicate Left(s: State, r: State, k: nat) {
    PairParsed(r, k) && !Covered(r, k) ==>
      && PairParsed(s, k)
      && ((k in r.deferred && Defers(r.receipts)) || ((k in r.deferred <==> k in s.deferred) && !Covered(s, k)))
  }

  lemma {:induction false} JobMoveLeft(s: State, r: State, k: nat)
    requires Basics(s) && Reviewed(s) && JobMove(s, r) && JobsAnswered(s, r)
    ensures Left(s, r, k)
  {
    if PairParsed(s, k) && Covered(s, k) {
      assert Version(r, k) == Version(s, k);
      if UpToDate(s, k) { FreshGrows(s, r, k); }
      else if !Owed(s, k) {
        var v: nat :| Version(s, k) <= v && Asked(s, Auto(k, v));
        AskedKept(s, r, k, v);
      }
    }
  }

  /** A job for inputs at least as new stays asked for, or has left a fresh pair. */
  lemma {:induction false} AskedKept(s: State, r: State, k: nat, v: nat)
    requires Basics(s) && Reviewed(s) && JobMove(s, r) && JobsAnswered(s, r)
    requires PairParsed(r, k) && Version(r, k) <= v && Asked(s, Auto(k, v))
    ensures Covered(r, k)
  {
    var j := Auto(k, v);
    if j in s.jobs && j !in r.jobs {
      assert Answered(r, j) && ReviewedAt(r, v);
      ReviewedIsReady(r, k, v);
      if i :| 0 <= i < |r.runs| && r.runs[i].k == k && r.runs[i].outcome.Succeeded? && r.runs[i].startedAt > v {
        NewerRunIsFresh(r, k, i);
      } else if j in r.abandoned { assert Asked(r, j); }
    } else { assert Asked(r, j); }
  }

  /** Fewer parsed receipts, or the same: the newest is not newer. */
  lemma {:induction false} FewerDone(before: seq<Doc>, after: seq<Doc>)
    requires forall i :: 0 <= i < |after| && after[i].status.Done? ==>
      i < |before| && before[i].status.Done? && before[i].updatedAt == after[i].updatedAt
    ensures NewestDone(after) <= NewestDone(before)
  {
  }

  /** A pair keeps its standing when its two documents stay and no newer receipt appears. */
  lemma {:induction false} PairKept(s: State, r: State, d: DocId, k: nat)
    requires DocMove(s, r, d) && PairParsed(r, k) && d != Order && d != Invoice(k)
    requires NewestDone(r.receipts) <= NewestDone(s.receipts)
    ensures PairParsed(s, k) && (Covered(s, k) ==> Covered(r, k))
  {
    assert Valid(r, Invoice(k)) && Get(r, Invoice(k)) == Get(s, Invoice(k));
    assert Valid(r, Order) && Get(r, Order) == Get(s, Order);
    assert Version(r, k) <= Version(s, k);
    if Owed(s, k) {
      var x :| x in s.owed && Feeds(x, k);
      assert x in r.owed;
    } else if v: nat :| Version(s, k) <= v && Asked(s, Auto(k, v)) {
      assert Asked(r, Auto(k, v));
    }
  }

  /** A step on one document that commits nothing. */
  lemma {:induction false} DocMoveLeft(s: State, r: State, d: DocId, k: nat)
    requires DocMove(s, r, d) && !Cleared(Get(r, d)) && !Get(r, d).status.Done?
    ensures Left(s, r, k)
  {
    if PairParsed(r, k) {
      assert d != Order && d != Invoice(k);
      forall i | 0 <= i < |r.receipts| && r.receipts[i].status.Done?
        ensures i < |s.receipts| && s.receipts[i] == r.receipts[i]
      {
        assert Valid(r, Receipt(i)) && Get(r, Receipt(i)) == r.receipts[i];
        assert Valid(s, Receipt(i)) && Get(r, Receipt(i)) == Get(s, Receipt(i));
      }
      FewerDone(s.receipts, r.receipts);
      PairKept(s, r, d, k);
    }
  }

  lemma {:induction false} CommitLeft(s: State, d: DocId, k: nat)
    requires Basics(s) && CanCommit(s, d)
    ensures Left(s, Commit(s, d), k)
  {
    var r := Commit(s, d);
    CommitMove(s, d);
    if PairParsed(r, k) {
      if Feeds(d, k) { assert d in r.owed; }
      else {
        assert r.receipts == s.receipts;
        PairKept(s, r, d, k);
      }
    }
  }

  lemma {:induction false} EnqueueLeft(s: State, r: State, d: DocId, k: nat)
    requires Enqueues(s, r, d)
    ensures Left(s, r, k)
  {
    if PairParsed(s, k) {
      assert Version(r, k) == Version(s, k);
      if Feeds(d, k) {
        if !Defers(s.receipts) { assert Asked(r, Auto(k, Version(s, k))); }
      } else { EnqueueOther(s, r, d, k); }
    }
  }

  /** Enqueueing a document of another pair does not disturb this one. */
  lemma {:induction false} EnqueueOther(s: State, r: State, d: DocId, k: nat)
    requires Enqueues(s, r, d) && !Feeds(d, k) && PairParsed(s, k)
    ensures PairParsed(r, k) && (Covered(s, k) ==> Covered(r, k))
  {
    if Owed(s, k) {
      var x :| x in s.owed && Feeds(x, k);
      assert x in r.owed;
    } else if v: nat :| Version(s, k) <= v && Asked(s, Auto(k, v)) {
      assert Asked(r, Auto(k, v));
    }
  }

  lemma {:induction false} StampLeft(s: State, d: DocId, k: nat)
    requires CanStamp(s, d)
    ensures Left(s, Stamp(s, d), k)
  {
    var r := Stamp(s, d);
    if PairParsed(s, k) && Covered(s, k) {
      assert Version(r, k) == Version(s, k) && (Owed(s, k) ==> Owed(r, k));
      if v: nat :| Version(s, k) <= v && Asked(s, Auto(k, v)) { assert Asked(r, Auto(k, v)); }
    }
  }

  lemma {:induction false} StampBasics(s: State, d: DocId)
    requires Basics(s) && CanStamp(s, d)
    ensures Basics(Stamp(s, d))
  {
    var r := Stamp(s, d);
    assert forall x :: Valid(r, x) <==> Valid(s, x);
    forall x | x in r.stamps ensures StampOk(r, x, r.stamps[x]) {
      if x != d { assert StampOk(s, x, s.stamps[x]); }
    }
    forall j | j in r.jobs ensures JobOk(r, j, r.jobs[j]) { assert JobOk(s, j, s.jobs[j]); }
    assert forall j, run :: HasRow(r, j, run) ==> HasRow(s, j, run);
  }

  ghost predicate DocStep(step: Step) {
    step.DoUploadInvoice? || step.DoUploadReceipt? || step.DoBegin? || step.DoFail?
  }

  /** The document a step other than a commit changes. */
  ghost function DocOf(s: State, step: Step): DocId
    requires DocStep(step)
  {
    match step
    case DoUploadInvoice(_) => Invoice(|s.invoices|)
    case DoUploadReceipt(_) => Receipt(|s.receipts|)
    case DoBegin(d, _) => d
    case DoFail(d) => d
  }

  lemma {:induction false} DocStepMoves(s: State, step: Step)
    requires Basics(s) && Enabled(s, step) && DocStep(step)
    ensures DocMove(s, Apply(s, step), DocOf(s, step)) && !Get(Apply(s, step), DocOf(s, step)).status.Done?
  {
    match step
    case DoUploadInvoice(rr) => UploadMoves(s, rr);
    case DoUploadReceipt(rr) => UploadMoves(s, rr);
    case DoBegin(d, to) =>
      BeginMove(s, d, to);
      SetFrame(s, d, Get(s, d).(status := to, updatedAt := s.now + 1));
    case DoFail(d) =>
      FailMove(s, d);
      SetFrame(s, d, Get(s, d).(status := Failed, updatedAt := s.now + 1));
  }

  ghost predicate JobStep(step: Step) {
    || step.DoPress? || step.DoStart? || step.DoRead? || step.DoRefuse? || step.DoOpen? || step.DoSucceed?
    || step.DoFailJob? || step.DoSweep?
  }

  lemma {:induction false} JobStepMoves(s: State, step: Step)
    requires Basics(s) && Enabled(s, step) && JobStep(step)
    ensures JobMove(s, Apply(s, step)) && JobsAnswered(s, Apply(s, step))
  {
    match step
    case DoStart(j) => StartAnswers(s, j);
    case DoSucceed(j) => SucceedAnswers(s, j);
    case _ => OthersAnswer(s, step);
  }

  lemma {:induction false} StepBasics(s: State, step: Step)
    requires Basics(s) && Enabled(s, step)
    ensures Basics(Apply(s, step))
  {
    if JobStep(step) { JobStepMoves(s, step); JobMoveBasics(s, Apply(s, step)); }
    else if step.DoStamp? { StampBasics(s, step.d); }
    else if step.DoEnqueue? { EnqueueShape(s, step.d); EnqueueBasics(s, Apply(s, step), step.d); }
    else if step.DoCommit? { CommitMove(s, step.d); DocMoveBasics(s, Commit(s, step.d), step.d); }
    else { DocStepMoves(s, step); DocMoveBasics(s, Apply(s, step), DocOf(s, step)); }
  }

  lemma {:induction false} StepLeft(s: State, step: Step, k: nat)
    requires Basics(s) && Reviewed(s) && Enabled(s, step)
    ensures Left(s, Apply(s, step), k)
  {
    if JobStep(step) { JobStepMoves(s, step); JobMoveLeft(s, Apply(s, step), k); }
    else if step.DoStamp? { StampLeft(s, step.d, k); }
    else if step.DoEnqueue? { EnqueueShape(s, step.d); EnqueueLeft(s, Apply(s, step), step.d, k); }
    else if step.DoCommit? { CommitLeft(s, step.d, k); }
    else { DocStepMoves(s, step); DocMoveLeft(s, Apply(s, step), DocOf(s, step), k); }
  }

  // ----- nothing is lost

  lemma {:induction false} StepKeeps(s: State, step: Step)
    requires Basics(s) && Reviewed(s) && NothingLost(s) && Enabled(s, step)
    ensures Basics(Apply(s, step)) && Reviewed(Apply(s, step)) && NothingLost(Apply(s, step))
  {
    var r := Apply(s, step);
    StepBasics(s, step);
    StepReviewed(s, step);
    forall k | PairParsed(r, k) && k !in r.deferred ensures Covered(r, k) { StepLeft(s, step, k); }
  }

  /** From an order just uploaded, whatever happens: every parsed pair is covered or was held back. */
  lemma {:induction false} NoLostVerdict(s: State, steps: seq<Step>, last: State)
    requires Initial(s) && Trace(s, steps, last)
    ensures Basics(last) && Reviewed(last) && NothingLost(last)
  {
    assert forall d :: Valid(s, d) ==> d == Order;
    KeptAlong(s, steps, last);
  }

  lemma {:induction false} KeptAlong(s: State, steps: seq<Step>, last: State)
    requires Basics(s) && Reviewed(s) && NothingLost(s) && Trace(s, steps, last)
    ensures Basics(last) && Reviewed(last) && NothingLost(last)
    decreases |steps|
  {
    if steps != [] {
      StepKeeps(s, steps[0]);
      KeptAlong(Apply(s, steps[0]), steps[1..], last);
    }
  }

  // ----- when a verdict is lost

  /** The step is the failure of a receipt, and every other receipt is settled. */
  predicate LastUnsettledFails(s: State, step: Step) {
    && step.DoFail? && step.d.Receipt?
    && forall i :: 0 <= i < |s.receipts| && i != step.d.i ==> !Unsettled(s.receipts[i])
  }

  lemma {:induction false} FailDefers(s: State, i: nat)
    requires CanFail(s, Receipt(i))
    ensures Defers(Fail(s, Receipt(i)).receipts) <==> !LastUnsettledFails(s, DoFail(Receipt(i)))
  {
    var r := Fail(s, Receipt(i)).receipts;
    assert r == s.receipts[i := r[i]] && r[i].status.Failed?;
    if x: nat :| x < |s.receipts| && x != i && Unsettled(s.receipts[x]) { assert Unsettled(r[x]); }
  }

  lemma {:induction false} FailNewest(s: State, i: nat)
    requires CanFail(s, Receipt(i))
    ensures NewestDone(Fail(s, Receipt(i)).receipts) == NewestDone(s.receipts)
  {
    var r := Fail(s, Receipt(i)).receipts;
    assert r == s.receipts[i := r[i]] && r[i].status.Failed?;
    FewerDone(s.receipts, r);
    FewerDone(r, s.receipts);
  }

  /** The failure of a receipt changes nothing but what holds the pair back. */
  lemma {:induction false} FailOutcome(s: State, i: nat, k: nat)
    requires Basics(s) && CanFail(s, Receipt(i))
    ensures var r := Fail(s, Receipt(i));
      && (PairParsed(r, k) <==> PairParsed(s, k))
      && (Defers(r.receipts) <==> !LastUnsettledFails(s, DoFail(Receipt(i))))
      && (PairParsed(s, k) ==> (Covered(r, k) <==> Covered(s, k)))
  {
    FailDefers(s, i);
    FailNewest(s, i);
    if PairParsed(s, k) { SameCover(s, Fail(s, Receipt(i)), k); }
  }

  lemma {:induction false} SameCover(s: State, r: State, k: nat)
    requires k < |s.invoices| && r == s.(now := r.now, receipts := r.receipts, stamps := r.stamps)
    requires NewestDone(r.receipts) == NewestDone(s.receipts)
    ensures Covered(r, k) <==> Covered(s, k)
  {
    assert Version(r, k) == Version(s, k);
    assert forall v: nat :: Asked(r, Auto(k, v)) <==> Asked(s, Auto(k, v));
    assert Owed(r, k) <==> Owed(s, k);
  }

  /**
   * A verdict is lost by one step alone, from any reachable state: the last
   * unsettled receipt fails while the parsed pair is not covered. Then, and
   * only then; and the pair is one whose latest enqueue was held back.
   */
  lemma {:induction false} LostExactly(s0: State, steps: seq<Step>, s: State, step: Step, k: nat)
    requires Initial(s0) && Trace(s0, steps, s) && Enabled(s, step) && !Lost(s, k)
    ensures Lost(Apply(s, step), k) <==> LastUnsettledFails(s, step) && PairParsed(s, k) && !Covered(s, k)
    ensures Lost(Apply(s, step), k) ==> k in s.deferred
  {
    var r := Apply(s, step);
    NoLostVerdict(s0, steps, s);
    if step.DoFail? && step.d.Receipt? {
      FailOutcome(s, step.d.i, k);
    } else if Lost(r, k) {
      StepLeft(s, step, k);
      OnlyFailuresSettle(s, step, k);
    }
  }

  /** Receipts that stop holding a pair back by anything but a failure leave an enqueue due. */
  lemma {:induction false} OnlyFailuresSettle(s: State, step: Step, k: nat)
    requires Basics(s) && Enabled(s, step) && !(step.DoFail? && step.d.Receipt?)
    requires Defers(s.receipts) && PairParsed(Apply(s, step), k)
    ensures Defers(Apply(s, step).receipts) || Owed(Apply(s, step), k)
  {
    var r := Apply(s, step);
    var i :| 0 <= i < |s.receipts| && Unsettled(s.receipts[i]);
    if JobStep(step) { JobStepMoves(s, step); }
    else if step.DoEnqueue? { EnqueueShape(s, step.d); }
    else if step.DoCommit? {
      if step.d.Receipt? { assert step.d in r.owed && Feeds(step.d, k); }
    } else if step.DoBegin? {
      assert step.d == Receipt(i) ==> Unsettled(r.receipts[i]);
    }
    if r.receipts == s.receipts || (i < |r.receipts| && r.receipts[i] == s.receipts[i]) {
      assert Unsettled(r.receipts[i]);
    }
  }

  /** So a deferred pair that nothing else answers is lost when the last unsettled receipt fails. */
  lemma {:induction false} DeferredIsLost(s0: State, steps: seq<Step>, s: State, i: nat, k: nat)
    requires Initial(s0) && Trace(s0, steps, s) && CanFail(s, Receipt(i)) && LastUnsettledFails(s, DoFail(Receipt(i)))
    requires PairParsed(s, k) && !Owed(s, k) && !UpToDate(s, k) && forall v: nat :: !Asked(s, Auto(k, v))
    ensures Comparable(Fail(s, Receipt(i)), k) && !Covered(Fail(s, Receipt(i)), k)
  {
    NoLostVerdict(s0, steps, s);
    FailOutcome(s, i, k);
  }
}
