/** With jobs run one at a time, automation writes no more successful runs of a pair than its documents changed. */
module CompareGrowth {
  import opened Wrappers
  import opened CompareModel
  import opened CompareSafety

  /** Jobs of one pair run one at a time: a job starts only when no other automatic one is active. */
  ghost predicate Serial(s: State, step: Step) {
    step.DoStart? && step.j.Auto? ==> forall j :: Runs(s, j) ==> j.k != step.j.k
  }

  ghost predicate SerialTrace(s: State, steps: seq<Step>, last: State)
    decreases |steps|
  {
    if steps == [] then last == s
    else Enabled(s, steps[0]) && Serial(s, steps[0]) && SerialTrace(Apply(s, steps[0]), steps[1..], last)
  }

  // ----- the log of changes

  ghost predicate InLog(log: seq<Change>, k: nat, stamp: nat) {
    exists a :: 0 <= a < |log| && Feeds(log[a].d, k) && log[a].stamp == stamp
  }

  /** No two changes, committed or under way, share a stamp. */
  ghost predicate LogOk(s: State) {
    && (forall a :: 0 <= a < |s.log| ==> 0 < s.log[a].stamp <= s.now)
    && (forall a, b :: 0 <= a < b < |s.log| ==> s.log[a].stamp != s.log[b].stamp)
    && (forall d, a :: d in s.stamps && 0 <= a < |s.log| ==> s.stamps[d] != s.log[a].stamp)
    && (forall d :: d in s.stamps ==> s.stamps[d] > 0)
    && (forall d, e :: d in s.stamps && e in s.stamps && d != e ==> s.stamps[d] != s.stamps[e])
  }

  /** A parsed document carries the stamp of a logged change. */
  ghost predicate DoneLogged(s: State) {
    forall d, k :: Valid(s, d) && Get(s, d).status.Done? && Feeds(d, k) ==> InLog(s.log, k, Get(s, d).updatedAt)
  }

  // ----- runs and the jobs on their way to one

  ghost predicate Won(run: Run, k: nat) { run.k == k && run.auto && run.outcome.Succeeded? }

  ghost predicate CauseOk(s: State, run: Run) { run.cause < run.startedAt && InLog(s.log, run.k, run.cause) }

  ghost predicate CausesDiffer(runs: seq<Run>, k: nat) {
    forall i, j :: 0 <= i < j < |runs| && Won(runs[i], k) && Won(runs[j], k) ==> runs[i].cause != runs[j].cause
  }

  ghost predicate RunsOk(s: State) {
    && (forall i :: 0 <= i < |s.runs| && s.runs[i].auto ==> CauseOk(s, s.runs[i]))
    && (forall k :: CausesDiffer(s.runs, k))
  }

  /** Every automatic success so far started no later than `prev`. */
  ghost predicate Before(s: State, k: nat, prev: nat) {
    prev <= s.now && forall i :: 0 <= i < |s.runs| && Won(s.runs[i], k) ==> s.runs[i].startedAt <= prev
  }

  /** Something newer than `prev` has been committed, or a document must be committed before `compare` accepts it. */
  ghost predicate Awaited(s: State, k: nat, prev: nat)
    requires k < |s.invoices|
  {
    || LastChange(s.log, k) >= prev
    || (!s.order.status.Done? && s.order.updatedAt >= prev)
    || (!s.invoices[k].status.Done? && s.invoices[k].updatedAt >= prev)
  }

  ghost predicate JobReady(s: State, j: JobId, job: Job) {
    && j.k < |s.invoices|
    && match job.stage
       case Checked(prev) => Before(s, j.k, prev) && Awaited(s, j.k, prev)
       case HasRead(prev, _, _, cause) =>
         Before(s, j.k, prev) && prev <= cause <= s.now && InLog(s.log, j.k, cause)
       case Open(prev, run) =>
         Before(s, j.k, prev) && run < |s.runs| && s.runs[run].k == j.k && s.runs[run].auto && prev <= s.runs[run].cause
       case _ => true
  }

  ghost predicate ReadyOk(s: State) { forall j :: j in s.jobs && j.Auto? ==> JobReady(s, j, s.jobs[j]) }

  /** An automatic job that a worker holds. */
  ghost predicate Runs(s: State, j: JobId) { j in s.jobs && j.Auto? && Active(s.jobs[j].stage) }

  ghost predicate OneActive(s: State) {
    forall i, j :: Runs(s, i) && Runs(s, j) && i.k == j.k ==> i == j
  }

  ghost predicate Growth(s: State) {
    Basics(s) && LogOk(s) && DoneLogged(s) && RunsOk(s) && ReadyOk(s) && OneActive(s)
  }

  // ----- a longer log

  lemma {:induction false} InLogGrows(a: seq<Change>, b: seq<Change>, k: nat, stamp: nat)
    requires a <= b && InLog(a, k, stamp)
    ensures InLog(b, k, stamp)
  {
    var i :| 0 <= i < |a| && Feeds(a[i].d, k) && a[i].stamp == stamp;
    assert b[i] == a[i];
  }

  lemma {:induction false} LastChangeGrows(a: seq<Change>, b: seq<Change>, k: nat)
    requires a <= b
    ensures LastChange(a, k) <= LastChange(b, k)
  {
    var r := LastChange(a, k);
    if r > 0 {
      var i :| 0 <= i < |a| && Feeds(a[i].d, k) && a[i].stamp == r;
      assert b[i] == a[i];
    }
  }

  lemma {:induction false} LoggedIsPast(log: seq<Change>, k: nat, stamp: nat)
    requires InLog(log, k, stamp)
    ensures stamp <= LastChange(log, k)
  {
  }

  // ----- document steps

  /** The changed document, if parsed now, has its stamp in the log; if not, it is newer than everything. */
  ghost predicate Logged(s: State, r: State, d: DocId)
    requires DocMove(s, r, d)
  {
    && s.log <= r.log
    && (Get(r, d).status.Done? ==>
          d in s.stamps && Get(r, d).updatedAt == s.stamps[d] && r.log == s.log + [Change(d, s.stamps[d])])
    && (!Get(r, d).status.Done? ==> Get(r, d).updatedAt == r.now && r.log == s.log)
  }

  lemma {:induction false} DocMoveLog(s: State, r: State, d: DocId)
    requires Basics(s) && LogOk(s) && DocMove(s, r, d) && Logged(s, r, d)
    ensures LogOk(r)
  {
    if Get(r, d).status.Done? {
      assert StampOk(s, d, s.stamps[d]);
      LongerLog(s, r, d, s.stamps[d]);
    }
  }

  /** The stamp that is logged was under way, so it is in the log once and under way no more. */
  lemma {:induction false} LongerLog(s: State, r: State, d: DocId, stamp: nat)
    requires LogOk(s) && d in s.stamps && s.stamps[d] == stamp <= s.now <= r.now && r.log == s.log + [Change(d, stamp)]
    requires forall x :: x in r.stamps ==> x != d && x in s.stamps && r.stamps[x] == s.stamps[x]
    ensures LogOk(r)
  {
    var n := |s.log|;
    assert r.log[n] == Change(d, stamp) && forall a :: 0 <= a < n ==> r.log[a] == s.log[a];
    assert forall x :: x in r.stamps ==> r.stamps[x] != stamp;
  }

  lemma {:induction false} DocMoveDone(s: State, r: State, d: DocId)
    requires Basics(s) && DoneLogged(s) && DocMove(s, r, d) && Logged(s, r, d)
    ensures DoneLogged(r)
  {
    forall x, k | Valid(r, x) && Get(r, x).status.Done? && Feeds(x, k) ensures InLog(r.log, k, Get(r, x).updatedAt) {
      if x == d {
        assert r.log[|s.log|] == Change(d, s.stamps[d]);
      } else {
        assert InLog(s.log, k, Get(s, x).updatedAt);
        InLogGrows(s.log, r.log, k, Get(s, x).updatedAt);
      }
    }
  }

  lemma {:induction false} DocMoveAwaited(s: State, r: State, d: DocId, k: nat, prev: nat)
    requires Basics(s) && LogOk(s) && DocMove(s, r, d) && Logged(s, r, d)
    requires k < |s.invoices| && prev <= s.now && Awaited(s, k, prev)
    ensures Awaited(r, k, prev)
  {
    LastChangeGrows(s.log, r.log, k);
    assert Valid(s, Order) && Valid(s, Invoice(k)) && Valid(r, Order) && Valid(r, Invoice(k));
    assert d != Order ==> Get(r, Order) == Get(s, Order);
    assert d != Invoice(k) ==> Get(r, Invoice(k)) == Get(s, Invoice(k));
    if (d == Order || d == Invoice(k)) && Get(r, d).status.Done? {
      assert StampOk(s, d, s.stamps[d]);
      assert r.log[|s.log|] == Change(d, s.stamps[d]);
      assert InLog(r.log, k, s.stamps[d]);
      LoggedIsPast(r.log, k, s.stamps[d]);
    }
  }

  lemma {:induction false} DocMoveRuns(s: State, r: State, d: DocId)
    requires RunsOk(s) && DocMove(s, r, d) && Logged(s, r, d)
    ensures RunsOk(r)
  {
    forall i | 0 <= i < |r.runs| && r.runs[i].auto ensures CauseOk(r, r.runs[i]) {
      assert CauseOk(s, s.runs[i]);
      InLogGrows(s.log, r.log, s.runs[i].k, s.runs[i].cause);
    }
    forall k ensures CausesDiffer(r.runs, k) { assert CausesDiffer(s.runs, k); }
  }

  lemma {:induction false} DocMoveReady(s: State, r: State, d: DocId)
    requires Growth(s) && DocMove(s, r, d) && Logged(s, r, d)
    ensures ReadyOk(r)
  {
    forall j | j in r.jobs && j.Auto? ensures JobReady(r, j, r.jobs[j]) {
      assert JobReady(s, j, s.jobs[j]);
      match s.jobs[j].stage
      case Checked(prev) => DocMoveAwaited(s, r, d, j.k, prev);
      case HasRead(_, _, _, cause) => InLogGrows(s.log, r.log, j.k, cause);
      case _ =>
    }
  }

  lemma {:induction false} DocMoveGrowth(s: State, r: State, d: DocId)
    requires Growth(s) && Basics(r) && DocMove(s, r, d) && Logged(s, r, d)
    ensures Growth(r)
  {
    DocMoveLog(s, r, d);
    DocMoveDone(s, r, d);
    DocMoveRuns(s, r, d);
    DocMoveReady(s, r, d);
  }

  lemma {:induction false} DocStepLogged(s: State, step: Step)
    requires Basics(s) && Enabled(s, step) && DocStep(step)
    ensures DocMove(s, Apply(s, step), DocOf(s, step)) && Logged(s, Apply(s, step), DocOf(s, step))
  {
    DocStepMoves(s, step);
    match step
    case DoBegin(d, to) => SetFrame(s, d, Get(s, d).(status := to, updatedAt := s.now + 1));
    case DoFail(d) => SetFrame(s, d, Get(s, d).(status := Failed, updatedAt := s.now + 1));
    case _ =>
  }

  lemma {:induction false} DocStepGrowth(s: State, step: Step)
    requires Growth(s) && Enabled(s, step) && DocStep(step)
    ensures Growth(Apply(s, step))
  {
    StepBasics(s, step);
    DocStepLogged(s, step);
    DocMoveGrowth(s, Apply(s, step), DocOf(s, step));
  }

  lemma {:induction false} CommitGrowth(s: State, d: DocId)
    requires Growth(s) && CanCommit(s, d)
    ensures Growth(Commit(s, d))
  {
    StepBasics(s, DoCommit(d));
    CommitMove(s, d);
    SetFrame(s, d, Committed(s, d));
    DocMoveGrowth(s, Commit(s, d), d);
  }

  // ----- steps that leave documents and runs alone

  lemma {:induction false} ReadySame(s: State, r: State, j: JobId)
    requires j in s.jobs && j.k < |s.invoices| && JobReady(s, j, s.jobs[j])
    requires s.now <= r.now && r.log == s.log && r.runs == s.runs && r.order == s.order && r.invoices == s.invoices
    ensures JobReady(r, j, s.jobs[j])
  {
  }

  lemma {:induction false} StampGrowth(s: State, d: DocId)
    requires Growth(s) && CanStamp(s, d) && Basics(Stamp(s, d))
    ensures Growth(Stamp(s, d))
  {
    var r := Stamp(s, d);
    StampsDistinct(s, d);
    DoneLoggedSame(s, r);
    forall i | 0 <= i < |r.runs| && r.runs[i].auto ensures CauseOk(r, r.runs[i]) { assert CauseOk(s, s.runs[i]); }
    forall j | j in r.jobs && j.Auto? ensures JobReady(r, j, r.jobs[j]) { ReadySame(s, r, j); }
    assert forall j :: Runs(r, j) ==> Runs(s, j);
  }

  lemma {:induction false} StampsDistinct(s: State, d: DocId)
    requires Basics(s) && LogOk(s) && CanStamp(s, d)
    ensures LogOk(Stamp(s, d))
  {
    assert forall e :: e in s.stamps ==> StampOk(s, e, s.stamps[e]) && s.stamps[e] <= s.now;
  }

  lemma {:induction false} DoneLoggedSame(s: State, r: State)
    requires DoneLogged(s) && SameDocs(s, r) && r.log == s.log
    ensures DoneLogged(r)
  {
    assert forall d :: Valid(r, d) <==> Valid(s, d);
    assert forall d :: Valid(s, d) ==> Get(r, d) == Get(s, d);
  }

  lemma {:induction false} EnqueueGrowth(s: State, r: State, d: DocId)
    requires Growth(s) && Enqueues(s, r, d) && Basics(r)
    ensures Growth(r)
  {
    DoneLoggedSame(s, r);
    forall i | 0 <= i < |r.runs| && r.runs[i].auto ensures CauseOk(r, r.runs[i]) { assert CauseOk(s, s.runs[i]); }
    EnqueueReady(s, r, d);
    assert forall j :: j in r.jobs && j !in s.jobs ==> NewJob(s, r, d, j);
    FewerActive(s, r);
  }

  lemma {:induction false} EnqueueReady(s: State, r: State, d: DocId)
    requires ReadyOk(s) && Basics(s) && Basics(r) && Enqueues(s, r, d)
    ensures ReadyOk(r)
  {
    forall j | j in r.jobs && j.Auto? ensures JobReady(r, j, r.jobs[j]) {
      assert JobOk(r, j, r.jobs[j]);
      if j in s.jobs { ReadySame(s, r, j); } else { assert NewJob(s, r, d, j); }
    }
  }

  // ----- job steps

  ghost predicate NoNewWins(s: State, r: State) {
    forall i, k :: 0 <= i < |r.runs| && Won(r.runs[i], k) ==> i < |s.runs| && Won(s.runs[i], k)
  }

  ghost predicate NewRunsOk(s: State, r: State) {
    forall i :: |s.runs| <= i < |r.runs| && r.runs[i].auto ==> CauseOk(r, r.runs[i])
  }

  /** Each automatic job stands where it stood, or is ready where it now stands. */
  ghost predicate JobsReady(s: State, r: State) {
    forall j :: j in r.jobs && j.Auto? ==>
         (j in s.jobs && r.jobs[j].stage == s.jobs[j].stage) || JobReady(r, j, r.jobs[j])
  }

  lemma {:induction false} CausesKept(s: State, r: State)
    requires RunsOk(s) && JobMove(s, r) && NewRunsOk(s, r)
    ensures forall i :: 0 <= i < |r.runs| && r.runs[i].auto ==> CauseOk(r, r.runs[i])
  {
    forall i | 0 <= i < |s.runs| && r.runs[i].auto ensures CauseOk(r, r.runs[i]) {
      assert r.runs[i] == s.runs[i].(outcome := r.runs[i].outcome);
      assert CauseOk(s, s.runs[i]);
    }
  }

  lemma {:induction false} NoWinsRuns(s: State, r: State)
    requires RunsOk(s) && JobMove(s, r) && NoNewWins(s, r) && NewRunsOk(s, r)
    ensures RunsOk(r)
  {
    CausesKept(s, r);
    forall k, i, j | 0 <= i < j < |r.runs| && Won(r.runs[i], k) && Won(r.runs[j], k)
      ensures r.runs[i].cause != r.runs[j].cause
    {
      assert CausesDiffer(s.runs, k);
      assert r.runs[i] == s.runs[i].(outcome := r.runs[i].outcome);
      assert r.runs[j] == s.runs[j].(outcome := r.runs[j].outcome);
    }
  }

  lemma {:induction false} BeforeKept(s: State, r: State, k: nat, prev: nat)
    requires JobMove(s, r) && NoNewWins(s, r) && Before(s, k, prev)
    ensures Before(r, k, prev)
  {
    forall i | 0 <= i < |r.runs| && Won(r.runs[i], k) ensures r.runs[i].startedAt <= prev {
      assert Won(s.runs[i], k);
      assert r.runs[i] == s.runs[i].(outcome := r.runs[i].outcome);
    }
  }

  lemma {:induction false} NoWinsReady(s: State, r: State)
    requires ReadyOk(s) && JobMove(s, r) && NoNewWins(s, r) && JobsReady(s, r)
    ensures ReadyOk(r)
  {
    forall j | j in r.jobs && j.Auto? ensures JobReady(r, j, r.jobs[j]) {
      if j in s.jobs && r.jobs[j].stage == s.jobs[j].stage {
        StageKept(s, r, j);
      }
    }
  }

  lemma {:induction false} StageKept(s: State, r: State, j: JobId)
    requires JobMove(s, r) && NoNewWins(s, r) && j in s.jobs && j in r.jobs && r.jobs[j].stage == s.jobs[j].stage
    requires JobReady(s, j, s.jobs[j])
    ensures JobReady(r, j, r.jobs[j])
  {
    match s.jobs[j].stage
    case Checked(prev) => BeforeKept(s, r, j.k, prev);
    case HasRead(prev, _, _, _) => BeforeKept(s, r, j.k, prev);
    case Open(prev, run) =>
      BeforeKept(s, r, j.k, prev);
      assert r.runs[run] == s.runs[run].(outcome := r.runs[run].outcome);
    case _ =>
  }

  lemma {:induction false} QuietGrowth(s: State, r: State)
    requires Growth(s) && Basics(r) && JobMove(s, r) && NoNewWins(s, r) && NewRunsOk(s, r) && JobsReady(s, r)
    requires OneActive(r)
    ensures Growth(r)
  {
    DoneLoggedSame(s, r);
    NoWinsRuns(s, r);
    NoWinsReady(s, r);
  }

  lemma {:induction false} FewerActive(s: State, r: State)
    requires OneActive(s) && forall j :: Runs(r, j) ==> Runs(s, j)
    ensures OneActive(r)
  {
  }

  lemma {:induction false} StartIsAwaited(s: State, k: nat)
    requires Basics(s) && DoneLogged(s) && k < |s.invoices| && !UpToDate(s, k)
    ensures var latest := LatestStart(s.runs, k);
      var prev := if latest.Some? then latest.value else 0;
      Before(s, k, prev) && Awaited(s, k, prev)
  {
    var latest := LatestStart(s.runs, k);
    if latest.Some? {
      var i :| 0 <= i < |s.runs|
        && s.runs[i].k == k && s.runs[i].outcome.Succeeded? && s.runs[i].startedAt == latest.value;
      NewestIsLogged(s, k, latest.value);
    }
  }

  lemma {:induction false} NewestIsLogged(s: State, k: nat, prev: nat)
    requires Basics(s) && DoneLogged(s) && k < |s.invoices| && Version(s, k) >= prev
    ensures Awaited(s, k, prev)
  {
    DoneIsPast(s, Order, k);
    DoneIsPast(s, Invoice(k), k);
    var n := NewestDone(s.receipts);
    if n > 0 {
      var i :| 0 <= i < |s.receipts| && s.receipts[i].status.Done? && s.receipts[i].updatedAt == n;
      DoneIsPast(s, Receipt(i), k);
    }
  }

  lemma {:induction false} DoneIsPast(s: State, d: DocId, k: nat)
    requires DoneLogged(s) && Valid(s, d) && Feeds(d, k)
    ensures Get(s, d).status.Done? ==> Get(s, d).updatedAt <= LastChange(s.log, k)
  {
    if Get(s, d).status.Done? { LoggedIsPast(s.log, k, Get(s, d).updatedAt); }
  }

  lemma {:induction false} StartReady(s: State, j: JobId)
    requires Growth(s) && CanStart(s, j)
    ensures JobsReady(s, Start(s, j)) && NoNewWins(s, Start(s, j)) && NewRunsOk(s, Start(s, j))
  {
    if !UpToDate(s, j.k) { StartIsAwaited(s, j.k); }
  }

  lemma {:induction false} StartAlone(s: State, j: JobId)
    requires OneActive(s) && CanStart(s, j) && Serial(s, DoStart(j))
    ensures OneActive(Start(s, j))
  {
    assert forall i :: Runs(Start(s, j), i) && i != j ==> Runs(s, i);
  }

  lemma {:induction false} StartGrowth(s: State, j: JobId)
    requires Growth(s) && CanStart(s, j) && Serial(s, DoStart(j)) && Basics(Start(s, j))
    ensures Growth(Start(s, j))
  {
    StartMove(s, j);
    StartReady(s, j);
    StartAlone(s, j);
    QuietGrowth(s, Start(s, j));
  }

  lemma {:induction false} ReadReady(s: State, j: JobId)
    requires Growth(s) && CanRead(s, j) && JobMove(s, Read(s, j))
    ensures JobsReady(s, Read(s, j)) && NoNewWins(s, Read(s, j)) && NewRunsOk(s, Read(s, j))
  {
    if j.Auto? {
      assert JobReady(s, j, s.jobs[j]);
      CauseLogged(s, j.k);
      LastChangeInTime(s, j.k);
    }
  }

  lemma {:induction false} ReadGrowth(s: State, j: JobId)
    requires Growth(s) && CanRead(s, j) && Basics(Read(s, j))
    ensures Growth(Read(s, j))
  {
    ReadMove(s, j);
    ReadReady(s, j);
    FewerActive(s, Read(s, j));
    QuietGrowth(s, Read(s, j));
  }

  lemma {:induction false} LastChangeInTime(s: State, k: nat)
    requires LogOk(s)
    ensures LastChange(s.log, k) <= s.now
  {
    var r := LastChange(s.log, k);
    if r > 0 {
      var i :| 0 <= i < |s.log| && Feeds(s.log[i].d, k) && s.log[i].stamp == r;
    }
  }

  lemma {:induction false} CauseLogged(s: State, k: nat)
    requires LogOk(s) && DoneLogged(s) && Accepts(s, k)
    ensures InLog(s.log, k, LastChange(s.log, k))
  {
    assert Valid(s, Order) && InLog(s.log, k, Get(s, Order).updatedAt);
    var i :| 0 <= i < |s.log| && Feeds(s.log[i].d, k) && s.log[i].stamp == Get(s, Order).updatedAt;
    assert s.log[i].stamp > 0;
  }

  lemma {:induction false} OpenGrowth(s: State, j: JobId)
    requires Growth(s) && CanOpen(s, j) && Basics(OpenRow(s, j))
    ensures Growth(OpenRow(s, j))
  {
    var r := OpenRow(s, j);
    OpenMove(s, j);
    if j.Auto? {
      assert JobReady(s, j, s.jobs[j]);
      BeforeKept(s, r, j.k, s.jobs[j].stage.prev);
    }
    FewerActive(s, r);
    QuietGrowth(s, r);
  }

  lemma {:induction false} OthersGrow(s: State, step: Step)
    requires Growth(s) && Enabled(s, step) && Basics(Apply(s, step))
    requires step.DoPress? || step.DoRefuse? || step.DoFailJob? || step.DoSweep?
    ensures Growth(Apply(s, step))
  {
    var r := Apply(s, step);
    match step {
      case DoPress(k, ticket) => PressMove(s, k, ticket);
      case DoRefuse(j) => RefuseMove(s, j);
      case DoFailJob(j, closeRun) => FailJobMove(s, j, closeRun); FailJobQuiet(s, j, closeRun);
      case DoSweep(run) => SweepMove(s, run);
      case _ =>
    }
    FewerActive(s, r);
    QuietGrowth(s, r);
  }

  lemma {:induction false} FailJobQuiet(s: State, j: JobId, closeRun: bool)
    requires Growth(s) && CanFailJob(s, j, closeRun)
    ensures NoNewWins(s, FailJob(s, j, closeRun)) && JobsReady(s, FailJob(s, j, closeRun))
    ensures forall i :: Runs(FailJob(s, j, closeRun), i) ==> Runs(s, i)
  {
  }

  // ----- a success

  lemma {:induction false} SucceedRuns(s: State, j: JobId)
    requires Growth(s) && CanSucceed(s, j)
    ensures RunsOk(Succeed(s, j))
  {
    var r, w := Succeed(s, j), s.jobs[j].stage.run;
    SucceedMove(s, j);
    CausesKept(s, r);
    assert JobOk(s, j, s.jobs[j]);
    forall k ensures CausesDiffer(r.runs, k) {
      assert CausesDiffer(s.runs, k);
      if j.Auto? && k == j.k { NewCause(s, j); }
    }
  }

  /** The job was started because of a change that no earlier success had seen. */
  lemma {:induction false} NewCause(s: State, j: JobId)
    requires Growth(s) && CanSucceed(s, j) && j.Auto?
    ensures !Won(s.runs[s.jobs[j].stage.run], j.k)
    ensures forall i :: 0 <= i < |s.runs| && Won(s.runs[i], j.k) ==> s.runs[i].cause < s.runs[s.jobs[j].stage.run].cause
  {
    assert JobReady(s, j, s.jobs[j]) && JobOk(s, j, s.jobs[j]);
    forall i | 0 <= i < |s.runs| && Won(s.runs[i], j.k)
      ensures s.runs[i].cause < s.runs[s.jobs[j].stage.run].cause
    {
      assert CauseOk(s, s.runs[i]);
    }
  }

  lemma {:induction false} SucceedReady(s: State, j: JobId)
    requires Growth(s) && CanSucceed(s, j)
    ensures ReadyOk(Succeed(s, j))
  {
    var r := Succeed(s, j);
    SucceedMove(s, j);
    assert JobOk(s, j, s.jobs[j]);
    if j.Manual? {
      assert NoNewWins(s, r);
      NoWinsReady(s, r);
    } else {
      forall i | i in r.jobs && i.Auto? ensures JobReady(r, i, r.jobs[i]) {
        assert JobReady(s, i, s.jobs[i]);
        assert Runs(s, j);
        if Runs(s, i) { OtherPairReady(s, j, i); }
      }
    }
  }

  lemma {:induction false} OtherPairReady(s: State, j: JobId, i: JobId)
    requires Basics(s) && CanSucceed(s, j) && i in s.jobs && i != j && i.k != j.k && JobReady(s, i, s.jobs[i])
    ensures JobReady(Succeed(s, j), i, s.jobs[i])
  {
    assert JobOk(s, j, s.jobs[j]);
  }

  lemma {:induction false} SucceedGrowth(s: State, j: JobId)
    requires Growth(s) && CanSucceed(s, j) && Basics(Succeed(s, j))
    ensures Growth(Succeed(s, j))
  {
    DoneLoggedSame(s, Succeed(s, j));
    SucceedRuns(s, j);
    SucceedReady(s, j);
    FewerActive(s, Succeed(s, j));
  }

  lemma {:induction false} JobStepGrowth(s: State, step: Step)
    requires Growth(s) && Enabled(s, step) && JobStep(step) && Serial(s, step) && Basics(Apply(s, step))
    ensures Growth(Apply(s, step))
  {
    match step
    case DoStart(j) => StartGrowth(s, j);
    case DoRead(j) => ReadGrowth(s, j);
    case DoOpen(j) => OpenGrowth(s, j);
    case DoSucceed(j) => SucceedGrowth(s, j);
    case _ => OthersGrow(s, step);
  }

  lemma {:induction false} StepGrowth(s: State, step: Step)
    requires Growth(s) && Enabled(s, step) && Serial(s, step)
    ensures Growth(Apply(s, step))
  {
    StepBasics(s, step);
    if JobStep(step) { JobStepGrowth(s, step); }
    else if step.DoStamp? { StampGrowth(s, step.d); }
    else if step.DoEnqueue? { EnqueueShape(s, step.d); EnqueueGrowth(s, Apply(s, step), step.d); }
    else if step.DoCommit? { CommitGrowth(s, step.d); }
    else { DocStepGrowth(s, step); }
  }

  lemma {:induction false} GrowthAlong(s: State, steps: seq<Step>, last: State)
    requires Growth(s) && SerialTrace(s, steps, last)
    ensures Growth(last)
    decreases |steps|
  {
    if steps != [] {
      StepGrowth(s, steps[0]);
      GrowthAlong(Apply(s, steps[0]), steps[1..], last);
    }
  }

  // ----- counting

  /** Automatic runs of the pair that succeeded. */
  function Wins(runs: seq<Run>, k: nat): nat {
    if runs == [] then 0
    else
      var last := runs[|runs| - 1];
      Wins(runs[..|runs| - 1], k) + if last.k == k && last.auto && last.outcome.Succeeded? then 1 else 0
  }

  /** Committed changes of the documents that feed the pair. */
  function Changes(log: seq<Change>, k: nat): nat {
    if log == [] then 0
    else Changes(log[..|log| - 1], k) + if Feeds(log[|log| - 1].d, k) then 1 else 0
  }

  ghost function Causes(runs: seq<Run>, k: nat): set<nat> {
    set i | 0 <= i < |runs| && Won(runs[i], k) :: runs[i].cause
  }

  ghost function Stamps(log: seq<Change>, k: nat): set<nat> {
    set a | 0 <= a < |log| && Feeds(log[a].d, k) :: log[a].stamp
  }

  lemma {:induction false} CausesOfLast(runs: seq<Run>, last: Run, k: nat)
    ensures Causes(runs + [last], k) == Causes(runs, k) + if Won(last, k) then {last.cause} else {}
  {
    var all, n := runs + [last], |runs|;
    forall c | c in Causes(all, k) ensures c in Causes(runs, k) || (Won(last, k) && c == last.cause) {
      var i :| 0 <= i < |all| && Won(all[i], k) && all[i].cause == c;
      assert i < n ==> runs[i] == all[i];
    }
    forall c | c in Causes(runs, k) ensures c in Causes(all, k) {
      var i :| 0 <= i < n && Won(runs[i], k) && runs[i].cause == c;
      assert all[i] == runs[i];
    }
    assert all[n] == last;
  }

  lemma {:induction false} NewCauseOfLast(runs: seq<Run>, last: Run, k: nat)
    requires CausesDiffer(runs + [last], k)
    ensures CausesDiffer(runs, k) && (Won(last, k) ==> last.cause !in Causes(runs, k))
  {
    var all, n := runs + [last], |runs|;
    assert all[n] == last && forall i :: 0 <= i < n ==> all[i] == runs[i];
  }

  lemma {:induction false} WinsAreCauses(runs: seq<Run>, k: nat)
    requires CausesDiffer(runs, k)
    ensures |Causes(runs, k)| == Wins(runs, k)
  {
    if runs != [] {
      var rest, last := runs[..|runs| - 1], runs[|runs| - 1];
      assert rest + [last] == runs;
      NewCauseOfLast(rest, last, k);
      WinsAreCauses(rest, k);
      CausesOfLast(rest, last, k);
    }
  }

  lemma {:induction false} StampsOfLast(log: seq<Change>, last: Change, k: nat)
    ensures Stamps(log + [last], k) == Stamps(log, k) + if Feeds(last.d, k) then {last.stamp} else {}
  {
    var all, n := log + [last], |log|;
    forall x | x in Stamps(all, k) ensures x in Stamps(log, k) || (Feeds(last.d, k) && x == last.stamp) {
      var a :| 0 <= a < |all| && Feeds(all[a].d, k) && all[a].stamp == x;
      assert a < n ==> log[a] == all[a];
    }
    forall x | x in Stamps(log, k) ensures x in Stamps(all, k) {
      var a :| 0 <= a < n && Feeds(log[a].d, k) && log[a].stamp == x;
      assert all[a] == log[a];
    }
    assert all[n] == last;
  }

  lemma {:induction false} StampsAreChanges(log: seq<Change>, k: nat)
    ensures |Stamps(log, k)| <= Changes(log, k)
  {
    if log != [] {
      var rest, last := log[..|log| - 1], log[|log| - 1];
      assert rest + [last] == log;
      StampsAreChanges(rest, k);
      StampsOfLast(rest, last, k);
    }
  }

  lemma {:induction false} SubsetSmaller(a: set<nat>, b: set<nat>)
    requires a <= b
    ensures |a| <= |b|
  {
    assert b == a + (b - a);
  }

  /**
   * With the jobs of a pair run one at a time, automatic successes of the pair
   * never outnumber the committed changes of its documents.
   */
  lemma {:induction false} WinsNeverOutnumberChanges(s: State, steps: seq<Step>, last: State, k: nat)
    requires Initial(s) && SerialTrace(s, steps, last)
    ensures Wins(last.runs, k) <= Changes(last.log, k)
  {
    assert forall d :: Valid(s, d) ==> d == Order;
    assert DoneLogged(s) && Growth(s);
    GrowthAlong(s, steps, last);
    assert CausesDiffer(last.runs, k);
    WinsAreCauses(last.runs, k);
    StampsAreChanges(last.log, k);
    forall c | c in Causes(last.runs, k) ensures c in Stamps(last.log, k) {
      var i :| 0 <= i < |last.runs| && Won(last.runs[i], k) && last.runs[i].cause == c;
      assert CauseOk(last, last.runs[i]);
    }
    SubsetSmaller(Causes(last.runs, k), Stamps(last.log, k));
  }
}
