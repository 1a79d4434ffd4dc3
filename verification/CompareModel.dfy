/**
 * Automatic comparison of one purchase order with its invoices and receipts:
 * the documents, the queue with its version-stamped job ids, the runs, and the
 * atomic steps that interleave. Orders do not share documents, jobs or runs,
 * so one order with everything linked to it is the whole story.
 */
module CompareModel {
  import opened Wrappers

  datatype Status = Pending | Processing | Done | Failed

  /** `committedAt` tells which version of the lines the document holds. */
  datatype Doc = Doc(status: Status, updatedAt: nat, reviewRequired: bool, reviewedAt: Option<nat>, committedAt: nat)

  datatype DocId = Order | Invoice(k: nat) | Receipt(i: nat)

  /** `Auto` ids name the pair and its input version; `Manual` is the Compare button. */
  datatype JobId = Auto(k: nat, version: nat) | Manual(k: nat, ticket: nat)

  /**
   * Where a job stands: delayed or waiting; past the freshness check, which saw
   * `prev` as the latest succeeded start; past the reads; with a run row open;
   * or failed for good, which keeps the job and its id.
   */
  datatype Stage =
    | Waiting
    | Checked(prev: nat)
    | HasRead(prev: nat, read: map<DocId, nat>, readAt: nat, cause: nat)
    | Open(prev: nat, run: nat)
    | Kept

  /** `created` and `inputs` record when the job was added and what its inputs were then. */
  datatype Job = Job(stage: Stage, retries: nat, created: nat, inputs: map<DocId, nat>)

  datatype Outcome = Running | Succeeded | Failure

  /**
   * `read` and `readAt` record what the run read and when; `cause` is the
   * newest change to the pair's documents committed by then.
   */
  datatype Run = Run(
    k: nat, auto: bool, outcome: Outcome, startedAt: nat, read: map<DocId, nat>, readAt: nat, cause: nat)

  /** A committed change of a document, by its `updated_at`. */
  datatype Change = Change(d: DocId, stamp: nat)

  /**
   * `stamps`: writes whose `updated_at` is taken and whose commit is to come.
   * `owed`: committed changes whose enqueue call is to come.
   * The last three fields are bookkeeping for the statements: jobs whose pair
   * `compare` refused although its documents were ready, parsed pairs whose latest enqueue was held back by a
   * receipt, and the committed changes in order.
   */
  datatype State = State(
    now: nat,
    order: Doc,
    invoices: seq<Doc>,
    receipts: seq<Doc>,
    stamps: map<DocId, nat>,
    owed: set<DocId>,
    jobs: map<JobId, Job>,
    runs: seq<Run>,
    abandoned: set<JobId>,
    deferred: set<nat>,
    log: seq<Change>)

  // ----- documents

  predicate Valid(s: State, d: DocId) {
    match d
    case Order => true
    case Invoice(k) => k < |s.invoices|
    case Receipt(i) => i < |s.receipts|
  }

  function Get(s: State, d: DocId): Doc
    requires Valid(s, d)
  {
    match d
    case Order => s.order
    case Invoice(k) => s.invoices[k]
    case Receipt(i) => s.receipts[i]
  }

  function Set(s: State, d: DocId, doc: Doc): State
    requires Valid(s, d)
  {
    match d
    case Order => s.(order := doc)
    case Invoice(k) => s.(invoices := s.invoices[k := doc])
    case Receipt(i) => s.(receipts := s.receipts[i := doc])
  }

  predicate ReviewPending(doc: Doc) { doc.reviewRequired && doc.reviewedAt.None? }

  /** Parsed, and confirmed by a reviewer where that is needed. */
  predicate Cleared(doc: Doc) { doc.status.Done? && !ReviewPending(doc) }

  /** A receipt that holds the pair back: its own completion or review will enqueue. */
  predicate Unsettled(doc: Doc) {
    doc.status.Pending? || doc.status.Processing? || (doc.status.Done? && ReviewPending(doc))
  }

  /** `defer` of the receipts' state. */
  predicate Defers(receipts: seq<Doc>) {
    exists i :: 0 <= i < |receipts| && Unsettled(receipts[i])
  }

  function Max(a: nat, b: nat): nat { if a >= b then a else b }

  /** `versionMs` of the receipts' state: the newest `done` one, 0 when there is none. */
  function NewestDone(receipts: seq<Doc>): (r: nat)
    ensures forall i :: 0 <= i < |receipts| && receipts[i].status.Done? ==> receipts[i].updatedAt <= r
    ensures r == 0 || exists i :: 0 <= i < |receipts| && receipts[i].status.Done? && receipts[i].updatedAt == r
  {
    if receipts == [] then 0
    else
      var last := receipts[|receipts| - 1];
      var rest := NewestDone(receipts[..|receipts| - 1]);
      if last.status.Done? then Max(rest, last.updatedAt) else rest
  }

  /** The input version of a pair, and the newest input the freshness check looks at. */
  function Version(s: State, k: nat): nat
    requires k < |s.invoices|
  {
    Max(Max(s.order.updatedAt, s.invoices[k].updatedAt), NewestDone(s.receipts))
  }

  /** Order and invoice are parsed; only a receipt can hold the pair back. */
  predicate PairParsed(s: State, k: nat) { k < |s.invoices| && Cleared(s.order) && Cleared(s.invoices[k]) }

  predicate Comparable(s: State, k: nat) { PairParsed(s, k) && !Defers(s.receipts) }

  // ----- what enqueueing a document resolves to

  datatype Pair = Pair(k: nat, version: nat)

  function PairsForOrder(s: State): seq<Pair> {
    if !Cleared(s.order) || Defers(s.receipts) then [] else LinkedPairs(s, 0)
  }

  function LinkedPairs(s: State, from: nat): (r: seq<Pair>)
    requires from <= |s.invoices|
    ensures forall j :: 0 <= j < |r| ==> from <= r[j].k < |s.invoices| && Cleared(s.invoices[r[j].k])
    ensures forall j :: 0 <= j < |r| ==> r[j].version == Version(s, r[j].k)
    ensures forall k :: from <= k < |s.invoices| && Cleared(s.invoices[k]) ==> Pair(k, Version(s, k)) in r
    decreases |s.invoices| - from
  {
    if from == |s.invoices| then []
    else if Cleared(s.invoices[from]) then [Pair(from, Version(s, from))] + LinkedPairs(s, from + 1)
    else LinkedPairs(s, from + 1)
  }

  function PairsFor(s: State, d: DocId): seq<Pair>
    requires Valid(s, d)
  {
    match d
    case Order => PairsForOrder(s)
    case Invoice(k) =>
      if !Cleared(s.invoices[k]) then []
      else if !Cleared(s.order) then []
      else if Defers(s.receipts) then []
      else [Pair(k, Version(s, k))]
    case Receipt(_) => PairsForOrder(s)
  }

  predicate Feeds(d: DocId, k: nat) { d.Order? || d == Invoice(k) || d.Receipt? }

  /** The three branches resolve to one thing: the comparable pairs the document feeds, each once. */
  lemma {:induction false} PairsForExactly(s: State, d: DocId, k: nat, v: nat)
    requires Valid(s, d)
    ensures Pair(k, v) in PairsFor(s, d) <==> Comparable(s, k) && Feeds(d, k) && v == Version(s, k)
  {
  }

  // ----- inputs of a comparison

  /** The parsed receipts, each with the version of its lines. */
  function ReceiptInputs(receipts: seq<Doc>): (r: map<DocId, nat>)
    ensures forall d :: d in r <==> d.Receipt? && d.i < |receipts| && receipts[d.i].status.Done?
    ensures forall d :: d in r ==> r[d] == receipts[d.i].committedAt
  {
    if receipts == [] then map[]
    else
      var n := |receipts| - 1;
      var rest := ReceiptInputs(receipts[..n]);
      if receipts[n].status.Done? then rest[Receipt(n) := receipts[n].committedAt] else rest
  }

  /** The documents `compare` reads, each with the version of its lines: only `done` ones. */
  function Inputs(s: State, k: nat): (r: map<DocId, nat>)
    ensures forall d :: d in r <==> Feeds(d, k) && Valid(s, d) && Get(s, d).status.Done?
    ensures forall d :: d in r ==> r[d] == Get(s, d).committedAt
  {
    var receipts := ReceiptInputs(s.receipts);
    var order := if s.order.status.Done? then receipts[Order := s.order.committedAt] else receipts;
    if k < |s.invoices| && s.invoices[k].status.Done? then order[Invoice(k) := s.invoices[k].committedAt] else order
  }

  /** `compare` refuses anything else with a 400 or a 404 before it opens a run. */
  predicate Accepts(s: State, k: nat) {
    && k < |s.invoices|
    && Cleared(s.order)
    && Cleared(s.invoices[k])
    && forall i :: 0 <= i < |s.receipts| && s.receipts[i].status.Done? ==> !ReviewPending(s.receipts[i])
  }

  // ----- the freshness check

  function LatestStart(runs: seq<Run>, k: nat): (r: Option<nat>)
    ensures forall j :: 0 <= j < |runs| && runs[j].k == k && runs[j].outcome.Succeeded? ==>
      r.Some? && runs[j].startedAt <= r.value
    ensures r.Some? ==>
      exists j :: 0 <= j < |runs| && runs[j].k == k && runs[j].outcome.Succeeded? && runs[j].startedAt == r.value
  {
    if runs == [] then None
    else
      var last := runs[|runs| - 1];
      var rest := LatestStart(runs[..|runs| - 1], k);
      if last.k != k || !last.outcome.Succeeded? then rest
      else if rest.Some? && rest.value > last.startedAt then rest
      else Some(last.startedAt)
  }

  /** `isUpToDate`: the latest succeeded run started after every input's `updated_at`. */
  predicate UpToDate(s: State, k: nat) {
    && k < |s.invoices|
    && var latest := LatestStart(s.runs, k);
       latest.Some? && latest.value > Version(s, k)
  }

  /** The newest committed change of a document that feeds the pair. */
  function LastChange(log: seq<Change>, k: nat): (r: nat)
    ensures forall j :: 0 <= j < |log| && Feeds(log[j].d, k) ==> log[j].stamp <= r
    ensures r == 0 || exists j :: 0 <= j < |log| && Feeds(log[j].d, k) && log[j].stamp == r
  {
    if log == [] then 0
    else
      var last := log[|log| - 1];
      var rest := LastChange(log[..|log| - 1], k);
      if Feeds(last.d, k) then Max(rest, last.stamp) else rest
  }

  // ----- steps

  /** Adding a job under an id the queue still holds changes nothing: the old job is returned. */
  function AddJob(s: State, p: Pair, t: nat): State {
    var id := Auto(p.k, p.version);
    if id in s.jobs then s
    else s.(jobs := s.jobs[id := Job(Waiting, 1, t, Inputs(s, p.k))])
  }

  function AddJobs(s: State, pairs: seq<Pair>, t: nat): State {
    if pairs == [] then s else AddJob(AddJobs(s, pairs[..|pairs| - 1], t), pairs[|pairs| - 1], t)
  }

  /** The row of a run, closed with its outcome. */
  function Closed(runs: seq<Run>, run: nat, outcome: Outcome): (r: seq<Run>)
    requires run < |runs|
  {
    runs[run := runs[run].(outcome := outcome)]
  }

  predicate Active(stage: Stage) { stage.Checked? || stage.HasRead? || stage.Open? }

  /** The job is in the queue at this stage, for an invoice that exists. */
  predicate At(s: State, j: JobId) { j in s.jobs && j.k < |s.invoices| }

  // Documents. Every step happens at a new instant, `s.now + 1`.

  function UploadInvoice(s: State, reviewRequired: bool): State {
    var t := s.now + 1;
    s.(now := t, invoices := s.invoices + [Doc(Pending, t, reviewRequired, None, 0)])
  }

  function UploadReceipt(s: State, reviewRequired: bool): State {
    var t := s.now + 1;
    s.(now := t, receipts := s.receipts + [Doc(Pending, t, reviewRequired, None, 0)])
  }

  /** A (re-)parse is queued or starts. */
  predicate CanBegin(s: State, d: DocId, to: Status) {
    Valid(s, d) && d !in s.stamps && (to.Pending? || to.Processing?)
  }

  function Begin(s: State, d: DocId, to: Status): State
    requires CanBegin(s, d, to)
  {
    Set(s, d, Get(s, d).(status := to, updatedAt := s.now + 1)).(now := s.now + 1)
  }

  /** A finished parse, or a review, takes the `updated_at` it is about to write. */
  predicate CanStamp(s: State, d: DocId) {
    && Valid(s, d) && d !in s.stamps
    && (Get(s, d).status.Processing? || (Get(s, d).status.Done? && ReviewPending(Get(s, d))))
  }

  function Stamp(s: State, d: DocId): State
    requires CanStamp(s, d)
  {
    s.(now := s.now + 1, stamps := s.stamps[d := s.now + 1])
  }

  predicate CanCommit(s: State, d: DocId) { Valid(s, d) && d in s.stamps }

  /** The document as its write leaves it. */
  function Committed(s: State, d: DocId): Doc
    requires CanCommit(s, d)
  {
    var doc := Get(s, d);
    doc.(status := Done, updatedAt := s.stamps[d], committedAt := s.now + 1,
         reviewedAt := if doc.status.Done? then Some(s.stamps[d]) else doc.reviewedAt)
  }

  function Commit(s: State, d: DocId): State
    requires CanCommit(s, d)
  {
    Set(s, d, Committed(s, d)).(
      now := s.now + 1, stamps := s.stamps - {d}, owed := s.owed + {d}, log := s.log + [Change(d, s.stamps[d])])
  }

  predicate CanFail(s: State, d: DocId) {
    Valid(s, d) && (Get(s, d).status.Pending? || Get(s, d).status.Processing?)
  }

  function Fail(s: State, d: DocId): State
    requires CanFail(s, d)
  {
    Set(s, d, Get(s, d).(status := Failed, updatedAt := s.now + 1)).(
      now := s.now + 1, stamps := s.stamps - {d})
  }

  /** The deferred pairs after an enqueue: each parsed pair it feeds is deferred or gets its job. */
  function Deferrals(s: State, d: DocId): set<nat> {
    set k | 0 <= k < |s.invoices| && (if Feeds(d, k) && PairParsed(s, k) then Defers(s.receipts) else k in s.deferred)
  }

  /** `enqueueForDocument`. */
  function Enqueue(s: State, d: DocId): State
    requires Valid(s, d)
  {
    AddJobs(s.(now := s.now + 1), PairsFor(s, d), s.now + 1).(owed := s.owed - {d}, deferred := Deferrals(s, d))
  }

  // Jobs and runs.

  /** A person presses Compare: no freshness check, no retry. */
  predicate CanPress(s: State, k: nat, ticket: nat) { k < |s.invoices| && Manual(k, ticket) !in s.jobs }

  function Press(s: State, k: nat, ticket: nat): State
    requires CanPress(s, k, ticket)
  {
    s.(now := s.now + 1, jobs := s.jobs[Manual(k, ticket) := Job(Checked(0), 0, s.now + 1, map[])])
  }

  predicate CanStart(s: State, j: JobId) { At(s, j) && s.jobs[j].stage.Waiting? }

  /** The queue hands the job out; a fresh pair completes it at once. */
  function Start(s: State, j: JobId): State
    requires CanStart(s, j)
  {
    if UpToDate(s, j.k) then s.(now := s.now + 1, jobs := Without(s.jobs, j))
    else
      var latest := LatestStart(s.runs, j.k);
      var stage := Checked(if latest.Some? then latest.value else 0);
      s.(now := s.now + 1, jobs := s.jobs[j := s.jobs[j].(stage := stage)])
  }

  predicate CanRead(s: State, j: JobId) { At(s, j) && s.jobs[j].stage.Checked? && Accepts(s, j.k) }

  function Read(s: State, j: JobId): State
    requires CanRead(s, j)
  {
    var stage := HasRead(s.jobs[j].stage.prev, Inputs(s, j.k), s.now + 1, LastChange(s.log, j.k));
    s.(now := s.now + 1, jobs := s.jobs[j := s.jobs[j].(stage := stage)])
  }

  /**
   * `compare` answers with a 400, a 404 or a 402: the job completes and only the
   * log knows. Of a pair it would have read, that is a refusal of this very
   * pair - a 402, or a 400 for a document without lines; of any other it only
   * says that a document was not ready.
   */
  predicate CanRefuse(s: State, j: JobId) { At(s, j) && s.jobs[j].stage.Checked? }

  function Refuse(s: State, j: JobId): State
    requires CanRefuse(s, j)
  {
    s.(now := s.now + 1, jobs := Without(s.jobs, j),
       abandoned := if Accepts(s, j.k) then s.abandoned + {j} else s.abandoned)
  }

  predicate CanOpen(s: State, j: JobId) { At(s, j) && s.jobs[j].stage.HasRead? }

  /** The run row is inserted, after the reads; its `started_at` is the time of the insert. */
  function OpenRow(s: State, j: JobId): State
    requires CanOpen(s, j)
  {
    var from := s.jobs[j].stage;
    s.(now := s.now + 1,
       runs := s.runs + [Run(j.k, j.Auto?, Running, s.now + 1, from.read, from.readAt, from.cause)],
       jobs := s.jobs[j := s.jobs[j].(stage := Open(from.prev, |s.runs|))])
  }

  /** The row is updated by its id, also when `reconcile` has closed it meanwhile. */
  predicate CanSucceed(s: State, j: JobId) { At(s, j) && s.jobs[j].stage.Open? && s.jobs[j].stage.run < |s.runs| }

  function Succeed(s: State, j: JobId): State
    requires CanSucceed(s, j)
  {
    s.(now := s.now + 1, runs := Closed(s.runs, s.jobs[j].stage.run, Succeeded), jobs := Without(s.jobs, j))
  }

  /** The run row, if there is one and the process lives to close it, is closed as failed. */
  predicate CanFailJob(s: State, j: JobId, closeRun: bool) {
    && At(s, j) && Active(s.jobs[j].stage)
    && (closeRun ==> s.jobs[j].stage.Open? && s.jobs[j].stage.run < |s.runs|)
  }

  function FailJob(s: State, j: JobId, closeRun: bool): State
    requires CanFailJob(s, j, closeRun)
  {
    var job := s.jobs[j];
    var runs := if closeRun then Closed(s.runs, job.stage.run, Failure) else s.runs;
    var jobs :=
      if job.retries > 0 then s.jobs[j := job.(stage := Waiting, retries := job.retries - 1)]
      else if j.Auto? then s.jobs[j := job.(stage := Kept)]
      else Without(s.jobs, j);
    s.(now := s.now + 1, runs := runs, jobs := jobs)
  }

  /** `reconcile`: a run that never finished is closed as failed. */
  predicate CanSweep(s: State, run: nat) { run < |s.runs| && s.runs[run].outcome.Running? }

  function Sweep(s: State, run: nat): State
    requires CanSweep(s, run)
  {
    s.(now := s.now + 1, runs := Closed(s.runs, run, Failure))
  }

  // ----- runs of the system

  datatype Step =
    | DoUploadInvoice(reviewRequired: bool)
    | DoUploadReceipt(reviewRequired: bool)
    | DoBegin(d: DocId, to: Status)
    | DoStamp(d: DocId)
    | DoCommit(d: DocId)
    | DoFail(d: DocId)
    | DoEnqueue(d: DocId)
    | DoPress(k: nat, ticket: nat)
    | DoStart(j: JobId)
    | DoRead(j: JobId)
    | DoRefuse(j: JobId)
    | DoOpen(j: JobId)
    | DoSucceed(j: JobId)
    | DoFailJob(j: JobId, closeRun: bool)
    | DoSweep(run: nat)

  predicate Enabled(s: State, step: Step) {
    match step
    case DoUploadInvoice(_) => true
    case DoUploadReceipt(_) => true
    case DoBegin(d, to) => CanBegin(s, d, to)
    case DoStamp(d) => CanStamp(s, d)
    case DoCommit(d) => CanCommit(s, d)
    case DoFail(d) => CanFail(s, d)
    case DoEnqueue(d) => Valid(s, d)
    case DoPress(k, ticket) => CanPress(s, k, ticket)
    case DoStart(j) => CanStart(s, j)
    case DoRead(j) => CanRead(s, j)
    case DoRefuse(j) => CanRefuse(s, j)
    case DoOpen(j) => CanOpen(s, j)
    case DoSucceed(j) => CanSucceed(s, j)
    case DoFailJob(j, closeRun) => CanFailJob(s, j, closeRun)
    case DoSweep(run) => CanSweep(s, run)
  }

  function Apply(s: State, step: Step): State
    requires Enabled(s, step)
  {
    match step
    case DoUploadInvoice(rr) => UploadInvoice(s, rr)
    case DoUploadReceipt(rr) => UploadReceipt(s, rr)
    case DoBegin(d, to) => Begin(s, d, to)
    case DoStamp(d) => Stamp(s, d)
    case DoCommit(d) => Commit(s, d)
    case DoFail(d) => Fail(s, d)
    case DoEnqueue(d) => Enqueue(s, d)
    case DoPress(k, ticket) => Press(s, k, ticket)
    case DoStart(j) => Start(s, j)
    case DoRead(j) => Read(s, j)
    case DoRefuse(j) => Refuse(s, j)
    case DoOpen(j) => OpenRow(s, j)
    case DoSucceed(j) => Succeed(s, j)
    case DoFailJob(j, closeRun) => FailJob(s, j, closeRun)
    case DoSweep(run) => Sweep(s, run)
  }

  predicate Initial(s: State) {
    && s.order.status.Pending? && s.order.updatedAt <= s.now && s.order.committedAt == 0
    && s.invoices == [] && s.receipts == [] && s.stamps == map[] && s.owed == {} && s.jobs == map[] && s.runs == []
    && s.abandoned == {} && s.deferred == {} && s.log == []
  }

  /** Any interleaving of enabled steps. */
  predicate Trace(s: State, steps: seq<Step>, last: State)
    decreases |steps|
  {
    if steps == [] then last == s
    else Enabled(s, steps[0]) && Trace(Apply(s, steps[0]), steps[1..], last)
  }
}
