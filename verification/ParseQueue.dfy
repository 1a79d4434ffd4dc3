/**
 * Queueing documents to be parsed, and the periodic reconciliation that
 * requeues those whose job is gone. The retry count lives in the job id.
 */
module ParseQueue {
  import opened Wrappers
  import opened Text
  import opened Decimals

  /** The two services are twins; only the job id tells them apart. */
  datatype Doc = Procurement(kind: string, id: string) | Catalog(id: string)

  datatype Status = Pending | Processing | Done | Failed

  datatype Row = Row(
    status: Status, queueJobId: Option<string>, enqueuedAt: Option<int>, processingStartedAt: Option<int>,
    updatedAt: int, lastError: Option<string>)

  /** Where the queue has a job. Completed jobs are removed at once; failed ones are kept. */
  datatype Job = Waiting | Active | Completed | Exhausted

  datatype State = State(rows: map<Doc, Row>, queue: map<string, Job>)

  const PENDING_STALE_MS := 2 * 60000
  const PROCESSING_STALE_MS := 30 * 60000
  const MAX_REQUEUES := 2

  // ----- job ids

  function BaseId(doc: Doc): string {
    match doc
    case Procurement(kind, id) => "procurement-parse:" + kind + ":" + id
    case Catalog(id) => "catalog-parse:" + id
  }

  function JobId(doc: Doc, requeue: nat): string {
    if requeue > 0 then BaseId(doc) + ":r" + Decimal(requeue) else BaseId(doc)
  }

  /** How many of the last characters are digits. */
  function DigitTail(s: string): (n: nat)
    ensures n <= |s| && AllDigits(s[|s| - n..])
  {
    if s != "" && IsDigit(s[|s| - 1]) then
      var n := DigitTail(s[..|s| - 1]);
      assert forall i :: |s| - 1 - n <= i < |s| - 1 ==> s[i] == s[..|s| - 1][|s| - 1 - n..][i - (|s| - 1 - n)];
      n + 1
    else 0
  }

  /** The number after a final `:r`, if the text ends so. */
  function RequeueSuffix(s: string): Option<nat> {
    var n := DigitTail(s);
    if n > 0 && |s| >= n + 2 && s[|s| - n - 2] == ':' && s[|s| - n - 1] == 'r' then Some(Number(s[|s| - n..])) else None
  }

  function RequeueCount(queueJobId: Option<string>): nat {
    if queueJobId.Some? && RequeueSuffix(queueJobId.value).Some? then RequeueSuffix(queueJobId.value).value else 0
  }

  // ----- queueing

  /** Adding under an id the queue still holds returns the old job. */
  function AddJob(queue: map<string, Job>, id: string): map<string, Job> {
    if id in queue then queue else queue[id := Waiting]
  }

  function MarkedFailed(s: State, doc: Doc, error: string, now: int): State
    requires doc in s.rows
  {
    s.(rows := s.rows[doc := s.rows[doc].(status := Failed, lastError := Some(error), updatedAt := now)])
  }

  /** `accepted`: the queue takes the job. */
  function Queued(s: State, doc: Doc, requeue: nat, now: int, accepted: bool): State
    requires doc in s.rows
  {
    var id := JobId(doc, requeue);
    var patched := s.(rows := s.rows[doc := Row(Pending, Some(id), Some(now), None, now, None)]);
    if accepted then patched.(queue := AddJob(s.queue, id)) else MarkedFailed(patched, doc, "Queue enqueue failed", now)
  }

  // ----- one visit

  function Reference(row: Row): int {
    if row.status.Processing? && row.processingStartedAt.Some? then row.processingStartedAt.value
    else if row.enqueuedAt.Some? then row.enqueuedAt.value
    else row.updatedAt
  }

  predicate Stale(row: Row, now: int) {
    now - Reference(row) >= if row.status.Processing? then PROCESSING_STALE_MS else PENDING_STALE_MS
  }

  /** Whether the queue answers the two reads of a visit, and takes a new job. */
  datatype Luck = Luck(getJob: bool, getState: bool, accepted: bool)

  /** A job as the visit sees it: an error reads as missing, a state that cannot be read as unknown. */
  datatype Seen = Missing | Unknown | Known(job: Job)

  function Look(queue: map<string, Job>, id: Option<string>, luck: Luck): Seen {
    if id.None? || id.value !in queue || !luck.getJob then Missing
    else if !luck.getState then Unknown
    else Known(queue[id.value])
  }

  datatype Act = Leave | Fail(error: string) | Requeue

  function ActOn(queue: map<string, Job>, row: Row, now: int, luck: Luck): Act {
    var seen := Look(queue, row.queueJobId, luck);
    if !Stale(row, now) then Leave
    else if seen.Unknown? || (seen.Known? && !seen.job.Exhausted? && !seen.job.Completed?) then Leave
    else if seen.Known? && seen.job.Exhausted? then Fail("Parsing failed after retries")
    else if RequeueCount(row.queueJobId) >= MAX_REQUEUES then Fail("Parsing did not finish")
    else Requeue
  }

  /** The row as the scan read it decides; the writes go to the row as it is. */
  function Visit(s: State, doc: Doc, row: Row, now: int, luck: Luck): State
    requires doc in s.rows
  {
    match ActOn(s.queue, row, now, luck)
    case Leave => s
    case Fail(error) => MarkedFailed(s, doc, error, now)
    case Requeue => Queued(s, doc, RequeueCount(row.queueJobId) + 1, now, luck.accepted)
  }

  datatype Scanned = Scanned(doc: Doc, row: Row, luck: Luck)

  predicate ScanOk(s: State, scan: seq<Scanned>) { forall i :: 0 <= i < |scan| ==> scan[i].doc in s.rows }

  function Visits(s: State, scan: seq<Scanned>, now: int): (r: State)
    requires ScanOk(s, scan)
    ensures r.rows.Keys == s.rows.Keys
  {
    if scan == [] then s
    else
      var n := |scan| - 1;
      var rest := Visits(s, scan[..n], now);
      Visit(rest, scan[n].doc, scan[n].row, now, scan[n].luck)
  }

  class ParseService {
    var state: State

    constructor ()
      ensures state == State(map[], map[])
    {
      state := State(map[], map[]);
    }

    method QueueDoc(doc: Doc, requeue: nat, now: int, accepted: bool) returns (queued: bool)
      requires doc in state.rows
      modifies this
      ensures state == Queued(old(state), doc, requeue, now, accepted) && queued == accepted
    {
      var id := JobId(doc, requeue);
      state := state.(rows := state.rows[doc := Row(Pending, Some(id), Some(now), None, now, None)]);
      if !accepted {
        MarkFailed(doc, "Queue enqueue failed", now);
        return false;
      }
      if id !in state.queue { state := state.(queue := state.queue[id := Waiting]); }
      return true;
    }

    method MarkFailed(doc: Doc, error: string, now: int)
      requires doc in state.rows
      modifies this
      ensures state == MarkedFailed(old(state), doc, error, now)
    {
      var row := state.rows[doc].(status := Failed, lastError := Some(error), updatedAt := now);
      state := state.(rows := state.rows[doc := row]);
    }

    /** One row of the scan. */
    method ReconcileRow(doc: Doc, row: Row, now: int, luck: Luck)
      requires doc in state.rows
      modifies this
      ensures state == Visit(old(state), doc, row, now, luck)
    {
      var threshold := if row.status.Processing? then PROCESSING_STALE_MS else PENDING_STALE_MS;
      if now - Reference(row) < threshold { return; }
      var seen := Look(state.queue, row.queueJobId, luck);
      if seen.Unknown? || (seen.Known? && seen.job != Exhausted && seen.job != Completed) { return; }
      if seen == Known(Exhausted) {
        MarkFailed(doc, "Parsing failed after retries", now);
        return;
      }
      var requeues := RequeueCount(row.queueJobId);
      if requeues >= MAX_REQUEUES {
        MarkFailed(doc, "Parsing did not finish", now);
        return;
      }
      var _ := QueueDoc(doc, requeues + 1, now, luck.accepted);
    }

    method ReconcileRows(scan: seq<Scanned>, now: int)
      requires ScanOk(state, scan)
      modifies this
      ensures state == Visits(old(state), scan, now)
    {
      ghost var before := state;
      var i := 0;
      while i < |scan|
        invariant i <= |scan| && ScanOk(state, scan)
        invariant state == Visits(before, scan[..i], now)
      {
        assert scan[..i + 1][..i] == scan[..i];
        ReconcileRow(scan[i].doc, scan[i].row, now, scan[i].luck);
        i := i + 1;
      }
      assert scan[..i] == scan;
    }
  }
}
