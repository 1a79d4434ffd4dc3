/**
 * The append-only billing ledger: rows of every workspace in one table with a
 * unique key, sums over a window or over a key prefix, and the two reserving
 * transactions. Each transaction holds the workspace's advisory lock, so it is
 * one step.
 */
module UsageLedger {
  import opened Wrappers

  /** A UTC instant: `month` counts months since year 0, `day` and `ms` count from 0. */
  datatype Instant = Instant(month: nat, day: nat, ms: nat)

  predicate Before(a: Instant, b: Instant) {
    a.month < b.month || (a.month == b.month && (a.day < b.day || (a.day == b.day && a.ms < b.ms)))
  }

  datatype Window = Window(start: Instant, end: Instant)

  predicate In(w: Window, t: Instant) { !Before(t, w.start) && Before(t, w.end) }

  /** `currentMonthPeriod`. */
  function MonthOf(now: Instant): Window { Window(Instant(now.month, 0, 0), Instant(now.month + 1, 0, 0)) }

  // ----- keys

  function Digit(n: nat): char
    requires n < 10
  {
    '0' + n as char
  }

  function Two(n: nat): string
    requires n < 100
  {
    [Digit(n / 10), Digit(n % 10)]
  }

  /** A year of four digits and a day of a month. */
  predicate Sane(t: Instant) { t.month < 120000 && t.day < 31 }

  /** The first ten characters of the ISO text. */
  function DateText(t: Instant): string
    requires Sane(t)
  {
    var year := t.month / 12;
    Two(year / 100) + Two(year % 100) + "-" + Two(t.month % 12 + 1) + "-" + Two(t.day + 1)
  }

  datatype Pair = Pair(order: string, invoice: string)

  function PairKeyPrefix(p: Pair, start: Instant): string
    requires Sane(start)
  {
    "cmp:" + p.order + ":" + p.invoice + ":" + DateText(start)
  }

  // ----- rows

  datatype Kind = MatchedLine | PhotoCheck | LlmCost

  datatype Row = Row(workspace: nat, kind: Kind, quantity: nat, key: string, at: Instant)

  predicate InSum(r: Row, w: nat, kind: Kind, window: Window) { r.workspace == w && r.kind == kind && In(window, r.at) }

  function WindowSum(rows: seq<Row>, w: nat, kind: Kind, window: Window): nat {
    if rows == [] then 0
    else
      var last := rows[|rows| - 1];
      WindowSum(rows[..|rows| - 1], w, kind, window) + if InSum(last, w, kind, window) then last.quantity else 0
  }

  predicate Counted(r: Row, w: nat, prefix: string) { r.workspace == w && r.kind.MatchedLine? && prefix <= r.key }

  function PrefixSum(rows: seq<Row>, w: nat, prefix: string): nat {
    if rows == [] then 0
    else
      var last := rows[|rows| - 1];
      PrefixSum(rows[..|rows| - 1], w, prefix) + if Counted(last, w, prefix) then last.quantity else 0
  }

  predicate AnyCounted(rows: seq<Row>, w: nat, prefix: string) {
    exists i :: 0 <= i < |rows| && Counted(rows[i], w, prefix)
  }

  predicate Taken(rows: seq<Row>, key: string) { exists i :: 0 <= i < |rows| && rows[i].key == key }

  predicate TakenBy(rows: seq<Row>, w: nat, key: string) {
    exists i :: 0 <= i < |rows| && rows[i].workspace == w && rows[i].key == key
  }

  // ----- transactions

  datatype Result = Charged | Duplicate | Over

  datatype Answer = Answer(result: Result, rows: seq<Row>)

  /** The insert, which a taken key turns into nothing. */
  function Insert(rows: seq<Row>, row: Row): Answer {
    if Taken(rows, row.key) then Answer(Duplicate, rows) else Answer(Charged, rows + [row])
  }

  predicate Exceeds(rows: seq<Row>, w: nat, kind: Kind, quantity: nat, limit: Option<nat>, window: Window) {
    limit.Some? && WindowSum(rows, w, kind, window) + quantity > limit.value
  }

  function Reserved(rows: seq<Row>, row: Row, limit: Option<nat>, window: Window): Answer {
    if TakenBy(rows, row.workspace, row.key) then Answer(Duplicate, rows)
    else if Exceeds(rows, row.workspace, row.kind, row.quantity, limit, window) then Answer(Over, rows)
    else Insert(rows, row)
  }

  function PairReserved(
    rows: seq<Row>, w: nat, prefix: string, lines: nat, limit: Option<nat>, window: Window, now: Instant, uuid: string)
    : Answer
  {
    var total := PrefixSum(rows, w, prefix);
    if lines <= total then Answer(Duplicate, rows)
    else if Exceeds(rows, w, MatchedLine, lines - total, limit, window) then Answer(Over, rows)
    else
      var key := if AnyCounted(rows, w, prefix) then prefix + ":" + uuid else prefix;
      Insert(rows, Row(w, MatchedLine, lines - total, key, now))
  }

  function CostRecorded(rows: seq<Row>, w: nat, total: nat, microUsd: nat, now: Instant, uuid: string): Answer {
    if total == 0 then Answer(Duplicate, rows) else Insert(rows, Row(w, LlmCost, microUsd, "llm:" + uuid, now))
  }

  datatype Sums = Sums(matchedLines: nat, photoChecks: nat, llmCostMicroUsd: nat)

  class Ledger {
    var rows: seq<Row>

    constructor ()
      ensures rows == []
    {
      rows := [];
    }

    method Reserve(row: Row, limit: Option<nat>, window: Window) returns (result: Result)
      modifies this
      ensures Answer(result, rows) == Reserved(old(rows), row, limit, window)
    {
      if TakenBy(rows, row.workspace, row.key) { return Duplicate; }
      if limit.Some? && WindowSum(rows, row.workspace, row.kind, window) + row.quantity > limit.value { return Over; }
      result := Append(row);
    }

    method ReservePairLines(
      w: nat, prefix: string, lines: nat, limit: Option<nat>, window: Window, now: Instant, uuid: string)
      returns (result: Result)
      modifies this
      ensures Answer(result, rows) == PairReserved(old(rows), w, prefix, lines, limit, window, now, uuid)
    {
      var counted := PrefixSum(rows, w, prefix);
      if lines <= counted { return Duplicate; }
      var delta := lines - counted;
      if limit.Some? && WindowSum(rows, w, MatchedLine, window) + delta > limit.value { return Over; }
      var key := if AnyCounted(rows, w, prefix) then prefix + ":" + uuid else prefix;
      result := Append(Row(w, MatchedLine, delta, key, now));
    }

    method RecordLlmCost(w: nat, total: nat, microUsd: nat, now: Instant, uuid: string)
      modifies this
      ensures rows == CostRecorded(old(rows), w, total, microUsd, now, uuid).rows
    {
      if total != 0 {
        var _ := Append(Row(w, LlmCost, microUsd, "llm:" + uuid, now));
      }
    }

    method Append(row: Row) returns (result: Result)
      modifies this
      ensures Answer(result, rows) == Insert(old(rows), row)
    {
      if Taken(rows, row.key) { return Duplicate; }
      rows := rows + [row];
      return Charged;
    }

    /** One pass over the window's rows, grouped by kind. */
    method SumsByKind(w: nat, window: Window) returns (sums: Sums)
      ensures sums.matchedLines == WindowSum(rows, w, MatchedLine, window)
      ensures sums.photoChecks == WindowSum(rows, w, PhotoCheck, window)
      ensures sums.llmCostMicroUsd == WindowSum(rows, w, LlmCost, window)
    {
      sums := Sums(0, 0, 0);
      for i := 0 to |rows|
        invariant sums.matchedLines == WindowSum(rows[..i], w, MatchedLine, window)
        invariant sums.photoChecks == WindowSum(rows[..i], w, PhotoCheck, window)
        invariant sums.llmCostMicroUsd == WindowSum(rows[..i], w, LlmCost, window)
      {
        assert rows[..i + 1][..i] == rows[..i];
        var row := rows[i];
        if row.workspace == w && In(window, row.at) {
          match row.kind
          case MatchedLine => sums := sums.(matchedLines := sums.matchedLines + row.quantity);
          case PhotoCheck => sums := sums.(photoChecks := sums.photoChecks + row.quantity);
          case LlmCost => sums := sums.(llmCostMicroUsd := sums.llmCostMicroUsd + row.quantity);
        }
      }
      assert rows[..|rows|] == rows;
    }
  }

  // ----- runs: transactions of every workspace in any order

  datatype Op =
    | PairLines(workspace: nat, pair: Pair, lines: nat, limit: Option<nat>, window: Window, now: Instant, uuid: string)
    | Photo(workspace: nat, limit: Option<nat>, window: Window, now: Instant, uuid: string)
    | Cost(workspace: nat, total: nat, microUsd: nat, now: Instant, uuid: string)

  predicate OpOk(op: Op) { op.PairLines? ==> Sane(op.window.start) }

  function Do(rows: seq<Row>, op: Op): Answer
    requires OpOk(op)
  {
    match op
    case PairLines(w, p, lines, limit, window, now, uuid) =>
      PairReserved(rows, w, PairKeyPrefix(p, window.start), lines, limit, window, now, uuid)
    case Photo(w, limit, window, now, uuid) =>
      Reserved(rows, Row(w, PhotoCheck, 1, "photo:" + uuid, now), limit, window)
    case Cost(w, total, microUsd, now, uuid) => CostRecorded(rows, w, total, microUsd, now, uuid)
  }

  predicate OpsOk(ops: seq<Op>) { forall i :: 0 <= i < |ops| ==> OpOk(ops[i]) }

  /** The table after the operations, from an empty one. */
  function After(ops: seq<Op>): seq<Row>
    requires OpsOk(ops)
  {
    if ops == [] then [] else Do(After(ops[..|ops| - 1]), ops[|ops| - 1]).rows
  }
}
