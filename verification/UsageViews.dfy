/**
 * Two views of the ledger agree: the matched lines of a window equal the sum,
 * over the compared pairs, of the largest line count not refused. The bridge
 * is that a key prefix singles out one pair and one period.
 */
module UsageViews {
  import opened Wrappers
  import opened UsageLedger

  // ----- a prefix singles out one pair and one start date

  predicate NoColon(s: string) { ':' !in s }

  lemma {:induction false} FirstColon(a: string, x: string, b: string, y: string)
    requires NoColon(a) && NoColon(b) && a + ":" + x <= b + ":" + y
    ensures a == b && x <= y
  {
    var p, q := a + ":" + x, b + ":" + y;
    ColonAt(a, x);
    ColonAt(b, y);
    ColonInside(a, x, q, b, ":" + y);
    ColonInside(b, y, p, a, ":" + x);
    assert a == p[..|a|] && b == q[..|b|] && p[..|a|] == q[..|a|];
    assert x == p[|a| + 1..] && y == q[|a| + 1..];
  }

  /** Of two texts, one a prefix of the other, the first colon of one falls inside a longer head of the other. */
  lemma {:induction false} ColonInside(a: string, x: string, q: string, head: string, tail: string)
    requires a + ":" + x <= q || (q <= a + ":" + x && |head| <= |q|)
    requires q == head + tail
    ensures |a| < |head| ==> ':' in head
  {
    ColonAt(a, x);
    if |a| < |head| { assert head[|a|] == q[|a|] == (a + ":" + x)[|a|]; }
  }

  lemma {:induction false} ColonAt(a: string, x: string)
    ensures (a + ":" + x)[|a|] == ':' && (a + ":" + x)[..|a|] == a && (a + ":" + x)[|a| + 1..] == x
  {
  }

  lemma {:induction false} DatesDiffer(s: Instant, t: Instant)
    requires Sane(s) && Sane(t) && DateText(s) == DateText(t)
    ensures s.month == t.month && s.day == t.day
  {
    var a, b := DateText(s), DateText(t);
    assert a[0] == b[0] && a[1] == b[1] && a[2] == b[2] && a[3] == b[3];
    assert a[5] == b[5] && a[6] == b[6] && a[8] == b[8] && a[9] == b[9];
    DigitsApart(s.month / 12 / 100, t.month / 12 / 100);
    DigitsApart(s.month / 12 % 100, t.month / 12 % 100);
    DigitsApart(s.month % 12 + 1, t.month % 12 + 1);
    DigitsApart(s.day + 1, t.day + 1);
  }

  lemma {:induction false} DigitsApart(m: nat, n: nat)
    requires m < 100 && n < 100
    ensures Two(m)[0] == Two(n)[0] && Two(m)[1] == Two(n)[1] ==> m == n
  {
  }

  /** The keys a pair's rows may carry. */
  ghost predicate KeyOf(key: string, p: Pair, start: Instant) {
    && NoColon(p.order) && NoColon(p.invoice) && Sane(start)
    && (key == PairKeyPrefix(p, start) || exists uuid: string :: key == PairKeyPrefix(p, start) + ":" + uuid)
  }

  /** `starts_with` is true of a pair's key exactly for that pair and that start date. */
  lemma {:induction false} PrefixSinglesOut(key: string, p: Pair, start: Instant, q: Pair, t: Instant)
    requires KeyOf(key, p, start) && NoColon(q.order) && NoColon(q.invoice) && Sane(t)
    ensures PairKeyPrefix(q, t) <= key <==> q == p && t.month == start.month && t.day == start.day
  {
    var own := PairKeyPrefix(p, start);
    assert own <= key;
    if q == p && t.month == start.month && t.day == start.day {
      assert PairKeyPrefix(q, t) == own;
    } else if PairKeyPrefix(q, t) <= key {
      var tail := key[|own|..];
      assert key == own + tail;
      PrefixParts(p, start, tail, q, t);
    }
  }

  lemma {:induction false} PrefixParts(p: Pair, start: Instant, tail: string, q: Pair, t: Instant)
    requires NoColon(p.order) && NoColon(p.invoice) && NoColon(q.order) && NoColon(q.invoice) && Sane(start) && Sane(t)
    requires PairKeyPrefix(q, t) <= PairKeyPrefix(p, start) + tail
    ensures q == p && t.month == start.month && t.day == start.day
  {
    var dq, dp := DateText(t), DateText(start) + tail;
    KeyWritten(q.order, q.invoice, DateText(t), "");
    KeyWritten(p.order, p.invoice, DateText(start), tail);
    assert PairKeyPrefix(q, t) + "" == PairKeyPrefix(q, t) && dq + "" == dq;
    KeyParts("cmp", q.order, q.invoice, dq, p.order, p.invoice, dp);
    DatePrefix(start, tail, t);
  }

  function Key(tag: string, order: string, invoice: string, rest: string): string {
    tag + ":" + (order + ":" + (invoice + ":" + rest))
  }

  lemma {:induction false} KeyWritten(order: string, invoice: string, date: string, tail: string)
    ensures "cmp:" + order + ":" + invoice + ":" + date + tail == Key("cmp", order, invoice, date + tail)
  {
    var a := "cmp:" + order + ":";
    assert a + invoice + ":" + date + tail == a + (invoice + ":" + (date + tail));
    assert "cmp" + ":" == "cmp:";
  }

  lemma {:induction false} KeyParts(
    tag: string, order: string, invoice: string, rest: string, order1: string, invoice1: string, rest1: string)
    requires NoColon(tag) && NoColon(order) && NoColon(invoice) && NoColon(order1) && NoColon(invoice1)
    requires Key(tag, order, invoice, rest) <= Key(tag, order1, invoice1, rest1)
    ensures order == order1 && invoice == invoice1 && rest <= rest1
  {
    var r, r1 := invoice + ":" + rest, invoice1 + ":" + rest1;
    FirstColon(tag, order + ":" + r, tag, order1 + ":" + r1);
    FirstColon(order, r, order1, r1);
    FirstColon(invoice, rest, invoice1, rest1);
  }

  lemma {:induction false} DatePrefix(start: Instant, tail: string, t: Instant)
    requires Sane(start) && Sane(t) && DateText(t) <= DateText(start) + tail
    ensures t.month == start.month && t.day == start.day
  {
    var dp, dq := DateText(start), DateText(t);
    assert |dp| == |dq| == 10;
    assert (dp + tail)[..10] == dp && dq == (dp + tail)[..10];
    DatesDiffer(t, start);
  }

  // ----- where rows come from

  /** The row was charged by the operation. */
  ghost predicate From(r: Row, op: Op) {
    && op.PairLines? && r.workspace == op.workspace && r.at == op.now && KeyOf(r.key, op.pair, op.window.start)
  }

  /** Ids carry no colon, an order belongs to one workspace, and each charge is made inside its window. */
  ghost predicate Honest(ops: seq<Op>) {
    && (forall i :: 0 <= i < |ops| && ops[i].PairLines? ==>
          NoColon(ops[i].pair.order) && NoColon(ops[i].pair.invoice) && Sane(ops[i].window.start)
          && In(ops[i].window, ops[i].now))
    && (forall i, j :: 0 <= i < |ops| && 0 <= j < |ops| && SameOrder(ops[i], ops[j]) ==>
         ops[i].workspace == ops[j].workspace)
  }

  ghost predicate SameOrder(a: Op, b: Op) { a.PairLines? && b.PairLines? && a.pair.order == b.pair.order }

  /** The random part of a key has not been drawn before. */
  ghost predicate Fresh(ops: seq<Op>)
    requires OpsOk(ops)
  {
    forall i :: 0 <= i < |ops| && ops[i].PairLines? ==>
      !Taken(After(ops[..i]), PairKeyPrefix(ops[i].pair, ops[i].window.start) + ":" + ops[i].uuid)
  }

  /** The other windows the workspace was charged in start on other dates and do not overlap this one. */
  ghost predicate Apart(ops: seq<Op>, w: nat, window: Window) {
    forall i :: 0 <= i < |ops| && ops[i].PairLines? && ops[i].workspace == w ==> WindowApart(ops[i].window, window)
  }

  ghost predicate WindowApart(a: Window, b: Window) {
    || a == b
    || (!(a.start.month == b.start.month && a.start.day == b.start.day)
        && forall t :: In(a, t) ==> !In(b, t))
  }

  ghost predicate Originated(rows: seq<Row>, ops: seq<Op>) {
    forall i :: 0 <= i < |rows| ==>
      if rows[i].kind.MatchedLine? then exists j :: 0 <= j < |ops| && From(rows[i], ops[j])
      else !("cmp:" <= rows[i].key)
  }

  lemma {:induction false} PrefixesOk(ops: seq<Op>, n: nat, w: nat, window: Window)
    requires OpsOk(ops) && Honest(ops) && Fresh(ops) && Apart(ops, w, window) && n <= |ops|
    ensures OpsOk(ops[..n]) && Honest(ops[..n]) && Fresh(ops[..n]) && Apart(ops[..n], w, window)
  {
    assert forall i :: 0 <= i < n ==> ops[..n][..i] == ops[..i];
  }

  /** One more row, of the operation's own. */
  ghost predicate OneMore(rows: seq<Row>, op: Op, r: seq<Row>) {
    && |r| == |rows| + 1 && r[..|rows|] == rows
    && if op.PairLines? then r[|rows|].kind.MatchedLine? && From(r[|rows|], op)
       else !r[|rows|].kind.MatchedLine? && !("cmp:" <= r[|rows|].key)
  }

  /** What one operation does to the table: nothing, or one more row. */
  lemma {:induction false} OneRow(rows: seq<Row>, op: Op)
    requires OpOk(op) && Honest([op])
    ensures var r := Do(rows, op).rows;
      r == rows || OneMore(rows, op, r)
  {
    var r := Do(rows, op).rows;
    match op
    case PairLines(w, p, lines, limit, window, now, uuid) =>
      var prefix := PairKeyPrefix(p, window.start);
      assert [op][0] == op;
      if r != rows {
        assert r[|rows|].key == prefix || r[|rows|].key == prefix + ":" + uuid;
      }
    case Photo(_, _, _, _, uuid) => assert ("photo:" + uuid)[0] == 'p';
    case Cost(_, _, _, _, uuid) => assert ("llm:" + uuid)[0] == 'l';
  }

  lemma {:induction false} RowsOriginate(ops: seq<Op>)
    requires OpsOk(ops) && Honest(ops)
    ensures Originated(After(ops), ops)
  {
    if ops != [] {
      var n := |ops| - 1;
      assert ops[..n] + [ops[n]] == ops;
      HonestPrefix(ops[..n], ops[n]);
      RowsOriginate(ops[..n]);
      OneRow(After(ops[..n]), ops[n]);
      OriginsGrow(After(ops[..n]), ops[..n], ops[n], After(ops));
    }
  }

  lemma {:induction false} OriginsGrow(before: seq<Row>, ops: seq<Op>, op: Op, r: seq<Row>)
    requires Originated(before, ops)
    requires r == before || OneMore(before, op, r)
    ensures Originated(r, ops + [op])
  {
    var all := ops + [op];
    forall i | 0 <= i < |r| && r[i].kind.MatchedLine? ensures exists j :: 0 <= j < |all| && From(r[i], all[j]) {
      if i < |before| {
        assert r[i] == before[i];
        var j :| 0 <= j < |ops| && From(before[i], ops[j]);
        assert From(r[i], all[j]);
      } else {
        assert From(r[i], all[|ops|]);
      }
    }
    assert forall i :: 0 <= i < |before| ==> r[i] == before[i];
  }

  // ----- the pair's charge is the largest count accepted

  /** The largest line count of the pair in this window that was not answered `over`. */
  function Largest(ops: seq<Op>, w: nat, p: Pair, window: Window): nat
    requires OpsOk(ops)
  {
    if ops == [] then 0
    else
      var n := |ops| - 1;
      var rest := Largest(ops[..n], w, p, window);
      var op := ops[n];
      if op.PairLines? && op.workspace == w && op.pair == p && op.window == window
         && Do(After(ops[..n]), op).result != Over && op.lines > rest
      then op.lines else rest
  }

  lemma {:induction false} PrefixSumGrows(rows: seq<Row>, r: Row, w: nat, prefix: string)
    ensures PrefixSum(rows + [r], w, prefix)
         == PrefixSum(rows, w, prefix) + if Counted(r, w, prefix) then r.quantity else 0
  {
    assert (rows + [r])[..|rows|] == rows;
  }

  lemma {:induction false} WindowSumGrows(rows: seq<Row>, r: Row, w: nat, kind: Kind, window: Window)
    ensures WindowSum(rows + [r], w, kind, window)
         == WindowSum(rows, w, kind, window) + if InSum(r, w, kind, window) then r.quantity else 0
  {
    assert (rows + [r])[..|rows|] == rows;
  }

  lemma {:induction false} GrownBy(rows: seq<Row>, r: seq<Row>)
    requires |r| == |rows| + 1 && r[..|rows|] == rows
    ensures r == rows + [r[|rows|]]
  {
  }

  /** A row of another pair, start date or workspace does not count towards this pair. */
  lemma {:induction false} Elsewhere(ops: seq<Op>, op: Op, r: Row, w: nat, p: Pair, window: Window)
    requires Honest(ops + [op]) && From(r, op) && Sane(window.start) && NoColon(p.order) && NoColon(p.invoice)
    requires op.workspace == w ==> WindowApart(op.window, window)
    ensures r.kind.MatchedLine? ==>
      (Counted(r, w, PairKeyPrefix(p, window.start)) <==> op.workspace == w && op.pair == p && op.window == window)
  {
    PrefixSinglesOut(r.key, op.pair, op.window.start, p, window.start);
  }

  /** The key a charge asks for is free: rows under the bare prefix are this workspace's own. */
  lemma {:induction false} KeyIsFree(ops: seq<Op>, op: Op)
    requires OpsOk(ops) && Honest(ops + [op]) && op.PairLines? && OpOk(op)
    requires !AnyCounted(After(ops), op.workspace, PairKeyPrefix(op.pair, op.window.start))
    ensures !Taken(After(ops), PairKeyPrefix(op.pair, op.window.start))
  {
    var rows, key := After(ops), PairKeyPrefix(op.pair, op.window.start);
    HonestPrefix(ops, op);
    RowsOriginate(ops);
    forall i | 0 <= i < |rows| ensures rows[i].key != key {
      if rows[i].kind.MatchedLine? {
        var j :| 0 <= j < |ops| && From(rows[i], ops[j]);
        assert (ops + [op])[j] == ops[j] && (ops + [op])[|ops|] == op;
        PrefixSinglesOut(rows[i].key, ops[j].pair, ops[j].window.start, op.pair, op.window.start);
        assert !Counted(rows[i], op.workspace, key);
        assert key <= rows[i].key ==> SameOrder(ops[j], op);
      } else {
        assert "cmp:" <= key;
      }
    }
  }

  lemma {:induction false} HonestPrefix(ops: seq<Op>, op: Op)
    requires Honest(ops + [op])
    ensures Honest(ops) && Honest([op])
  {
    assert forall i :: 0 <= i < |ops| ==> (ops + [op])[i] == ops[i];
    assert (ops + [op])[|ops|] == op;
  }

  /** One charge brings its pair to the lines asked for, unless refused or already there. */
  lemma {:induction false} ChargeReaches(ops: seq<Op>, op: Op)
    requires OpsOk(ops) && Honest(ops + [op]) && op.PairLines? && OpOk(op)
    requires !Taken(After(ops), PairKeyPrefix(op.pair, op.window.start) + ":" + op.uuid)
    ensures var prefix, a := PairKeyPrefix(op.pair, op.window.start), Do(After(ops), op);
      var was := PrefixSum(After(ops), op.workspace, prefix);
      PrefixSum(a.rows, op.workspace, prefix) == if a.result != Over && op.lines > was then op.lines else was
  {
    var prefix, rows := PairKeyPrefix(op.pair, op.window.start), After(ops);
    if !AnyCounted(rows, op.workspace, prefix) { KeyIsFree(ops, op); }
    ReservingReaches(rows, op.workspace, prefix, op.lines, op.limit, op.window, op.now, op.uuid);
  }

  lemma {:induction false} ReservingReaches(
    rows: seq<Row>, w: nat, prefix: string, lines: nat, limit: Option<nat>, window: Window, now: Instant, uuid: string)
    requires !Taken(rows, prefix + ":" + uuid) && (AnyCounted(rows, w, prefix) || !Taken(rows, prefix))
    ensures var was, a := PrefixSum(rows, w, prefix), PairReserved(rows, w, prefix, lines, limit, window, now, uuid);
      PrefixSum(a.rows, w, prefix) == if a.result != Over && lines > was then lines else was
  {
    var was := PrefixSum(rows, w, prefix);
    if lines > was && !Exceeds(rows, w, MatchedLine, lines - was, limit, window) {
      var key := if AnyCounted(rows, w, prefix) then prefix + ":" + uuid else prefix;
      assert prefix <= key;
      PrefixSumGrows(rows, Row(w, MatchedLine, lines - was, key, now), w, prefix);
    }
  }

  /** Any other operation leaves the pair's charge alone. */
  lemma {:induction false} OthersLeave(ops: seq<Op>, op: Op, w: nat, p: Pair, window: Window)
    requires OpsOk(ops) && Honest(ops + [op]) && OpOk(op) && Sane(window.start) && NoColon(p.order)
    requires NoColon(p.invoice)
    requires op.PairLines? && op.workspace == w ==> WindowApart(op.window, window)
    requires !(op.PairLines? && op.workspace == w && op.pair == p && op.window == window)
    ensures PrefixSum(Do(After(ops), op).rows, w, PairKeyPrefix(p, window.start))
         == PrefixSum(After(ops), w, PairKeyPrefix(p, window.start))
  {
    var rows, r := After(ops), Do(After(ops), op).rows;
    HonestPrefix(ops, op);
    OneRow(rows, op);
    if r != rows {
      GrownBy(rows, r);
      PrefixSumGrows(rows, r[|rows|], w, PairKeyPrefix(p, window.start));
      if op.PairLines? { Elsewhere(ops, op, r[|rows|], w, p, window); }
    }
  }

  lemma {:induction false} ChargeIsLargest(ops: seq<Op>, w: nat, p: Pair, window: Window)
    requires OpsOk(ops) && Honest(ops) && Fresh(ops) && Apart(ops, w, window)
    requires Sane(window.start) && NoColon(p.order) && NoColon(p.invoice)
    ensures PrefixSum(After(ops), w, PairKeyPrefix(p, window.start)) == Largest(ops, w, p, window)
  {
    if ops != [] {
      var n := |ops| - 1;
      var rest, op := ops[..n], ops[n];
      assert rest + [op] == ops;
      PrefixesOk(ops, n, w, window);
      ChargeIsLargest(rest, w, p, window);
      if op.PairLines? && op.workspace == w && op.pair == p && op.window == window {
        ChargeReaches(rest, op);
      } else {
        OthersLeave(rest, op, w, p, window);
      }
    }
  }

  // ----- summing over pairs

  function SumOfPrefixes(rows: seq<Row>, w: nat, pairs: seq<Pair>, start: Instant): nat
    requires Sane(start)
  {
    if pairs == [] then 0
    else
      SumOfPrefixes(rows, w, pairs[..|pairs| - 1], start) + PrefixSum(rows, w, PairKeyPrefix(pairs[|pairs| - 1], start))
  }

  function SumOfLargest(ops: seq<Op>, w: nat, pairs: seq<Pair>, window: Window): nat
    requires OpsOk(ops)
  {
    if pairs == [] then 0
    else SumOfLargest(ops, w, pairs[..|pairs| - 1], window) + Largest(ops, w, pairs[|pairs| - 1], window)
  }

  ghost predicate Distinct(pairs: seq<Pair>) { forall i, j :: 0 <= i < j < |pairs| ==> pairs[i] != pairs[j] }

  ghost predicate Plain(pairs: seq<Pair>) {
    forall i :: 0 <= i < |pairs| ==> NoColon(pairs[i].order) && NoColon(pairs[i].invoice)
  }

  /** A new row of pair `q` adds its quantity once if `q` is listed, and nothing otherwise. */
  lemma {:induction false} RowCountsOnce(
    rows: seq<Row>, r: Row, w: nat, q: Pair, from: Instant, pairs: seq<Pair>, start: Instant)
    requires KeyOf(r.key, q, from) && Sane(start) && Distinct(pairs) && Plain(pairs)
    ensures SumOfPrefixes(rows + [r], w, pairs, start) == SumOfPrefixes(rows, w, pairs, start)
      + if r.workspace == w && r.kind.MatchedLine? && q in pairs && from.month == start.month && from.day == start.day
        then r.quantity else 0
    decreases |pairs|
  {
    if pairs != [] {
      var n := |pairs| - 1;
      var rest, last := pairs[..n], pairs[n];
      assert forall p :: p in pairs <==> p in rest || p == last;
      RowCountsOnce(rows, r, w, q, from, rest, start);
      PrefixSinglesOut(r.key, q, from, last, start);
      PrefixSumGrows(rows, r, w, PairKeyPrefix(last, start));
      if q == last { assert last !in rest; }
    }
  }

  lemma {:induction false} OtherRowCountsNot(rows: seq<Row>, r: Row, w: nat, pairs: seq<Pair>, start: Instant)
    requires Sane(start) && !r.kind.MatchedLine?
    ensures SumOfPrefixes(rows + [r], w, pairs, start) == SumOfPrefixes(rows, w, pairs, start)
    decreases |pairs|
  {
    if pairs != [] {
      OtherRowCountsNot(rows, r, w, pairs[..|pairs| - 1], start);
      PrefixSumGrows(rows, r, w, PairKeyPrefix(pairs[|pairs| - 1], start));
    }
  }

  lemma {:induction false} NothingCounted(w: nat, pairs: seq<Pair>, start: Instant)
    requires Sane(start)
    ensures SumOfPrefixes([], w, pairs, start) == 0
    decreases |pairs|
  {
    if pairs != [] { NothingCounted(w, pairs[..|pairs| - 1], start); }
  }

  /** Every pair the workspace asked for in this window is listed. */
  ghost predicate Lists(pairs: seq<Pair>, ops: seq<Op>, w: nat, window: Window) {
    forall i :: 0 <= i < |ops| && ops[i].PairLines? && ops[i].workspace == w && ops[i].window == window ==>
         ops[i].pair in pairs
  }

  /** The row an operation adds moves both sums alike. */
  lemma {:induction false} RowMovesBoth(rows: seq<Row>, op: Op, w: nat, window: Window, pairs: seq<Pair>)
    requires OpOk(op) && Honest([op]) && Apart([op], w, window) && Lists(pairs, [op], w, window)
    requires Sane(window.start) && Distinct(pairs) && Plain(pairs)
    requires WindowSum(rows, w, MatchedLine, window) == SumOfPrefixes(rows, w, pairs, window.start)
    ensures WindowSum(Do(rows, op).rows, w, MatchedLine, window)
         == SumOfPrefixes(Do(rows, op).rows, w, pairs, window.start)
  {
    var after := Do(rows, op).rows;
    OneRow(rows, op);
    if after != rows {
      GrownBy(rows, after);
      var r := after[|rows|];
      assert [op][0] == op;
      WindowSumGrows(rows, r, w, MatchedLine, window);
      if op.PairLines? { RowCountsOnce(rows, r, w, op.pair, op.window.start, pairs, window.start); }
      else { OtherRowCountsNot(rows, r, w, pairs, window.start); }
    }
  }

  lemma {:induction false} WindowIsPrefixes(ops: seq<Op>, w: nat, window: Window, pairs: seq<Pair>)
    requires OpsOk(ops) && Honest(ops) && Apart(ops, w, window) && Lists(pairs, ops, w, window)
    requires Sane(window.start) && Distinct(pairs) && Plain(pairs)
    ensures WindowSum(After(ops), w, MatchedLine, window) == SumOfPrefixes(After(ops), w, pairs, window.start)
    decreases |ops|
  {
    if ops == [] {
      NothingCounted(w, pairs, window.start);
    } else {
      var n := |ops| - 1;
      var rest, op := ops[..n], ops[n];
      assert rest + [op] == ops;
      HonestPrefix(rest, op);
      assert [op][0] == op;
      WindowIsPrefixes(rest, w, window, pairs);
      RowMovesBoth(After(rest), op, w, window, pairs);
    }
  }

  lemma {:induction false} PrefixesAreLargest(ops: seq<Op>, w: nat, window: Window, pairs: seq<Pair>)
    requires OpsOk(ops) && Honest(ops) && Fresh(ops) && Apart(ops, w, window)
    requires Sane(window.start) && Plain(pairs)
    ensures SumOfPrefixes(After(ops), w, pairs, window.start) == SumOfLargest(ops, w, pairs, window)
    decreases |pairs|
  {
    if pairs != [] {
      PrefixesAreLargest(ops, w, window, pairs[..|pairs| - 1]);
      ChargeIsLargest(ops, w, pairs[|pairs| - 1], window);
    }
  }

  /**
   * Whatever transactions ran in whatever order: the window's matched-line
   * total is the sum over pairs of the largest line count not answered `over`.
   */
  lemma {:induction false} ViewsAgree(ops: seq<Op>, w: nat, window: Window, pairs: seq<Pair>)
    requires OpsOk(ops) && Honest(ops) && Fresh(ops) && Apart(ops, w, window)
    requires Sane(window.start) && Distinct(pairs) && Plain(pairs) && Lists(pairs, ops, w, window)
    ensures WindowSum(After(ops), w, MatchedLine, window) == SumOfLargest(ops, w, pairs, window)
  {
    WindowIsPrefixes(ops, w, window, pairs);
    PrefixesAreLargest(ops, w, window, pairs);
  }

  /** Calendar months, as used with enforcement off and by subscriptions, are always apart. */
  lemma {:induction false} MonthsAgree(ops: seq<Op>, w: nat, month: nat, pairs: seq<Pair>)
    requires OpsOk(ops) && Honest(ops) && Fresh(ops) && month < 120000
    requires forall i :: 0 <= i < |ops| && ops[i].PairLines? && ops[i].workspace == w ==>
      ops[i].window == MonthOf(ops[i].now)
    requires Distinct(pairs) && Plain(pairs) && Lists(pairs, ops, w, MonthOf(Instant(month, 0, 0)))
    ensures WindowSum(After(ops), w, MatchedLine, MonthOf(Instant(month, 0, 0)))
         == SumOfLargest(ops, w, pairs, MonthOf(Instant(month, 0, 0)))
  {
    ViewsAgree(ops, w, MonthOf(Instant(month, 0, 0)), pairs);
  }

  // ----- where they part: exactly on windows that are not apart

  /** One pair, five lines: asked under `a` at `t`, then perhaps under `b` at `u`. */
  function First(a: Window, t: Instant): Op { PairLines(1, Pair("po", "inv"), 5, None, a, t, "x") }

  function Second(b: Window, u: Instant): Op { PairLines(1, Pair("po", "inv"), 5, None, b, u, "y") }

  function FirstRow(a: Window, t: Instant): Row
    requires Sane(a.start)
  {
    Row(1, MatchedLine, 5, PairKeyPrefix(Pair("po", "inv"), a.start), t)
  }

  lemma {:induction false} AfterFirst(a: Window, t: Instant, b: Window)
    requires Sane(a.start)
    ensures After([First(a, t)]) == [FirstRow(a, t)]
    ensures WindowSum([FirstRow(a, t)], 1, MatchedLine, b) == if In(b, t) then 5 else 0
    ensures PrefixSum([FirstRow(a, t)], 1, FirstRow(a, t).key) == 5
  {
    var ops, rows := [First(a, t)], [FirstRow(a, t)];
    assert ops[..0] == [] && rows[..0] == [];
    assert PrefixSum([], 1, FirstRow(a, t).key) == 0;
  }

  lemma {:induction false} FreshFirst(a: Window, t: Instant)
    requires Sane(a.start)
    ensures Fresh([First(a, t)])
  {
    assert [First(a, t)][..0] == [];
  }

  lemma {:induction false} SharedKey(a: Window, t: Instant, b: Window, u: Instant)
    requires Sane(a.start) && Sane(b.start) && a.start.month == b.start.month && a.start.day == b.start.day && a != b
    ensures var ops := [First(a, t), Second(b, u)];
      && Do(After(ops[..1]), ops[1]).result == Duplicate && After(ops) == [FirstRow(a, t)] && Fresh(ops)
      && SumOfLargest(ops, 1, [Pair("po", "inv")], b) == 5
  {
    var ops, p := [First(a, t), Second(b, u)], Pair("po", "inv");
    AfterFirst(a, t, b);
    assert ops[..1] == [First(a, t)] && ops[..0] == [] && [First(a, t)][..0] == [] && [p][..0] == [];
    assert PairKeyPrefix(p, b.start) == FirstRow(a, t).key;
    assert Largest([], 1, p, b) == 0 && Largest(ops[..1], 1, p, b) == 0;
  }

  lemma {:induction false} BothHonest(a: Window, t: Instant, b: Window, u: Instant)
    requires Sane(a.start) && Sane(b.start) && In(a, t) && In(b, u)
    ensures OpsOk([First(a, t), Second(b, u)]) && Honest([First(a, t), Second(b, u)])
  {
  }

  /** The two views of `b` differ after a history over `a` and `b` alone. */
  ghost predicate Breaks(ops: seq<Op>, pairs: seq<Pair>, a: Window, b: Window) {
    && OpsOk(ops) && Honest(ops) && Fresh(ops)
    && Distinct(pairs) && Plain(pairs) && Lists(pairs, ops, 1, b) && Sane(b.start)
    && (forall i :: 0 <= i < |ops| ==> ops[i].PairLines? && (ops[i].window == a || ops[i].window == b))
    && WindowSum(After(ops), 1, MatchedLine, b) != SumOfLargest(ops, 1, pairs, b)
  }

  lemma {:induction false} OverlapBreaks(a: Window, x: Instant, b: Window)
    requires Sane(a.start) && Sane(b.start) && In(a, x) && In(b, x) && a != b
    ensures Breaks([First(a, x)], [], a, b)
  {
    AfterFirst(a, x, b);
    FreshFirst(a, x);
  }

  lemma {:induction false} SharedKeyBreaks(a: Window, t: Instant, b: Window, u: Instant)
    requires Sane(a.start) && Sane(b.start) && In(a, t) && In(b, u) && !In(b, t)
    requires a.start.month == b.start.month && a.start.day == b.start.day
    ensures Breaks([First(a, t), Second(b, u)], [Pair("po", "inv")], a, b)
  {
    AfterFirst(a, t, b);
    SharedKey(a, t, b, u);
    BothHonest(a, t, b, u);
  }

  /** For any two windows in use that are not apart, some history makes the views of `b` differ. */
  lemma {:induction false} NotApartBreaks(a: Window, t: Instant, b: Window, u: Instant)
    requires Sane(a.start) && Sane(b.start) && In(a, t) && In(b, u) && !WindowApart(a, b)
    ensures exists ops, pairs :: Breaks(ops, pairs, a, b)
  {
    if x :| In(a, x) && In(b, x) { OverlapBreaks(a, x, b); }
    else { SharedKeyBreaks(a, t, b, u); }
  }

  /**
   * The key keeps only the date of a window's start: a trial that starts at
   * noon on the first of a month answers `duplicate` for a pair charged that
   * morning under the calendar month, though its own window holds nothing.
   */
  lemma {:induction false} TrialSharesKeys(month: nat, noon: nat, days: nat, ten: nat, one: nat)
    requires month < 120000 && ten < noon <= one && days > 0
    ensures var start := Instant(month, 0, noon);
      var ops := [First(MonthOf(start), Instant(month, 0, ten)),
                  Second(Window(start, Instant(month, days, noon)), Instant(month, 0, one))];
      && OpsOk(ops) && Honest(ops) && Do(After(ops[..1]), ops[1]).result == Duplicate
      && WindowSum(After(ops), 1, MatchedLine, ops[1].window) == 0
      && SumOfLargest(ops, 1, [Pair("po", "inv")], ops[1].window) == 5
  {
    var start := Instant(month, 0, noon);
    var trial := Window(start, Instant(month, days, noon));
    AfterFirst(MonthOf(start), Instant(month, 0, ten), trial);
    SharedKey(MonthOf(start), Instant(month, 0, ten), trial, Instant(month, 0, one));
    BothHonest(MonthOf(start), Instant(month, 0, ten), trial, Instant(month, 0, one));
  }
}
