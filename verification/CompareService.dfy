/** The loops of the compare service, over the database and the queue they update. */
module CompareService {
  import opened CompareModel

  /** A running row older than this is taken for abandoned: ten minutes. */
  const STALE_MS: nat := 10 * 60 * 1000

  predicate Stale(run: Run, now: nat) { run.outcome.Running? && run.startedAt + STALE_MS < now }

  function Swept(run: Run, now: nat): Run { if Stale(run, now) then run.(outcome := Failure) else run }

  /** Positions of the stale rows, as the query returns them. */
  function StaleRows(runs: seq<Run>, now: nat): (r: seq<nat>)
    ensures forall i :: i in r <==> 0 <= i < |runs| && Stale(runs[i], now)
    ensures forall a, b :: 0 <= a < b < |r| ==> r[a] < r[b]
  {
    if runs == [] then []
    else
      var n := |runs| - 1;
      var rest := StaleRows(runs[..n], now);
      assert forall a :: 0 <= a < |rest| ==> rest[a] in rest;
      if Stale(runs[n], now) then rest + [n] else rest
  }

  /** `runs` is `before` with the given rows closed as failed. */
  predicate RowsClosed(before: seq<Run>, runs: seq<Run>, rows: seq<nat>) {
    && |runs| == |before|
    && forall x :: 0 <= x < |before| ==>
      runs[x] == if x in rows then before[x].(outcome := Failure) else before[x]
  }

  lemma {:induction false} CloseOne(before: seq<Run>, runs: seq<Run>, rows: seq<nat>, i: nat)
    requires i < |rows| && rows[i] < |before| && RowsClosed(before, runs, rows[..i])
    ensures RowsClosed(before, runs[rows[i] := runs[rows[i]].(outcome := Failure)], rows[..i + 1])
  {
    assert rows[..i + 1] == rows[..i] + [rows[i]];
  }

  class Service {
    var state: State

    constructor (initial: State)
      ensures state == initial
    {
      state := initial;
    }

    /** One `add`: Bull returns the old job when it still holds the id. */
    method Add(pair: Pair)
      modifies this
      ensures state == AddJob(old(state), pair, old(state).now)
    {
      var id := Auto(pair.k, pair.version);
      if id !in state.jobs {
        var job := Job(Waiting, 1, state.now, Inputs(state, pair.k));
        state := state.(jobs := state.jobs[id := job]);
      }
    }

    method AddAll(pairs: seq<Pair>)
      modifies this
      ensures state == AddJobs(old(state), pairs, old(state).now)
      ensures state.owed == old(state).owed
    {
      ghost var before := state;
      var i := 0;
      while i < |pairs|
        invariant i <= |pairs|
        invariant state == AddJobs(before, pairs[..i], before.now)
        invariant state.now == before.now && state.owed == before.owed
      {
        assert pairs[..i + 1][..i] == pairs[..i];
        Add(pairs[i]);
        i := i + 1;
      }
      assert pairs[..i] == pairs;
    }

    /** `enqueueForDocument`: every pair the document feeds, each added under its versioned id. */
    method EnqueueForDocument(d: DocId)
      requires Valid(state, d)
      modifies this
      ensures state == Enqueue(old(state), d)
    {
      var pairs, deferred := PairsFor(state, d), Deferrals(state, d);
      state := state.(now := state.now + 1);
      AddAll(pairs);
      state := state.(owed := state.owed - {d}, deferred := deferred);
    }

    /** `reconcile`: exactly the stale running rows become failed; nothing else changes. */
    method Reconcile(now: nat) returns (closed: seq<nat>)
      modifies this
      ensures closed == StaleRows(old(state).runs, now)
      ensures state == old(state).(runs := state.runs) && |state.runs| == |old(state).runs|
      ensures forall i :: 0 <= i < |state.runs| ==>
        state.runs[i] == Swept(old(state).runs[i], now)
    {
      closed := StaleRows(state.runs, now);
      ghost var before := state.runs;
      var i := 0;
      while i < |closed|
        invariant i <= |closed|
        invariant state == old(state).(runs := state.runs) && RowsClosed(before, state.runs, closed[..i])
      {
        assert closed[i] in closed;
        CloseOne(before, state.runs, closed, i);
        state := state.(runs := state.runs[closed[i] := state.runs[closed[i]].(outcome := Failure)]);
        i := i + 1;
      }
      assert closed[..i] == closed;
    }
  }

  // ----- the sweep is a run of the model's own steps

  function Sweeps(rows: seq<nat>): seq<Step> { seq(|rows|, i requires 0 <= i < |rows| => DoSweep(rows[i])) }

  /** Closing distinct running rows one by one is a trace of sweeps; it touches rows and clock alone. */
  lemma {:induction false} SweepTrace(s: State, rows: seq<nat>, last: State)
    requires forall i :: 0 <= i < |rows| ==> rows[i] < |s.runs| && s.runs[rows[i]].outcome.Running?
    requires forall a, b :: 0 <= a < b < |rows| ==> rows[a] < rows[b]
    requires |last.runs| == |s.runs| && last == s.(now := s.now + |rows|, runs := last.runs)
    requires forall i :: 0 <= i < |s.runs| ==>
      last.runs[i] == if i in rows then s.runs[i].(outcome := Failure) else s.runs[i]
    ensures Trace(s, Sweeps(rows), last)
    decreases |rows|
  {
    var steps := Sweeps(rows);
    if rows == [] {
      assert last.runs == s.runs;
    } else {
      var next, rest := Sweep(s, rows[0]), rows[1..];
      assert steps[0] == DoSweep(rows[0]) && steps[1..] == Sweeps(rest);
      assert forall i :: i in rows <==> i == rows[0] || i in rest;
      assert forall i :: 0 <= i < |rest| ==> rest[i] == rows[i + 1] && rest[i] != rows[0];
      SweepTrace(next, rest, last);
    }
  }
}
