/** When a valid event is acknowledged without being applied, and that it never is. */
module WebhookLoss {
  import opened Wrappers
  import opened WebhookModel
  import opened WebhookSafety

  /** The workspace's row is newer, or of another subscription that is still entitled. */
  predicate PassedOver(rows: map<string, Row>, w: string, row: Row, now: int) {
    Stale(Current(rows, w), row) || Occupied(Current(rows, w), row, now)
  }

  /**
   * A commit in any interleaving: the event is acknowledged unapplied exactly
   * when the row in place passes it over, and applied exactly when the row does
   * not and no other workspace holds the subscription.
   */
  lemma {:induction false} CommitExactly(s: State, id: nat, now: int)
    requires CanCommit(s, id)
    ensures var a, r := s.attempts[id], Commit(s, id, now);
      var w := a.e.workspace.value;
      && (PassedOver(s.rows, w, a.row, now) ==>
            r.rows == s.rows && r.rows != s.rows[w := a.row] && r.events[a.e].processed)
      && (!PassedOver(s.rows, w, a.row, now) ==>
            if Elsewhere(s.rows, a.e) then r.rows == s.rows && r.events[a.e].processed == s.events[a.e].processed
            else r.rows == s.rows[w := a.row] && r.events[a.e].processed)
  {
    var a := s.attempts[id];
    var w := a.e.workspace.value;
    if PassedOver(s.rows, w, a.row, now) { assert s.rows[w] != a.row && s.rows[w := a.row][w] == a.row; }
  }

  /** A fresh event that passes every check, whatever subscription the workspace has. */
  ghost predicate Passes(s: State, e: Event, env: Env, row: Row) {
    && e.kindKnown && Decide(env, e, Elsewhere(s.rows, e)) == Accept(row) && e.workspace.Some?
    && (e in s.events ==> !s.events[e].processed)
  }

  lemma {:induction false} PassesChecks(s: State, e: Event, env: Env, row: Row)
    requires s.attempts == map[] && Passes(s, e, env, row)
    ensures !Elsewhere(s.rows, e) && CanCheck(Receive(s, 0, e), 0)
    ensures Check(Receive(s, 0, e), 0, env) == Receive(s, 0, e).(attempts := map[0 := Checked(e, row)])
  {
    AcceptedExactly(env, e, Elsewhere(s.rows, e), row);
  }

  /**
   * A delivery of such an event handled alone is acknowledged either way: it is
   * lost exactly when the row in place passes it over, and applied otherwise.
   */
  lemma {:induction false} LostExactly(s: State, e: Event, env: Env, row: Row, now: int)
    requires s.attempts == map[] && Passes(s, e, env, row)
    ensures var r, w := Handled(s, e, env, now), e.workspace.value;
      && Closed(r, e)
      && r.rows == (if PassedOver(s.rows, w, row, now) then s.rows else s.rows[w := row])
      && (r.rows != s.rows[w := row] <==> PassedOver(s.rows, w, row, now))
  {
    PassesChecks(s, e, env, row);
    var c := Check(Receive(s, 0, e), 0, env);
    CommitExactly(c, 0, now);
    CommitMoves(c, 0, now);
  }

  // ----- for good

  /** Processed, and no attempt holds the event any more. */
  ghost predicate Closed(s: State, e: Event) {
    e in s.events && s.events[e].processed && forall id :: id in s.attempts ==> s.attempts[id].e != e
  }

  lemma {:induction false} StepClosed(s: State, step: Step, e: Event)
    requires Closed(s, e) && Enabled(s, step)
    ensures Closed(Apply(s, step), e)
  {
    match step
    case DoReceive(_, _) =>
    case DoCheck(id, env) => CheckMoves(s, id, env);
    case DoCommit(id, now) => CommitMoves(s, id, now);
    case DoCrash(_) =>
  }

  /** Once closed, an event is never attempted again, redelivered or not, so no row is ever written for it. */
  lemma {:induction false} ClosedForGood(s: State, steps: seq<Step>, last: State, e: Event)
    requires Closed(s, e) && Trace(s, steps, last)
    ensures Closed(last, e)
    decreases |steps|
  {
    if steps != [] {
      StepClosed(s, steps[0], e);
      ClosedForGood(Apply(s, steps[0]), steps[1..], last, e);
    }
  }
}
