/** What every run of deliveries keeps, and where the deliveries of one subscription end. */
module WebhookSafety {
  import opened Wrappers
  import opened WebhookModel

  // ----- what the steps change

  /** Only the attempt's own event is touched, and a processed one stays processed. */
  ghost predicate EventsMove(s: State, r: State, e: Event) {
    && r.events.Keys == s.events.Keys && e in s.events
    && (forall x :: x in s.events && x != e ==> r.events[x] == s.events[x])
    && (s.events[e].processed ==> r.events[e].processed)
  }

  /** The row of the workspace becomes the attempt's. */
  ghost predicate Applied(s: State, r: State, a: Attempt, now: int)
    requires a.Checked? && a.e.workspace.Some?
  {
    var w := a.e.workspace.value;
    && r.rows == s.rows[w := a.row] && !Elsewhere(s.rows, a.e) && a.e in r.events && r.events[a.e].processed
    && !Stale(Current(s.rows, w), a.row) && !Occupied(Current(s.rows, w), a.row, now)
  }

  lemma {:induction false} FinishMoves(s: State, id: nat, processed: bool, error: Option<string>)
    requires id in s.attempts && s.attempts[id].e in s.events
    ensures var r, e := Finish(s, id, processed, error), s.attempts[id].e;
      EventsMove(s, r, e) && (processed ==> r.events[e].processed)
  {
  }

  lemma {:induction false} CommitMoves(s: State, id: nat, now: int)
    requires CanCommit(s, id)
    ensures var a, r := s.attempts[id], Commit(s, id, now);
      && EventsMove(s, r, a.e) && r.attempts == Without(s.attempts, id)
      && (r.rows == s.rows || Applied(s, r, a, now))
  {
    FinishMoves(s, id, true, Some("stale event"));
    FinishMoves(s, id, true, Some("workspace already has an active subscription"));
    FinishMoves(s, id, false, Some("unique violation"));
    FinishMoves(s, id, true, None);
  }

  lemma {:induction false} CheckMoves(s: State, id: nat, env: Env)
    requires CanCheck(s, id)
    ensures var e, r := s.attempts[id].e, Check(s, id, env);
      && EventsMove(s, r, e) && r.rows == s.rows
      && (r.attempts == Without(s.attempts, id)
          || (r.events == s.events && Decide(env, e, Elsewhere(s.rows, e)).Accept?
              && r.attempts == s.attempts[id := Checked(e, Decide(env, e, Elsewhere(s.rows, e)).row)]))
  {
  }

  // ----- on every run

  /** The values a checked attempt is about to write come from its event. */
  ghost predicate AttemptOk(a: Attempt) {
    a.Checked? ==>
      a.e.workspace.Some? && a.row.subscription == a.e.subscription && a.e.updatedAt == Some(a.row.lsUpdatedAt)
  }

  ghost predicate OneRowEach(rows: map<string, Row>) {
    forall v, w :: v in rows && w in rows && v != w ==> rows[v].subscription != rows[w].subscription
  }

  ghost predicate Sound(s: State) {
    && (forall id :: id in s.attempts ==> AttemptOk(s.attempts[id]) && s.attempts[id].e in s.events)
    && OneRowEach(s.rows)
  }

  lemma {:induction false} CommitSound(s: State, id: nat, now: int)
    requires Sound(s) && CanCommit(s, id)
    ensures Sound(Commit(s, id, now))
  {
    assert AttemptOk(s.attempts[id]);
  }

  lemma {:induction false} StepSound(s: State, step: Step)
    requires Sound(s) && Enabled(s, step)
    ensures Sound(Apply(s, step))
  {
    match step
    case DoReceive(_, _) =>
    case DoCheck(_, _) =>
    case DoCommit(id, now) => CommitSound(s, id, now);
    case DoCrash(_) =>
  }

  /** A subscription is the row of at most one workspace, whatever is delivered. */
  lemma {:induction false} SubscriptionsUnshared(steps: seq<Step>, last: State)
    requires Trace(Empty, steps, last)
    ensures OneRowEach(last.rows)
  {
    SoundAlong(Empty, steps, last);
  }

  lemma {:induction false} SoundAlong(s: State, steps: seq<Step>, last: State)
    requires Sound(s) && Trace(s, steps, last)
    ensures Sound(last)
    decreases |steps|
  {
    if steps != [] {
      StepSound(s, steps[0]);
      SoundAlong(Apply(s, steps[0]), steps[1..], last);
    }
  }

  /** Rows are never dropped and never go back to older store data. */
  lemma {:induction false} NeverOlder(s: State, steps: seq<Step>, last: State, w: string)
    requires Trace(s, steps, last) && w in s.rows
    ensures w in last.rows && s.rows[w].lsUpdatedAt <= last.rows[w].lsUpdatedAt
    decreases |steps|
  {
    if steps != [] {
      var next := Apply(s, steps[0]);
      assert w in next.rows && s.rows[w].lsUpdatedAt <= next.rows[w].lsUpdatedAt;
      NeverOlder(next, steps[1..], last, w);
    }
  }

  /** Nothing under way or to come is of this subscription. */
  ghost predicate Silent(s: State, steps: seq<Step>, subscription: string) {
    && (forall id :: id in s.attempts ==> s.attempts[id].e.subscription != subscription)
    && forall i :: 0 <= i < |steps| && steps[i].DoReceive? ==> steps[i].e.subscription != subscription
  }

  /** While a row is entitled, only events of its own subscription can change it. */
  lemma {:induction false} EntitledRowStays(s: State, steps: seq<Step>, last: State, w: string, until: int)
    requires Sound(s) && Trace(s, steps, last) && w in s.rows && IsEntitled(s.rows[w], until)
    requires forall i :: 0 <= i < |steps| && steps[i].DoCommit? ==> steps[i].now <= until
    requires Silent(s, steps, s.rows[w].subscription)
    ensures w in last.rows && last.rows[w] == s.rows[w]
    decreases |steps|
  {
    if steps != [] {
      var next := Apply(s, steps[0]);
      StepSound(s, steps[0]);
      OneStepStays(s, steps[0], w, until);
      forall i | 0 <= i < |steps| - 1 && steps[1..][i].DoReceive?
        ensures steps[1..][i].e.subscription != s.rows[w].subscription
      {
        assert steps[1..][i] == steps[i + 1];
      }
      assert forall i :: 0 <= i < |steps| - 1 && steps[1..][i].DoCommit? ==> steps[1..][i] == steps[i + 1];
      EntitledRowStays(next, steps[1..], last, w, until);
    }
  }

  lemma {:induction false} CommitStays(s: State, id: nat, now: int, w: string, until: int)
    requires Sound(s) && CanCommit(s, id) && w in s.rows && IsEntitled(s.rows[w], until) && now <= until
    requires s.attempts[id].e.subscription != s.rows[w].subscription
    ensures w in Commit(s, id, now).rows && Commit(s, id, now).rows[w] == s.rows[w]
  {
    CommitMoves(s, id, now);
    assert AttemptOk(s.attempts[id]);
  }

  lemma {:induction false} OneStepStays(s: State, step: Step, w: string, until: int)
    requires Sound(s) && Enabled(s, step) && w in s.rows && IsEntitled(s.rows[w], until)
    requires step.DoCommit? ==> step.now <= until
    requires step.DoReceive? ==> step.e.subscription != s.rows[w].subscription
    requires forall id :: id in s.attempts ==> s.attempts[id].e.subscription != s.rows[w].subscription
    ensures var r := Apply(s, step);
      && w in r.rows && r.rows[w] == s.rows[w]
      && forall id :: id in r.attempts ==> r.attempts[id].e.subscription != s.rows[w].subscription
  {
    match step
    case DoCommit(id, now) => CommitStays(s, id, now, w, until); CommitMoves(s, id, now);
    case DoCheck(id, env) => CheckMoves(s, id, env);
    case _ =>
  }

  // ----- the deliveries of one subscription

  /** The event passes every check under this configuration and is bound to this workspace. */
  ghost predicate Valid(env: Env, e: Event, w: string) {
    e.kindKnown && e.workspace == Some(w) && Decide(env, e, false).Accept?
  }

  /** Events that concern the subscription or the workspace are valid events of that subscription for it. */
  ghost predicate Concerns(env: Env, e: Event, w: string, subscription: string) {
    (e.subscription == subscription || e.workspace == Some(w)) ==> e.subscription == subscription && Valid(env, e, w)
  }

  ghost predicate StepConcerns(step: Step, env: Env, w: string, subscription: string) {
    match step
    case DoReceive(_, e) => Concerns(env, e, w, subscription)
    case DoCheck(_, used) => used == env
    case _ => true
  }

  /** The row is that of a processed event at least as new as every other processed one. */
  ghost predicate RowFromEvents(s: State, env: Env, w: string, subscription: string) {
    && (w in s.rows ==> exists e :: Written(s, e, env, w, subscription))
    && forall e :: e in s.events && s.events[e].processed && e.subscription == subscription ==>
         w in s.rows && e.updatedAt.Some? && e.updatedAt.value <= s.rows[w].lsUpdatedAt
  }

  ghost predicate Written(s: State, e: Event, env: Env, w: string, subscription: string)
    requires w in s.rows
  {
    && e in s.events && s.events[e].processed && e.subscription == subscription && Valid(env, e, w)
    && Decide(env, e, false) == Accept(s.rows[w]) && e.updatedAt == Some(s.rows[w].lsUpdatedAt)
  }

  ghost predicate AttemptsValid(s: State, env: Env, w: string, subscription: string) {
    forall id :: id in s.attempts ==>
      && Concerns(env, s.attempts[id].e, w, subscription)
      && (s.attempts[id].Checked? && s.attempts[id].e.subscription == subscription ==>
            Decide(env, s.attempts[id].e, false) == Accept(s.attempts[id].row))
  }

  ghost predicate Tracked(s: State, env: Env, w: string, subscription: string) {
    && Sound(s)
    && (forall v :: v in s.rows && s.rows[v].subscription == subscription ==> v == w)
    && (w in s.rows ==> s.rows[w].subscription == subscription)
    && RowFromEvents(s, env, w, subscription)
    && AttemptsValid(s, env, w, subscription)
  }

  lemma {:induction false} NotElsewhere(s: State, env: Env, w: string, subscription: string, e: Event)
    requires Tracked(s, env, w, subscription) && e.subscription == subscription && e.workspace == Some(w)
    ensures !Elsewhere(s.rows, e)
  {
  }

  lemma {:induction false} DecidedFields(env: Env, e: Event)
    requires Decide(env, e, false).Accept?
    ensures e.workspace.Some? && e.updatedAt == Some(Decide(env, e, false).row.lsUpdatedAt)
    ensures Decide(env, e, false).row.subscription == e.subscription
  {
  }

  /** The same row, and no event of the subscription newly processed. */
  lemma {:induction false} RowKept(s: State, r: State, env: Env, w: string, subscription: string)
    requires RowFromEvents(s, env, w, subscription) && r.rows == s.rows
    requires forall e :: e in s.events ==> e in r.events && (s.events[e].processed ==> r.events[e].processed)
    requires forall e :: e in r.events && r.events[e].processed && e.subscription == subscription ==>
      e in s.events && s.events[e].processed
    ensures RowFromEvents(r, env, w, subscription)
  {
    if w in s.rows {
      var e :| Written(s, e, env, w, subscription);
      assert Written(r, e, env, w, subscription);
    }
  }

  lemma {:induction false} ReceiveTracked(s: State, id: nat, e: Event, env: Env, w: string, subscription: string)
    requires Tracked(s, env, w, subscription) && id !in s.attempts && Concerns(env, e, w, subscription)
    ensures Tracked(Receive(s, id, e), env, w, subscription)
  {
    StepSound(s, DoReceive(id, e));
    RowKept(s, Receive(s, id, e), env, w, subscription);
  }

  lemma {:induction false} CheckTracked(s: State, id: nat, env: Env, w: string, subscription: string)
    requires Tracked(s, env, w, subscription) && CanCheck(s, id)
    ensures Tracked(Check(s, id, env), env, w, subscription)
  {
    StepSound(s, DoCheck(id, env));
    if s.attempts[id].e.subscription == subscription {
      OwnCheck(s, id, env, w, subscription);
    } else {
      CheckMoves(s, id, env);
    }
    RowKept(s, Check(s, id, env), env, w, subscription);
  }

  /** A valid event of the subscription always passes. */
  lemma {:induction false} OwnCheck(s: State, id: nat, env: Env, w: string, subscription: string)
    requires Tracked(s, env, w, subscription) && CanCheck(s, id) && s.attempts[id].e.subscription == subscription
    ensures var e := s.attempts[id].e;
      && Decide(env, e, false).Accept?
      && Check(s, id, env) == s.(attempts := s.attempts[id := Checked(e, Decide(env, e, false).row)])
  {
    var e := s.attempts[id].e;
    assert Concerns(env, e, w, subscription);
    NotElsewhere(s, env, w, subscription, e);
  }

  lemma {:induction false} CrashTracked(s: State, id: nat, env: Env, w: string, subscription: string)
    requires Tracked(s, env, w, subscription) && id in s.attempts
    ensures Tracked(Crash(s, id), env, w, subscription)
  {
    StepSound(s, DoCrash(id));
    RowKept(s, Crash(s, id), env, w, subscription);
  }

  /** A commit for some other subscription, and so some other workspace. */
  lemma {:induction false} OtherCommitTracked(s: State, id: nat, now: int, env: Env, w: string, subscription: string)
    requires Tracked(s, env, w, subscription) && CanCommit(s, id) && s.attempts[id].e.subscription != subscription
    ensures Tracked(Commit(s, id, now), env, w, subscription)
  {
    var r := Commit(s, id, now);
    CommitSound(s, id, now);
    CommitMoves(s, id, now);
    OtherCommitRows(s, r, id, env, w, subscription);
    if w in s.rows {
      var x :| Written(s, x, env, w, subscription);
      assert Written(r, x, env, w, subscription);
    }
  }

  lemma {:induction false} OtherCommitRows(s: State, r: State, id: nat, env: Env, w: string, subscription: string)
    requires Tracked(s, env, w, subscription) && CanCommit(s, id) && s.attempts[id].e.subscription != subscription
    requires r.rows == s.rows || r.rows == s.rows[s.attempts[id].e.workspace.value := s.attempts[id].row]
    ensures w in r.rows <==> w in s.rows
    ensures w in s.rows ==> r.rows[w] == s.rows[w]
    ensures forall v :: v in r.rows && r.rows[v].subscription == subscription ==> v == w
  {
    assert AttemptOk(s.attempts[id]) && Concerns(env, s.attempts[id].e, w, subscription);
  }

  /** A commit for the subscription: the row becomes the event's, or was already newer. */
  lemma {:induction false} OwnCommitTracked(s: State, id: nat, now: int, env: Env, w: string, subscription: string)
    requires Tracked(s, env, w, subscription) && CanCommit(s, id) && s.attempts[id].e.subscription == subscription
    ensures Tracked(Commit(s, id, now), env, w, subscription) && Commit(s, id, now).events[s.attempts[id].e].processed
  {
    var e, row, r := s.attempts[id].e, s.attempts[id].row, Commit(s, id, now);
    CommitSound(s, id, now);
    assert Concerns(env, e, w, subscription);
    DecidedFields(env, e);
    NotElsewhere(s, env, w, subscription, e);
    if Stale(Current(s.rows, w), row) {
      var x :| Written(s, x, env, w, subscription);
      assert Written(r, x, env, w, subscription);
    } else {
      assert r.rows == s.rows[w := row];
      assert Written(r, e, env, w, subscription);
    }
  }

  lemma {:induction false} StepTracked(s: State, step: Step, env: Env, w: string, subscription: string)
    requires Tracked(s, env, w, subscription) && Enabled(s, step) && StepConcerns(step, env, w, subscription)
    ensures Tracked(Apply(s, step), env, w, subscription)
  {
    match step
    case DoReceive(id, e) => ReceiveTracked(s, id, e, env, w, subscription);
    case DoCheck(id, _) => CheckTracked(s, id, env, w, subscription);
    case DoCrash(id) => CrashTracked(s, id, env, w, subscription);
    case DoCommit(id, now) =>
      if s.attempts[id].e.subscription == subscription { OwnCommitTracked(s, id, now, env, w, subscription); }
      else { OtherCommitTracked(s, id, now, env, w, subscription); }
  }

  lemma {:induction false} TrackedAlong(
    s: State, steps: seq<Step>, last: State, env: Env, w: string, subscription: string)
    requires Tracked(s, env, w, subscription) && Trace(s, steps, last)
    requires forall i :: 0 <= i < |steps| ==> StepConcerns(steps[i], env, w, subscription)
    ensures Tracked(last, env, w, subscription)
    decreases |steps|
  {
    if steps != [] {
      StepTracked(s, steps[0], env, w, subscription);
      forall i | 0 <= i < |steps[1..]| ensures StepConcerns(steps[1..][i], env, w, subscription) {
        assert steps[1..][i] == steps[i + 1];
      }
      TrackedAlong(Apply(s, steps[0]), steps[1..], last, env, w, subscription);
    }
  }

  ghost predicate Of(s: State, e: Event, subscription: string) { e in s.events && e.subscription == subscription }

  /** Events of the subscription that share the newest stamp decide the same row. */
  ghost predicate TiesAgree(s: State, env: Env, subscription: string, newest: Event) {
    forall e :: Of(s, e, subscription) && e.updatedAt == newest.updatedAt ==>
         Decide(env, e, false) == Decide(env, newest, false)
  }

  /** A processed event of the subscription, and none of its events is newer. */
  ghost predicate Newest(s: State, subscription: string, newest: Event) {
    && Of(s, newest, subscription) && s.events[newest].processed && newest.updatedAt.Some?
    && forall e :: Of(s, e, subscription) && e.updatedAt.Some? ==> e.updatedAt.value <= newest.updatedAt.value
  }

  /**
   * Any order of deliveries, redeliveries, interleaved and crashed attempts:
   * once the newest event is processed, the row is what that event alone would
   * have written, if those that share its stamp would write the same.
   */
  lemma {:induction false} Converges(
    steps: seq<Step>, last: State, env: Env, w: string, subscription: string, newest: Event)
    requires Trace(Empty, steps, last)
    requires forall i :: 0 <= i < |steps| ==> StepConcerns(steps[i], env, w, subscription)
    requires Newest(last, subscription, newest) && TiesAgree(last, env, subscription, newest)
    ensures w in last.rows && Decide(env, newest, false) == Accept(last.rows[w])
  {
    TrackedAlong(Empty, steps, last, env, w, subscription);
    var e :| Written(last, e, env, w, subscription);
    assert Of(last, e, subscription) && e.updatedAt == newest.updatedAt;
  }

  // ----- a delivery that is not cut short

  /** The event is processed, or the delivery is still being handled. */
  ghost predicate OnItsWay(s: State, id: nat, e: Event) {
    e in s.events && (s.events[e].processed || (id in s.attempts && s.attempts[id].e == e))
  }

  lemma {:induction false} StepOnItsWay(
    s: State, step: Step, id: nat, e: Event, env: Env, w: string, subscription: string)
    requires Tracked(s, env, w, subscription) && Enabled(s, step) && StepConcerns(step, env, w, subscription)
    requires OnItsWay(s, id, e) && e.subscription == subscription && step != DoCrash(id)
    ensures OnItsWay(Apply(s, step), id, e)
  {
    match step
    case DoCheck(x, _) =>
      CheckMoves(s, x, env);
      if x == id && s.attempts[id].e == e { OwnCheck(s, id, env, w, subscription); }
    case DoCommit(x, now) =>
      CommitMoves(s, x, now);
      if x == id && s.attempts[id].e == e { OwnCommitTracked(s, id, now, env, w, subscription); }
    case _ =>
  }

  lemma {:induction false} OnItsWayAlong(
    s: State, steps: seq<Step>, last: State, id: nat, e: Event, env: Env, w: string, subscription: string)
    requires Tracked(s, env, w, subscription) && Trace(s, steps, last) && e.subscription == subscription
    requires forall i :: 0 <= i < |steps| ==> StepConcerns(steps[i], env, w, subscription) && steps[i] != DoCrash(id)
    requires OnItsWay(s, id, e)
    ensures OnItsWay(last, id, e)
    decreases |steps|
  {
    if steps != [] {
      StepTracked(s, steps[0], env, w, subscription);
      StepOnItsWay(s, steps[0], id, e, env, w, subscription);
      assert forall i :: 0 <= i < |steps[1..]| ==> steps[1..][i] == steps[i + 1];
      OnItsWayAlong(Apply(s, steps[0]), steps[1..], last, id, e, env, w, subscription);
    }
  }

  /**
   * Among any other deliveries: one received at step `at` of a run, for a valid
   * event of the subscription, ends by processing it unless it crashes.
   */
  lemma {:induction false} DeliveryProcesses(
    s: State, steps: seq<Step>, last: State, at: nat, id: nat, e: Event, env: Env, w: string, subscription: string)
    requires Tracked(s, env, w, subscription) && Trace(s, steps, last) && e.subscription == subscription
    requires forall i :: 0 <= i < |steps| ==> StepConcerns(steps[i], env, w, subscription)
    requires at < |steps| && steps[at] == DoReceive(id, e)
    requires forall i :: at < i < |steps| ==> steps[i] != DoCrash(id)
    ensures OnItsWay(last, id, e)
    decreases |steps|
  {
    StepTracked(s, steps[0], env, w, subscription);
    assert forall i :: 0 <= i < |steps[1..]| ==> steps[1..][i] == steps[i + 1];
    if at == 0 {
      OnItsWayAlong(Receive(s, id, e), steps[1..], last, id, e, env, w, subscription);
    } else {
      DeliveryProcesses(Apply(s, steps[0]), steps[1..], last, at - 1, id, e, env, w, subscription);
    }
  }

  // ----- when the order of two deliveries shows

  ghost predicate Idle(s: State, env: Env, w: string, subscription: string) {
    Tracked(s, env, w, subscription) && s.attempts == map[]
  }

  /** A valid event of the subscription that is yet to be processed. */
  ghost predicate Due(s: State, e: Event, env: Env, w: string, subscription: string) {
    e.subscription == subscription && Valid(env, e, w) && (e in s.events ==> !s.events[e].processed)
  }

  predicate Newer(rows: map<string, Row>, w: string, stamp: int) { w in rows && rows[w].lsUpdatedAt > stamp }

  function Put(rows: map<string, Row>, w: string, row: Row): map<string, Row> {
    if Newer(rows, w, row.lsUpdatedAt) then rows else rows[w := row]
  }

  /** Handled alone, a due event leaves its row, unless the row in place is newer. */
  lemma {:induction false} HandledRow(s: State, e: Event, env: Env, w: string, subscription: string, now: int)
    requires Idle(s, env, w, subscription) && Due(s, e, env, w, subscription)
    ensures var r, row := Handled(s, e, env, now), Decide(env, e, false).row;
      && r.attempts == map[]
      && r.rows == Put(s.rows, w, row)
      && e in r.events && r.events.Keys == s.events.Keys + {e}
      && forall x :: x in s.events && x != e ==> r.events[x] == s.events[x]
  {
    var got, row := Receive(s, 0, e), Decide(env, e, false).row;
    DecidedFields(env, e);
    NotElsewhere(s, env, w, subscription, e);
    var c := Check(got, 0, env);
    assert c == got.(attempts := got.attempts[0 := Checked(e, row)]);
    assert !Occupied(Current(c.rows, w), row, now);
    assert Without(c.attempts, 0) == map[];
  }

  lemma {:induction false} HandledIdle(s: State, e: Event, env: Env, w: string, subscription: string, now: int)
    requires Idle(s, env, w, subscription) && Due(s, e, env, w, subscription)
    ensures Idle(Handled(s, e, env, now), env, w, subscription)
  {
    var steps := HandledIsTrace(s, e, env, now);
    HandledRow(s, e, env, w, subscription, now);
    TrackedAlong(s, steps, Handled(s, e, env, now), env, w, subscription);
  }

  /** The rows after two deliveries, each handled alone. */
  ghost predicate EndWith(s: State, a: Event, b: Event, env: Env, now: int, rows: map<string, Row>) {
    && s.attempts == map[]
    && var once := Handled(s, a, env, now);
       once.attempts == map[] && Handled(once, b, env, now).rows == rows
  }

  lemma {:induction false} TwoHandled(s: State, a: Event, b: Event, env: Env, w: string, subscription: string, now: int)
    requires Idle(s, env, w, subscription) && Due(s, a, env, w, subscription) && Due(s, b, env, w, subscription)
    requires a != b
    ensures var ra, rb := Decide(env, a, false).row, Decide(env, b, false).row;
      EndWith(s, a, b, env, now, Put(Put(s.rows, w, ra), w, rb))
  {
    HandledRow(s, a, env, w, subscription, now);
    HandledIdle(s, a, env, w, subscription, now);
    var once := Handled(s, a, env, now);
    assert Due(once, b, env, w, subscription);
    HandledRow(once, b, env, w, subscription, now);
  }

  lemma {:induction false} PutTwice(rows: map<string, Row>, w: string, ra: Row, rb: Row)
    ensures var ab, ba := Put(Put(rows, w, ra), w, rb), Put(Put(rows, w, rb), w, ra);
      ab == ba <==> ra.lsUpdatedAt != rb.lsUpdatedAt || ra == rb || Newer(rows, w, ra.lsUpdatedAt)
    ensures ra.lsUpdatedAt == rb.lsUpdatedAt && !Newer(rows, w, ra.lsUpdatedAt) ==>
      Put(Put(rows, w, ra), w, rb) == rows[w := rb]
  {
    assert rows[w := ra][w := rb] == rows[w := rb] && rows[w := rb][w := ra] == rows[w := ra];
    assert rows[w := ra][w] == ra && rows[w := rb][w] == rb;
  }

  /** Two due events with one stamp, the row in place not newer: the row ends as that of whichever came last. */
  lemma {:induction false} EqualStampsKeepTheLast(
    s: State, a: Event, b: Event, env: Env, w: string, subscription: string, now: int)
    requires Idle(s, env, w, subscription) && Due(s, a, env, w, subscription) && Due(s, b, env, w, subscription)
    requires a != b
    requires a.updatedAt == b.updatedAt && !Newer(s.rows, w, a.updatedAt.value)
    ensures EndWith(s, a, b, env, now, s.rows[w := Decide(env, b, false).row])
  {
    DecidedFields(env, a);
    DecidedFields(env, b);
    TwoHandled(s, a, b, env, w, subscription, now);
    PutTwice(s.rows, w, Decide(env, a, false).row, Decide(env, b, false).row);
  }

  /**
   * Two due events of one subscription, delivered in either order: the rows
   * agree exactly when the stamps differ, or the two decide the same row, or
   * the row in place is newer than both.
   */
  lemma {:induction false} OrderShowsExactly(
    s: State, a: Event, b: Event, env: Env, w: string, subscription: string, now: int,
    ab: map<string, Row>, ba: map<string, Row>)
    requires Idle(s, env, w, subscription) && Due(s, a, env, w, subscription) && Due(s, b, env, w, subscription)
    requires a != b
    requires EndWith(s, a, b, env, now, ab) && EndWith(s, b, a, env, now, ba)
    ensures ab == ba
       <==> (|| a.updatedAt != b.updatedAt
             || Decide(env, a, false) == Decide(env, b, false)
             || Newer(s.rows, w, a.updatedAt.value))
  {
    DecidedFields(env, a);
    DecidedFields(env, b);
    TwoHandled(s, a, b, env, w, subscription, now);
    TwoHandled(s, b, a, env, w, subscription, now);
    PutTwice(s.rows, w, Decide(env, a, false).row, Decide(env, b, false).row);
  }
}
