/**
 * The subscription webhook: deliveries of store events, each recorded once by
 * its body, checked, and applied to the workspace's one row in a transaction.
 * Attempts interleave, crash and are retried.
 */
module WebhookModel {
  import opened Wrappers

  /**
   * The parts of a body the service looks at. `bound`: the workspace binding
   * signature verifies. `workspace` and `quantity` are absent unless well-formed.
   * Bodies are told apart by their hash, so the event stands for its hash too.
   */
  datatype Event = Event(
    kindKnown: bool,
    subscription: string,
    store: string,
    variant: string,
    workspace: Option<string>,
    bound: bool,
    updatedAt: Option<int>,
    quantity: Option<int>,
    status: string,
    endsAt: Option<int>,
    rest: string)

  datatype Plan = Solo | Team

  /** A workspace's subscription row. */
  datatype Row = Row(
    subscription: string, plan: Plan, seats: int, status: string, endsAt: Option<int>, lsUpdatedAt: int, rest: string)

  /** The configuration, and the workspaces that exist. Blank settings are absent. */
  datatype Env = Env(store: Option<string>, solo: Option<string>, team: Option<string>, workspaces: set<string>)

  const SEATS_MIN := 1
  const SEATS_MAX := 25

  function PlanForVariant(env: Env, variant: string): Option<Plan> {
    if variant == "" then None
    else if env.solo == Some(variant) then Some(Solo)
    else if env.team == Some(variant) then Some(Team)
    else None
  }

  predicate IsEntitled(row: Row, now: int) {
    || row.status == "active" || row.status == "past_due" || row.status == "on_trial"
    || (row.status == "cancelled" && row.endsAt.Some? && now < row.endsAt.value)
  }

  // ----- the checks before the transaction

  datatype Verdict = Reject(reason: string) | Retry(reason: string) | Accept(row: Row)

  predicate SeatsOk(quantity: Option<int>) { quantity.Some? && SEATS_MIN <= quantity.value <= SEATS_MAX }

  predicate HasValidBinding(e: Event) { e.workspace.Some? && e.bound }

  function Values(e: Event, plan: Plan): Row
    requires e.updatedAt.Some? && (plan.Team? ==> e.quantity.Some?)
  {
    Row(e.subscription, plan, if plan.Team? then e.quantity.value else 1, e.status, e.endsAt, e.updatedAt.value, e.rest)
  }

  /** From the plan on; `elsewhere`: another workspace holds the subscription. */
  function CheckBinding(env: Env, e: Event, plan: Plan, elsewhere: bool): Verdict {
    if e.workspace.None? then Reject("missing workspace_id in custom_data")
    else if !e.bound then Reject("workspace binding signature missing or invalid")
    else if e.workspace.value !in env.workspaces then Reject("unknown workspace")
    else if elsewhere then Reject("subscription belongs to another workspace")
    else if e.updatedAt.None? then Retry("updated_at is missing or invalid")
    else if plan.Team? && !SeatsOk(e.quantity) then Reject("invalid quantity for the team plan")
    else Accept(Values(e, plan))
  }

  function Decide(env: Env, e: Event, elsewhere: bool): Verdict {
    if env.store.None? then Retry("store id is not configured")
    else if e.store != env.store.value then Reject("store_id mismatch")
    else
      var plan := PlanForVariant(env, e.variant);
      if plan.None? && !HasValidBinding(e) && env.solo.Some? && env.team.Some? then Reject("foreign event")
      else if plan.None? then Retry("unknown variant")
      else CheckBinding(env, e, plan.value, elsewhere)
  }

  /**
   * What an accepted event is: ours, bound to an existing workspace of its own,
   * dated, with a seat count that makes sense.
   */
  lemma {:induction false} AcceptedExactly(env: Env, e: Event, elsewhere: bool, row: Row)
    ensures Decide(env, e, elsewhere) == Accept(row) <==>
      && env.store == Some(e.store) && e.variant != "" && (env.solo == Some(e.variant) || env.team == Some(e.variant))
      && e.workspace.Some? && e.bound && e.workspace.value in env.workspaces && !elsewhere
      && e.updatedAt == Some(row.lsUpdatedAt)
      && (row.plan.Solo? <==> env.solo == Some(e.variant))
      && (if row.plan.Solo? then row.seats == 1 else e.quantity == Some(row.seats) && 1 <= row.seats <= 25)
      && row.subscription == e.subscription && row.status == e.status && row.endsAt == e.endsAt && row.rest == e.rest
  {
    var verdict := Decide(env, e, elsewhere);
    if verdict.Accept? { assert verdict.row == Values(e, PlanForVariant(env, e.variant).value); }
  }

  /** What is left for redelivery: our own configuration, an unmapped variant of ours, or a missing date. */
  lemma {:induction false} RetriedExactly(env: Env, e: Event, elsewhere: bool)
    ensures Decide(env, e, elsewhere).Retry? <==>
      || env.store.None?
      || (env.store == Some(e.store) && PlanForVariant(env, e.variant).None?
          && (HasValidBinding(e) || env.solo.None? || env.team.None?))
      || (env.store == Some(e.store) && PlanForVariant(env, e.variant).Some? && HasValidBinding(e)
          && e.workspace.value in env.workspaces && !elsewhere && e.updatedAt.None?)
  {
  }

  // ----- state

  datatype Record = Record(processed: bool, lastError: Option<string>)

  /** A delivery being handled: before its checks, or past them with the values to write. */
  datatype Attempt = Started(e: Event) | Checked(e: Event, row: Row)

  datatype State = State(rows: map<string, Row>, events: map<Event, Record>, attempts: map<nat, Attempt>)

  predicate Elsewhere(rows: map<string, Row>, e: Event) {
    exists w :: w in rows && rows[w].subscription == e.subscription && e.workspace != Some(w)
  }

  // ----- steps

  /** The body is recorded once; a processed one is acknowledged and nothing follows. */
  function Receive(s: State, id: nat, e: Event): State
    requires id !in s.attempts
  {
    if e in s.events && s.events[e].processed then s
    else
      s.(events := if e in s.events then s.events else s.events[e := Record(false, None)],
         attempts := s.attempts[id := Started(e)])
  }

  /** Ends an attempt, the event acknowledged or left for redelivery. */
  function Finish(s: State, id: nat, processed: bool, error: Option<string>): State
    requires id in s.attempts && s.attempts[id].e in s.events
  {
    var e := s.attempts[id].e;
    s.(events := s.events[e := Record(processed || s.events[e].processed, error)], attempts := Without(s.attempts, id))
  }

  predicate CanCheck(s: State, id: nat) {
    id in s.attempts && s.attempts[id].Started? && s.attempts[id].e in s.events
  }

  function Check(s: State, id: nat, env: Env): State
    requires CanCheck(s, id)
  {
    var e := s.attempts[id].e;
    if !e.kindKnown then Finish(s, id, true, None)
    else
      match Decide(env, e, Elsewhere(s.rows, e))
      case Reject(reason) => Finish(s, id, true, Some(reason))
      case Retry(reason) => Finish(s, id, false, Some(reason))
      case Accept(row) => s.(attempts := s.attempts[id := Checked(e, row)])
  }

  predicate CanCommit(s: State, id: nat) {
    && id in s.attempts && s.attempts[id].Checked? && s.attempts[id].e in s.events
    && s.attempts[id].e.workspace.Some?
  }

  predicate Stale(current: Option<Row>, row: Row) { current.Some? && row.lsUpdatedAt < current.value.lsUpdatedAt }

  predicate Occupied(current: Option<Row>, row: Row, now: int) {
    current.Some? && current.value.subscription != row.subscription && IsEntitled(current.value, now)
  }

  function Current(rows: map<string, Row>, w: string): Option<Row> { if w in rows then Some(rows[w]) else None }

  /** The transaction, under the workspace's lock; a subscription id held elsewhere aborts the write. */
  function Commit(s: State, id: nat, now: int): State
    requires CanCommit(s, id)
  {
    var e, row := s.attempts[id].e, s.attempts[id].row;
    var w := e.workspace.value;
    var current := Current(s.rows, w);
    if Stale(current, row) then Finish(s, id, true, Some("stale event"))
    else if Occupied(current, row, now) then Finish(s, id, true, Some("workspace already has an active subscription"))
    else if Elsewhere(s.rows, e) then Finish(s, id, false, Some("unique violation"))
    else Finish(s, id, true, None).(rows := s.rows[w := row])
  }

  /** The process dies, or a query fails; perhaps not even the error is stored. */
  function Crash(s: State, id: nat): State { s.(attempts := Without(s.attempts, id)) }

  datatype Step =
    | DoReceive(id: nat, e: Event)
    | DoCheck(id: nat, env: Env)
    | DoCommit(id: nat, now: int)
    | DoCrash(id: nat)

  predicate Enabled(s: State, step: Step) {
    match step
    case DoReceive(id, _) => id !in s.attempts
    case DoCheck(id, _) => CanCheck(s, id)
    case DoCommit(id, _) => CanCommit(s, id)
    case DoCrash(id) => id in s.attempts
  }

  function Apply(s: State, step: Step): State
    requires Enabled(s, step)
  {
    match step
    case DoReceive(id, e) => Receive(s, id, e)
    case DoCheck(id, env) => Check(s, id, env)
    case DoCommit(id, now) => Commit(s, id, now)
    case DoCrash(id) => Crash(s, id)
  }

  predicate Trace(s: State, steps: seq<Step>, last: State)
    decreases |steps|
  {
    if steps == [] then last == s
    else Enabled(s, steps[0]) && Trace(Apply(s, steps[0]), steps[1..], last)
  }

  const Empty := State(map[], map[], map[])

  // ----- one delivery handled from start to end

  datatype Response = Received | NotConfigured | Unauthorized | BadRequest | ServerError

  class Webhook {
    const secret: bool
    const env: Env
    var state: State

    constructor (secret: bool, env: Env)
      ensures this.secret == secret && this.env == env && state == Empty
    {
      this.secret, this.env, state := secret, env, Empty;
    }

    /**
     * `handle` with no other delivery in between. `body` is absent when it does
     * not parse; `signed`: its signature verifies.
     */
    method Handle(body: Option<Event>, signed: bool, now: int) returns (response: Response)
      requires state.attempts == map[]
      modifies this
      ensures !secret ==> response.NotConfigured? && state == old(state)
      ensures secret && !signed ==> response.Unauthorized? && state == old(state)
      ensures secret && signed && body.None? ==> response.BadRequest? && state == old(state)
      ensures secret && signed && body.Some? ==>
        state == Handled(old(state), body.value, env, now) && Answers(response, state, body.value)
    {
      if !secret { return NotConfigured; }
      if !signed { return Unauthorized; }
      if body.None? { return BadRequest; }
      var e := body.value;
      HandledEnds(state, e, env, now);
      state := Receive(state, 0, e);
      if 0 in state.attempts {
        state := Check(state, 0, env);
        if 0 in state.attempts { state := Commit(state, 0, now); }
      }
      response := if state.events[e].processed then Received else ServerError;
    }
  }

  function Handled(s: State, e: Event, env: Env, now: int): State
    requires s.attempts == map[]
  {
    var received := Receive(s, 0, e);
    if 0 !in received.attempts then received
    else
      var checked := Check(received, 0, env);
      if 0 !in checked.attempts then checked else Commit(checked, 0, now)
  }

  /** The event is acknowledged exactly when it is processed, and nothing is left under way. */
  predicate Answers(response: Response, s: State, e: Event) {
    s.attempts == map[] && e in s.events && response == if s.events[e].processed then Received else ServerError
  }

  lemma {:induction false} FinishEnds(s: State, processed: bool, error: Option<string>)
    requires s.attempts.Keys == {0} && s.attempts[0].e in s.events
    ensures var r := Finish(s, 0, processed, error); r.attempts == map[] && s.attempts[0].e in r.events
  {
  }

  lemma {:induction false} HandledEnds(s: State, e: Event, env: Env, now: int)
    requires s.attempts == map[]
    ensures Handled(s, e, env, now).attempts == map[] && e in Handled(s, e, env, now).events
  {
    var received := Receive(s, 0, e);
    if 0 in received.attempts {
      var checked := Check(received, 0, env);
      assert received.attempts.Keys == {0} && e in received.events;
      CheckEnds(received, e, env);
      if 0 in checked.attempts { CommitEnds(checked, now); }
    }
  }

  lemma {:induction false} CheckEnds(s: State, e: Event, env: Env)
    requires CanCheck(s, 0) && s.attempts.Keys == {0} && s.attempts[0].e == e
    ensures var r := Check(s, 0, env);
      && e in r.events && (r.attempts == map[] || (CanCommit(r, 0) && r.attempts.Keys == {0} && r.attempts[0].e == e))
  {
    FinishEnds(s, true, None);
    if e.kindKnown {
      match Decide(env, e, Elsewhere(s.rows, e))
      case Reject(reason) => FinishEnds(s, true, Some(reason));
      case Retry(reason) => FinishEnds(s, false, Some(reason));
      case Accept(row) => AcceptedExactly(env, e, Elsewhere(s.rows, e), row);
    }
  }

  lemma {:induction false} CommitEnds(s: State, now: int)
    requires CanCommit(s, 0) && s.attempts.Keys == {0}
    ensures Commit(s, 0, now).attempts == map[] && s.attempts[0].e in Commit(s, 0, now).events
  {
  }

  /** Handling a delivery alone is a run of the interleaved steps. */
  lemma {:induction false} HandledIsTrace(s: State, e: Event, env: Env, now: int) returns (steps: seq<Step>)
    requires s.attempts == map[]
    ensures Trace(s, steps, Handled(s, e, env, now))
    ensures forall i :: 0 <= i < |steps| ==> steps[i] in {DoReceive(0, e), DoCheck(0, env), DoCommit(0, now)}
  {
    var r := Receive(s, 0, e);
    steps := [DoReceive(0, e)];
    assert steps[1..] == [];
    if 0 in r.attempts {
      var c := Check(r, 0, env);
      steps := [DoReceive(0, e), DoCheck(0, env)];
      assert steps[1..] == [DoCheck(0, env)] && steps[1..][1..] == [];
      if 0 in c.attempts {
        steps := [DoReceive(0, e), DoCheck(0, env), DoCommit(0, now)];
        assert steps[1..] == [DoCheck(0, env), DoCommit(0, now)];
        assert steps[1..][1..] == [DoCommit(0, now)] && steps[1..][1..][1..] == [];
        assert Trace(c, [DoCommit(0, now)], Commit(c, 0, now));
        assert Trace(r, steps[1..], Commit(c, 0, now));
      } else {
        assert Trace(r, steps[1..], c);
      }
    }
  }
}
