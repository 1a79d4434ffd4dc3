/**
 * The gate in front of every metered path: what a workspace is entitled to,
 * the calls that reserve or refuse, and two bounds no interleaving breaks.
 */
module BillingGate {
  import opened Wrappers
  import opened UsageLedger
  import opened UsageViews

  // ----- plans and entitlement

  datatype Plan = Solo | Team

  datatype Quota = Quota(matchedLines: nat, photoChecks: nat)

  function QuotasFor(plan: Plan, seats: nat): Quota {
    match plan
    case Team => Quota(2000 * seats, 300 * seats)
    case Solo => Quota(400, 100)
  }

  datatype Status = Active | PastDue | OnTrial | Cancelled | Paused | Unpaid | Expired

  predicate IsEntitledStatus(status: Status, endsAt: Option<Instant>, now: Instant) {
    || status.Active? || status.PastDue? || status.OnTrial?
    || (status.Cancelled? && endsAt.Some? && Before(now, endsAt.value))
  }

  datatype Subscription = Subscription(plan: Plan, seats: nat, status: Status, endsAt: Option<Instant>)

  /** `trial` runs from fourteen days before `trial_ends_at` to it. */
  datatype Account = Account(exempt: bool, trial: Option<Window>, sub: Option<Subscription>)

  datatype CapKind = TrialCap | SoloCap | TeamCap | ExemptCap

  /** The configured caps in USD; absent when blank or not a number. */
  type CapEnv = map<CapKind, real>

  function DefaultUsd(kind: CapKind): real {
    match kind
    case TrialCap => 4.0
    case SoloCap => 6.0
    case TeamCap => 15.0
    case ExemptCap => 25.0
  }

  /** `Math.round` of a positive number. */
  function Round(x: real): nat
    requires x >= 0.0
  {
    (x + 0.5).Floor
  }

  function AiCapMicroUsd(kind: CapKind, seats: nat, env: CapEnv): nat {
    var usd := if kind in env && env[kind] > 0.0 then env[kind] else DefaultUsd(kind);
    Round(usd * 1000000.0) * if kind.TeamCap? then seats else 1
  }

  datatype State = Exempt | Subscribed | Trialing | Lapsed

  /** What `load` resolves; no quotas means no limit is enforced. */
  datatype Summary = Summary(state: State, period: Option<Window>, quotas: Option<Quota>, cap: nat)

  function Load(a: Account, now: Instant, env: CapEnv): Summary {
    if a.exempt then Summary(Exempt, None, None, AiCapMicroUsd(ExemptCap, 1, env))
    else if a.sub.Some? && IsEntitledStatus(a.sub.value.status, a.sub.value.endsAt, now) then
      var plan, seats := a.sub.value.plan, a.sub.value.seats;
      Summary(Subscribed, Some(MonthOf(now)), Some(QuotasFor(plan, seats)),
              AiCapMicroUsd(if plan.Team? then TeamCap else SoloCap, seats, env))
    else if a.trial.Some? && Before(now, a.trial.value.end) then
      Summary(Trialing, a.trial, Some(QuotasFor(Solo, 1)), AiCapMicroUsd(TrialCap, 1, env))
    else Summary(Lapsed, None, None, 0)
  }

  function WindowOf(s: Summary, now: Instant): Window { if s.period.Some? then s.period.value else MonthOf(now) }

  // ----- the gate's calls

  datatype Refusal = SubscriptionRequired | AiBudgetExceeded | QuotaExceeded

  datatype Call =
    | ForLines(workspace: nat, pair: Pair, lines: nat, now: Instant, uuid: string)
    | ForPhoto(workspace: nat, now: Instant, uuid: string)

  function Spent(rows: seq<Row>, w: nat, s: Summary, now: Instant): nat {
    WindowSum(rows, w, LlmCost, WindowOf(s, now))
  }

  /** The ledger transaction a call makes, or the reason it makes none. */
  datatype Plea = Try(op: Op) | Refuse(refusal: Refusal)

  function Ask(rows: seq<Row>, call: Call, enforced: bool, a: Account, env: CapEnv): Plea {
    var s := Load(a, call.now, env);
    if !enforced then
      match call
      case ForLines(w, p, lines, now, uuid) => Try(PairLines(w, p, lines, None, MonthOf(now), now, uuid))
      case ForPhoto(w, now, uuid) => Try(Photo(w, None, MonthOf(now), now, uuid))
    else if s.state.Lapsed? then Refuse(SubscriptionRequired)
    else
      match call
      case ForLines(w, p, lines, now, uuid) =>
        var limit := if s.quotas.Some? then Some(s.quotas.value.matchedLines) else None;
        Try(PairLines(w, p, lines, limit, WindowOf(s, now), now, uuid))
      case ForPhoto(w, now, uuid) =>
        if Spent(rows, w, s, now) >= s.cap then Refuse(AiBudgetExceeded)
        else
          var limit := if s.quotas.Some? then Some(s.quotas.value.photoChecks) else None;
          Try(Photo(w, limit, WindowOf(s, now), now, uuid))
  }

  /** Why an AI call may not start, if it may not. */
  function AiRefusal(rows: seq<Row>, w: nat, enforced: bool, a: Account, env: CapEnv, now: Instant): Option<Refusal> {
    var s := Load(a, now, env);
    if !enforced then None
    else if s.state.Lapsed? then Some(SubscriptionRequired)
    else if Spent(rows, w, s, now) >= s.cap then Some(AiBudgetExceeded)
    else None
  }

  class Gate {
    const ledger: Ledger
    const enforced: bool
    const env: CapEnv

    constructor (ledger: Ledger, enforced: bool, env: CapEnv)
      ensures this.ledger == ledger && this.enforced == enforced && this.env == env
    {
      this.ledger := ledger;
      this.enforced := enforced;
      this.env := env;
    }

    method AssertAiBudget(a: Account, w: nat, now: Instant) returns (refusal: Option<Refusal>)
      ensures refusal == AiRefusal(ledger.rows, w, enforced, a, env, now)
    {
      if !enforced { return None; }
      var summary := Load(a, now, env);
      if summary.state.Lapsed? { return Some(SubscriptionRequired); }
      var sums := ledger.SumsByKind(w, WindowOf(summary, now));
      refusal := if sums.llmCostMicroUsd >= summary.cap then Some(AiBudgetExceeded) else None;
    }

    /** Refused without a row exactly when not entitled, over the AI cap (photos), or over quota. */
    method AssertMatchedLines(a: Account, w: nat, pair: Pair, lines: nat, now: Instant, uuid: string)
      returns (refusal: Option<Refusal>)
      requires Sane(now) && (a.trial.Some? ==> Sane(a.trial.value.start))
      modifies ledger
      ensures match Ask(old(ledger.rows), ForLines(w, pair, lines, now, uuid), enforced, a, env)
        case Refuse(r) => refusal == Some(r) && ledger.rows == old(ledger.rows)
        case Try(op) =>
          && OpOk(op) && ledger.rows == Do(old(ledger.rows), op).rows
          && refusal == if enforced && Do(old(ledger.rows), op).result.Over? then Some(QuotaExceeded) else None
    {
      if !enforced {
        var month := MonthOf(now);
        var _ := ledger.ReservePairLines(w, PairKeyPrefix(pair, month.start), lines, None, month, now, uuid);
        return None;
      }
      var summary := Load(a, now, env);
      if summary.state.Lapsed? { return Some(SubscriptionRequired); }
      var window := WindowOf(summary, now);
      var limit := if summary.quotas.Some? then Some(summary.quotas.value.matchedLines) else None;
      var result := ledger.ReservePairLines(w, PairKeyPrefix(pair, window.start), lines, limit, window, now, uuid);
      refusal := if result.Over? then Some(QuotaExceeded) else None;
    }

    method AssertPhotoCheck(a: Account, w: nat, now: Instant, uuid: string) returns (refusal: Option<Refusal>)
      modifies ledger
      ensures match Ask(old(ledger.rows), ForPhoto(w, now, uuid), enforced, a, env)
        case Refuse(r) => refusal == Some(r) && ledger.rows == old(ledger.rows)
        case Try(op) =>
          && OpOk(op) && ledger.rows == Do(old(ledger.rows), op).rows
          && refusal == if enforced && Do(old(ledger.rows), op).result.Over? then Some(QuotaExceeded) else None
    {
      var key := "photo:" + uuid;
      if !enforced {
        var _ := ledger.Reserve(Row(w, PhotoCheck, 1, key, now), None, MonthOf(now));
        return None;
      }
      var summary := Load(a, now, env);
      if summary.state.Lapsed? { return Some(SubscriptionRequired); }
      var sums := ledger.SumsByKind(w, WindowOf(summary, now));
      if sums.llmCostMicroUsd >= summary.cap { return Some(AiBudgetExceeded); }
      var limit := if summary.quotas.Some? then Some(summary.quotas.value.photoChecks) else None;
      var result := ledger.Reserve(Row(w, PhotoCheck, 1, key, now), limit, WindowOf(summary, now));
      refusal := if result.Over? then Some(QuotaExceeded) else None;
    }
  }

  // ----- who is let in

  predicate Paying(a: Account, now: Instant) {
    a.sub.Some? && IsEntitledStatus(a.sub.value.status, a.sub.value.endsAt, now)
  }

  predicate InTrial(a: Account, now: Instant) { a.trial.Some? && Before(now, a.trial.value.end) }

  /** Enforcement asks for a subscription exactly of those without exemption, entitlement or running trial. */
  lemma {:induction false} LockedOutExactly(rows: seq<Row>, call: Call, a: Account, env: CapEnv)
    ensures Ask(rows, call, true, a, env) == Refuse(SubscriptionRequired)
      <==> !a.exempt && !Paying(a, call.now) && !InTrial(a, call.now)
    ensures AiRefusal(rows, call.workspace, true, a, env, call.now) == Some(SubscriptionRequired)
      <==> Ask(rows, call, true, a, env) == Refuse(SubscriptionRequired)
    ensures Ask(rows, call, false, a, env).Try? && AiRefusal(rows, call.workspace, false, a, env, call.now).None?
  {
  }

  function LinesOf(sub: Subscription): nat { if sub.plan.Team? then 2000 * sub.seats else 400 }

  /** A limit is enforced exactly on those who pay or try, and a paid plan goes before the trial. */
  lemma {:induction false} LimitedExactly(rows: seq<Row>, call: Call, a: Account, env: CapEnv)
    requires call.ForLines? && Ask(rows, call, true, a, env).Try?
    ensures var op := Ask(rows, call, true, a, env).op;
      && (op.limit.None? <==> a.exempt)
      && (!a.exempt && Paying(a, call.now) ==>
            op.window == MonthOf(call.now) && op.limit == Some(LinesOf(a.sub.value)))
      && (!a.exempt && !Paying(a, call.now) ==> op.window == a.trial.value && op.limit == Some(400))
  {
  }

  // ----- no quota is exceeded

  /** The operation can add to this sum. */
  predicate Adds(op: Op, w: nat, kind: Kind, window: Window) {
    op.workspace == w && In(window, op.now) && ((kind.MatchedLine? && op.PairLines?) || (kind.PhotoCheck? && op.Photo?))
  }

  lemma {:induction false} OneOpWithinLimit(rows: seq<Row>, op: Op, w: nat, kind: Kind, window: Window, limit: nat)
    requires OpOk(op) && !kind.LlmCost? && WindowSum(rows, w, kind, window) <= limit
    requires Adds(op, w, kind, window) ==> op.window == window && op.limit == Some(limit)
    ensures WindowSum(Do(rows, op).rows, w, kind, window) <= limit
  {
    match op
    case PairLines(ow, pair, lines, opLimit, opWindow, now, uuid) =>
      var prefix := PairKeyPrefix(pair, opWindow.start);
      var was := PrefixSum(rows, ow, prefix);
      if lines > was && !Exceeds(rows, ow, MatchedLine, lines - was, opLimit, opWindow) {
        var key := if AnyCounted(rows, ow, prefix) then prefix + ":" + uuid else prefix;
        InsertWithin(rows, Row(ow, MatchedLine, lines - was, key, now), w, kind, window, limit);
      }
    case Photo(ow, opLimit, opWindow, now, uuid) =>
      var row := Row(ow, PhotoCheck, 1, "photo:" + uuid, now);
      if !Exceeds(rows, ow, PhotoCheck, 1, opLimit, opWindow) { InsertWithin(rows, row, w, kind, window, limit); }
    case Cost(ow, _, microUsd, now, uuid) =>
      InsertWithin(rows, Row(ow, LlmCost, microUsd, "llm:" + uuid, now), w, kind, window, limit);
  }

  lemma {:induction false} InsertWithin(rows: seq<Row>, row: Row, w: nat, kind: Kind, window: Window, limit: nat)
    requires WindowSum(rows, w, kind, window) + (if InSum(row, w, kind, window) then row.quantity else 0) <= limit
    ensures WindowSum(Insert(rows, row).rows, w, kind, window) <= limit
  {
    if !Taken(rows, row.key) { WindowSumGrows(rows, row, w, kind, window); }
  }

  /**
   * Whatever else goes on: if every reservation of the kind made inside the
   * window is checked against that window and limit, the sum stays within it.
   */
  lemma {:induction false} QuotaHolds(ops: seq<Op>, w: nat, kind: Kind, window: Window, limit: nat)
    requires OpsOk(ops) && !kind.LlmCost?
    requires forall i :: 0 <= i < |ops| && Adds(ops[i], w, kind, window) ==>
      ops[i].window == window && ops[i].limit == Some(limit)
    ensures WindowSum(After(ops), w, kind, window) <= limit
  {
    if ops != [] {
      var n := |ops| - 1;
      QuotaHolds(ops[..n], w, kind, window, limit);
      OneOpWithinLimit(After(ops[..n]), ops[n], w, kind, window, limit);
    }
  }

  /** Calls of any workspaces, each with the account of that moment. */
  datatype Visit = Visit(call: Call, account: Account)

  predicate VisitOk(v: Visit) { Sane(v.call.now) && (v.account.trial.Some? ==> Sane(v.account.trial.value.start)) }

  /** The rows after one enforced visit. */
  function AfterVisit(rows: seq<Row>, v: Visit, env: CapEnv): seq<Row>
    requires VisitOk(v)
  {
    match Ask(rows, v.call, true, v.account, env)
    case Refuse(_) => rows
    case Try(op) => Do(rows, op).rows
  }

  function Visited(visits: seq<Visit>, env: CapEnv): seq<Row>
    requires forall i :: 0 <= i < |visits| ==> VisitOk(visits[i])
  {
    if visits == [] then []
    else
      var n := |visits| - 1;
      assert VisitOk(visits[n]);
      AfterVisit(Visited(visits[..n], env), visits[n], env)
  }

  predicate OnPlan(a: Account, plan: Plan, seats: nat, now: Instant) {
    !a.exempt && a.sub.Some? && a.sub.value.plan == plan && a.sub.value.seats == seats
    && IsEntitledStatus(a.sub.value.status, a.sub.value.endsAt, now)
  }

  /** Enforced, a workspace that keeps its plan through a month gets no more than the plan grants. */
  lemma {:induction false} PlanBoundsMonth(visits: seq<Visit>, env: CapEnv, w: nat, month: nat, plan: Plan, seats: nat)
    requires forall i :: 0 <= i < |visits| ==> VisitOk(visits[i])
    requires forall i :: 0 <= i < |visits| && visits[i].call.workspace == w && visits[i].call.now.month == month ==>
      OnPlan(visits[i].account, plan, seats, visits[i].call.now)
    ensures var window := MonthOf(Instant(month, 0, 0));
      && WindowSum(Visited(visits, env), w, MatchedLine, window) <= QuotasFor(plan, seats).matchedLines
      && WindowSum(Visited(visits, env), w, PhotoCheck, window) <= QuotasFor(plan, seats).photoChecks
  {
    if visits != [] {
      var n := |visits| - 1;
      PlanBoundsMonth(visits[..n], env, w, month, plan, seats);
      assert VisitOk(visits[n]);
      var window := MonthOf(Instant(month, 0, 0));
      assert In(window, visits[n].call.now) <==> visits[n].call.now.month == month;
      PlanVisit(Visited(visits[..n], env), visits[n], env, w, window, plan, seats);
    }
  }

  ghost predicate Within(rows: seq<Row>, w: nat, window: Window, quota: Quota) {
    && WindowSum(rows, w, MatchedLine, window) <= quota.matchedLines
    && WindowSum(rows, w, PhotoCheck, window) <= quota.photoChecks
  }

  lemma {:induction false} PlanVisit(
    rows: seq<Row>, v: Visit, env: CapEnv, w: nat, window: Window, plan: Plan, seats: nat)
    requires VisitOk(v) && Within(rows, w, window, QuotasFor(plan, seats))
    requires v.call.workspace == w && In(window, v.call.now) ==>
      OnPlan(v.account, plan, seats, v.call.now) && window == MonthOf(v.call.now)
    ensures Within(AfterVisit(rows, v, env), w, window, QuotasFor(plan, seats))
  {
    var plea := Ask(rows, v.call, true, v.account, env);
    if plea.Try? {
      OneOpWithinLimit(rows, plea.op, w, MatchedLine, window, QuotasFor(plan, seats).matchedLines);
      OneOpWithinLimit(rows, plea.op, w, PhotoCheck, window, QuotasFor(plan, seats).photoChecks);
    }
  }

  /** The visit of a workspace in this trial, neither exempt nor paying. */
  predicate OnlyTries(v: Visit, trial: Window) {
    !v.account.exempt && !Paying(v.account, v.call.now) && v.account.trial == Some(trial)
  }

  /** The same inside one trial window: the solo allowance, once. */
  lemma {:induction false} TrialBounded(visits: seq<Visit>, env: CapEnv, w: nat, trial: Window)
    requires forall i :: 0 <= i < |visits| ==> VisitOk(visits[i])
    requires forall i :: 0 <= i < |visits| && visits[i].call.workspace == w && In(trial, visits[i].call.now) ==>
      OnlyTries(visits[i], trial)
    ensures WindowSum(Visited(visits, env), w, MatchedLine, trial) <= 400
    ensures WindowSum(Visited(visits, env), w, PhotoCheck, trial) <= 100
  {
    if visits != [] {
      var n := |visits| - 1;
      TrialBounded(visits[..n], env, w, trial);
      assert VisitOk(visits[n]);
      TrialVisit(Visited(visits[..n], env), visits[n], env, w, trial);
    }
  }

  lemma {:induction false} TrialVisit(rows: seq<Row>, v: Visit, env: CapEnv, w: nat, trial: Window)
    requires VisitOk(v)
    requires v.call.workspace == w && In(trial, v.call.now) ==>
      !v.account.exempt && !Paying(v.account, v.call.now) && v.account.trial == Some(trial)
    requires Within(rows, w, trial, Quota(400, 100))
    ensures Within(AfterVisit(rows, v, env), w, trial, Quota(400, 100))
  {
    var plea := Ask(rows, v.call, true, v.account, env);
    if plea.Try? {
      OneOpWithinLimit(rows, plea.op, w, MatchedLine, trial, 400);
      OneOpWithinLimit(rows, plea.op, w, PhotoCheck, trial, 100);
    }
  }

  // ----- AI spend overshoots by the calls in flight

  /** The table, and how many of the workspace's metered calls have passed the check and not yet charged. */
  datatype Spending = Spending(rows: seq<Row>, flying: nat)

  /** `metered` in its two halves, and any other transaction that is not this workspace's AI cost. */
  datatype Step =
    | Begin
    | End(total: nat, microUsd: nat, now: Instant, uuid: string)
    | Other(op: Op)

  datatype Budget = Budget(w: nat, window: Window, cap: nat, k: nat, most: nat)

  function SpentIn(rows: seq<Row>, b: Budget): nat { WindowSum(rows, b.w, LlmCost, b.window) }

  predicate Enabled(s: Spending, step: Step, b: Budget) {
    match step
    case Begin => SpentIn(s.rows, b) < b.cap && s.flying < b.k
    case End(_, microUsd, _, _) => s.flying > 0 && microUsd <= b.most
    case Other(op) => OpOk(op) && !(op.Cost? && op.workspace == b.w)
  }

  function Apply(s: Spending, step: Step, b: Budget): Spending
    requires Enabled(s, step, b)
  {
    match step
    case Begin => s.(flying := s.flying + 1)
    case End(total, microUsd, now, uuid) =>
      Spending(Do(s.rows, Cost(b.w, total, microUsd, now, uuid)).rows, s.flying - 1)
    case Other(op) => s.(rows := Do(s.rows, op).rows)
  }

  predicate Trace(s: Spending, steps: seq<Step>, last: Spending, b: Budget)
    decreases |steps|
  {
    if steps == [] then last == s
    else Enabled(s, steps[0], b) && Trace(Apply(s, steps[0], b), steps[1..], last, b)
  }

  /** What is spent, and what the calls in flight may still spend. */
  predicate Bounded(s: Spending, b: Budget) {
    if b.cap == 0 then SpentIn(s.rows, b) == 0 && s.flying == 0
    else s.flying <= b.k && SpentIn(s.rows, b) + s.flying * b.most <= b.cap - 1 + b.k * b.most
  }

  /** `Begin` is the gate letting an AI call start: for a fixed window and cap, exactly below the cap. */
  lemma {:induction false} BeginIsTheGate(rows: seq<Row>, b: Budget, a: Account, env: CapEnv, now: Instant)
    requires var s := Load(a, now, env); b.window == WindowOf(s, now) && b.cap == s.cap
    ensures AiRefusal(rows, b.w, true, a, env, now).None? <==> SpentIn(rows, b) < b.cap
  {
  }

  lemma {:induction false} OneMoreFits(a: nat, k: nat, c: nat)
    requires a < k
    ensures (a + 1) * c <= k * c
  {
    assert k * c == (k - a - 1) * c + (a + 1) * c;
  }

  lemma {:induction false} OneLess(a: nat, c: nat)
    requires a > 0
    ensures a * c == (a - 1) * c + c
  {
  }

  lemma {:induction false} CostAdds(rows: seq<Row>, b: Budget, total: nat, microUsd: nat, now: Instant, uuid: string)
    ensures var r := Do(rows, Cost(b.w, total, microUsd, now, uuid)).rows;
      SpentIn(rows, b) <= SpentIn(r, b) <= SpentIn(rows, b) + microUsd
  {
    var r := Do(rows, Cost(b.w, total, microUsd, now, uuid)).rows;
    if |r| > |rows| { WindowSumGrows(rows, r[|rows|], b.w, LlmCost, b.window); }
  }

  lemma {:induction false} OtherAddsNothing(rows: seq<Row>, op: Op, b: Budget)
    requires OpOk(op) && !(op.Cost? && op.workspace == b.w)
    ensures SpentIn(Do(rows, op).rows, b) == SpentIn(rows, b)
  {
    var r := Do(rows, op).rows;
    if |r| > |rows| { WindowSumGrows(rows, r[|rows|], b.w, LlmCost, b.window); }
  }

  lemma {:induction false} StepBounded(s: Spending, step: Step, b: Budget)
    requires Bounded(s, b) && Enabled(s, step, b)
    ensures Bounded(Apply(s, step, b), b)
  {
    match step
    case Begin => OneMoreFits(s.flying, b.k, b.most);
    case End(total, microUsd, now, uuid) =>
      CostAdds(s.rows, b, total, microUsd, now, uuid);
      OneLess(s.flying, b.most);
    case Other(op) => OtherAddsNothing(s.rows, op, b);
  }

  lemma {:induction false} BoundedAlong(s: Spending, steps: seq<Step>, last: Spending, b: Budget)
    requires Bounded(s, b) && Trace(s, steps, last, b)
    ensures Bounded(last, b)
    decreases |steps|
  {
    if steps != [] {
      StepBounded(s, steps[0], b);
      BoundedAlong(Apply(s, steps[0], b), steps[1..], last, b);
    }
  }

  /** Calls begun in the window before may still be in flight when a window opens unspent. */
  predicate Unspent(s: Spending, b: Budget) {
    SpentIn(s.rows, b) == 0 && s.flying <= b.k && (b.cap == 0 ==> s.flying == 0)
  }

  lemma {:induction false} UnspentIsBounded(s: Spending, b: Budget)
    requires Unspent(s, b)
    ensures Bounded(s, b)
  {
    if s.flying < b.k { OneMoreFits(s.flying, b.k, b.most); }
  }

  /**
   * With at most `k` calls in flight, each costing at most `most`, a window that
   * opened unspent never sees more spent than `cap - 1 + k * most`.
   */
  lemma {:induction false} SpendBounded(s: Spending, steps: seq<Step>, last: Spending, b: Budget)
    requires Unspent(s, b) && Trace(s, steps, last, b)
    ensures SpentIn(last.rows, b) == 0 || SpentIn(last.rows, b) <= b.cap - 1 + b.k * b.most
  {
    UnspentIsBounded(s, b);
    BoundedAlong(s, steps, last, b);
    assert last.flying * b.most >= 0;
  }

  // ----- and the bound is reached

  /** Distinct keys for `n` charges. */
  ghost predicate Unused(rows: seq<Row>, uuids: seq<string>) {
    && (forall i :: 0 <= i < |uuids| ==> !Taken(rows, "llm:" + uuids[i]))
    && forall i, j :: 0 <= i < j < |uuids| ==> uuids[i] != uuids[j]
  }

  function Ends(uuids: seq<string>, most: nat, now: Instant): seq<Step> {
    seq(|uuids|, i requires 0 <= i < |uuids| => End(1, most, now, uuids[i]))
  }

  function Landed(b: Budget, now: Instant, uuid: string): Row { Row(b.w, LlmCost, b.most, "llm:" + uuid, now) }

  lemma {:induction false} OneLands(s: Spending, uuid: string, now: Instant, b: Budget)
    requires s.flying > 0 && !Taken(s.rows, "llm:" + uuid) && In(b.window, now)
    ensures var step := End(1, b.most, now, uuid);
      Enabled(s, step, b) && Apply(s, step, b) == Spending(s.rows + [Landed(b, now, uuid)], s.flying - 1)
    ensures SpentIn(s.rows + [Landed(b, now, uuid)], b) == SpentIn(s.rows, b) + b.most
  {
    WindowSumGrows(s.rows, Landed(b, now, uuid), b.w, LlmCost, b.window);
  }

  lemma {:induction false} AllLand(s: Spending, uuids: seq<string>, now: Instant, b: Budget) returns (last: Spending)
    requires s.flying == |uuids| && Unused(s.rows, uuids) && In(b.window, now)
    ensures Trace(s, Ends(uuids, b.most, now), last, b)
    ensures SpentIn(last.rows, b) == SpentIn(s.rows, b) + |uuids| * b.most
    decreases |uuids|
  {
    if uuids == [] {
      last := s;
    } else {
      KeysStayUnused(s.rows, uuids, Landed(b, now, uuids[0]));
      last := AllLand(Spending(s.rows + [Landed(b, now, uuids[0])], s.flying - 1), uuids[1..], now, b);
      LandFirst(s, uuids, now, b, last);
    }
  }

  lemma {:induction false} LandFirst(s: Spending, uuids: seq<string>, now: Instant, b: Budget, last: Spending)
    requires uuids != [] && s.flying == |uuids| && !Taken(s.rows, "llm:" + uuids[0]) && In(b.window, now)
    requires var rows := s.rows + [Landed(b, now, uuids[0])];
      Trace(Spending(rows, s.flying - 1), Ends(uuids[1..], b.most, now), last, b)
      && SpentIn(last.rows, b) == SpentIn(rows, b) + (|uuids| - 1) * b.most
    ensures Trace(s, Ends(uuids, b.most, now), last, b)
    ensures SpentIn(last.rows, b) == SpentIn(s.rows, b) + |uuids| * b.most
  {
    OneLands(s, uuids[0], now, b);
    EndsFirst(uuids, b.most, now);
    TraceFirst(s, End(1, b.most, now, uuids[0]), Ends(uuids[1..], b.most, now), last, b);
    OneLess(|uuids|, b.most);
  }

  lemma {:induction false} EndsFirst(uuids: seq<string>, most: nat, now: Instant)
    requires uuids != []
    ensures Ends(uuids, most, now) == [End(1, most, now, uuids[0])] + Ends(uuids[1..], most, now)
  {
  }

  lemma {:induction false} TraceFirst(s: Spending, step: Step, rest: seq<Step>, last: Spending, b: Budget)
    requires Enabled(s, step, b) && Trace(Apply(s, step, b), rest, last, b)
    ensures Trace(s, [step] + rest, last, b)
  {
    assert ([step] + rest)[1..] == rest;
  }

  lemma {:induction false} KeysStayUnused(rows: seq<Row>, uuids: seq<string>, row: Row)
    requires Unused(rows, uuids) && uuids != [] && row.key == "llm:" + uuids[0]
    ensures Unused(rows + [row], uuids[1..])
  {
    var rest := uuids[1..];
    forall i | 0 <= i < |rest| ensures !Taken(rows + [row], "llm:" + rest[i]) {
      assert rest[i] == uuids[i + 1] && uuids[0] != uuids[i + 1];
      assert ("llm:" + uuids[0])[4..] == uuids[0] && ("llm:" + rest[i])[4..] == rest[i];
    }
  }

  lemma {:induction false} AllTakeOff(s: Spending, b: Budget, n: nat) returns (steps: seq<Step>)
    requires SpentIn(s.rows, b) < b.cap && s.flying + n <= b.k
    ensures Trace(s, steps, s.(flying := s.flying + n), b)
    decreases n
  {
    if n == 0 {
      steps := [];
    } else {
      var rest := AllTakeOff(s.(flying := s.flying + 1), b, n - 1);
      steps := [Begin] + rest;
      assert steps[1..] == rest;
    }
  }

  lemma {:induction false} StepFirst(
    s: Spending, first: seq<Step>, second: seq<Step>, next: Spending, last: Spending, b: Budget)
    requires first != [] && Enabled(s, first[0], b) && next == Apply(s, first[0], b)
    requires Trace(next, first[1..] + second, last, b)
    ensures Trace(s, first + second, last, b)
  {
    assert (first + second)[1..] == first[1..] + second;
  }

  lemma {:induction false} Joined(
    s: Spending, first: seq<Step>, mid: Spending, second: seq<Step>, last: Spending, b: Budget)
    requires Trace(s, first, mid, b) && Trace(mid, second, last, b)
    ensures Trace(s, first + second, last, b)
    decreases |first|
  {
    if first == [] {
      assert first + second == second;
    } else {
      var next := Apply(s, first[0], b);
      Joined(next, first[1..], mid, second, last, b);
      StepFirst(s, first, second, next, last, b);
    }
  }

  /** One micro-dollar below the cap, `k` calls pass the check together and all charge the most. */
  lemma {:induction false} BoundIsReached(rows: seq<Row>, b: Budget, uuids: seq<string>, now: Instant)
    returns (steps: seq<Step>, last: Spending)
    requires b.cap > 0 && SpentIn(rows, b) == b.cap - 1 && |uuids| == b.k && Unused(rows, uuids) && In(b.window, now)
    ensures Trace(Spending(rows, 0), steps, last, b)
    ensures SpentIn(last.rows, b) == b.cap - 1 + b.k * b.most
  {
    var up := AllTakeOff(Spending(rows, 0), b, b.k);
    last := AllLand(Spending(rows, b.k), uuids, now, b);
    steps := up + Ends(uuids, b.most, now);
    Joined(Spending(rows, 0), up, Spending(rows, b.k), Ends(uuids, b.most, now), last, b);
  }
}
