/** The one way a model call is charged: check both budgets, run with a meter, charge in any case. */
module Metering {
  import opened Wrappers
  import L = UsageLedger
  import G = BillingGate
  import M = TokenMeter
  import Pricing

  /** `OverTokens` is the uncoded refusal of the token budget, given when billing is not enforced. */
  datatype Outcome = Refused(refusal: G.Refusal) | OverTokens | Returned | Threw

  /** The Redis counters of tokens used, by workspace and calendar month. */
  datatype TokenKey = TokenKey(w: nat, month: nat)

  type Tokens = map<TokenKey, int>

  function Used(tokens: Tokens, w: nat, now: L.Instant): int {
    if TokenKey(w, now.month) in tokens then tokens[TokenKey(w, now.month)] else 0
  }

  /** Which of the best-effort commands answer: the token count's GET and INCRBY, and the ledger's insert. */
  datatype Health = Health(tokensRead: bool, tokensAdded: bool, rowWritten: bool)

  /** A setting that is no number limits nothing; neither does a count that cannot be read. */
  predicate TokensSpent(tokens: Tokens, w: nat, budget: Option<int>, now: L.Instant, health: Health) {
    health.tokensRead && budget.Some? && Used(tokens, w, now) >= budget.value
  }

  /** Why the call may not start: the dollar cap's refusal goes first, and `ledgerOnly` skips the token budget. */
  function Refusal(refusal: Option<G.Refusal>, enforced: bool, ledgerOnly: bool, spent: bool): Option<Outcome> {
    if refusal.Some? then Some(Refused(refusal.value))
    else if ledgerOnly || !spent then None
    else if enforced then Some(Refused(G.AiBudgetExceeded))
    else Some(OverTokens)
  }

  /** INCRBY takes whole numbers only. */
  function Counted(tokens: Tokens, w: nat, total: real, now: L.Instant): Tokens {
    if total.Floor as real == total then tokens[TokenKey(w, now.month) := Used(tokens, w, now) + total.Floor]
    else tokens
  }

  /** The ledger after a call that reported `reports`; tokens counted decide whether there is a row. */
  function Charged(rows: seq<L.Row>, w: nat, reports: seq<M.Record>, now: L.Instant, uuid: string): seq<L.Row> {
    CostsNonNegative(M.After(reports));
    if TotalOf(reports) == 0.0 then rows
    else L.CostRecorded(rows, w, 1, M.Cost(M.After(reports), M.TablePrice), now, uuid).rows
  }

  function TotalOf(reports: seq<M.Record>): (t: real)
    ensures t >= 0.0
  {
    if reports == [] then 0.0 else TotalOf(reports[..|reports| - 1]) + M.Total(reports[|reports| - 1])
  }

  class UsageService {
    const gate: G.Gate
    const budget: Option<int>
    var tokens: Tokens

    constructor (gate: G.Gate, budget: Option<int>)
      ensures this.gate == gate && this.budget == budget && tokens == map[]
    {
      this.gate, this.budget, tokens := gate, budget, map[];
    }

    method AssertWithinBudget(a: G.Account, w: nat, ledgerOnly: bool, now: L.Instant, health: Health)
      returns (refused: Option<Outcome>)
      ensures refused == Refusal(G.AiRefusal(gate.ledger.rows, w, gate.enforced, a, gate.env, now),
                                 gate.enforced, ledgerOnly, TokensSpent(tokens, w, budget, now, health))
    {
      var refusal := gate.AssertAiBudget(a, w, now);
      if refusal.Some? { return Some(Refused(refusal.value)); }
      if ledgerOnly || !health.tokensRead { return None; }
      if budget.Some? && Used(tokens, w, now) >= budget.value {
        return Some(if gate.enforced then Refused(G.AiBudgetExceeded) else OverTokens);
      }
      refused := None;
    }

    /**
     * `reports`: what the provider reported before the call returned or threw.
     * The charge is the same either way, dated when the call is over.
     */
    method Metered(
      a: G.Account, w: nat, reports: seq<M.Record>, throws: bool, ledgerOnly: bool, begun: L.Instant, over: L.Instant,
      uuid: string, health: Health)
      returns (outcome: Outcome)
      modifies this, gate.ledger
      ensures var rows := old(gate.ledger.rows);
        var refused := Refusal(G.AiRefusal(rows, w, gate.enforced, a, gate.env, begun),
                               gate.enforced, ledgerOnly, TokensSpent(old(tokens), w, budget, begun, health));
        if refused.Some? then outcome == refused.value && gate.ledger.rows == rows && tokens == old(tokens)
        else
          && outcome == (if throws then Threw else Returned)
          && gate.ledger.rows == (if health.rowWritten then Charged(rows, w, reports, over, uuid) else rows)
          && tokens == if ledgerOnly || !health.tokensAdded || TotalOf(reports) == 0.0 then old(tokens)
                       else Counted(old(tokens), w, TotalOf(reports), over)
    {
      var refused := AssertWithinBudget(a, w, ledgerOnly, begun, health);
      if refused.Some? { return refused.value; }
      var meter := new M.Meter(M.TablePrice);
      for i := 0 to |reports|
        invariant meter.used == TotalOf(reports[..i]) && meter.byModel == M.After(reports[..i])
        invariant gate.ledger.rows == old(gate.ledger.rows) && tokens == old(tokens) && fresh(meter)
      {
        assert reports[..i + 1][..i] == reports[..i];
        meter.Record(reports[i]);
      }
      assert reports[..|reports|] == reports;
      if meter.used > 0.0 {
        if !ledgerOnly && health.tokensAdded { tokens := Counted(tokens, w, meter.used, over); }
        var cost := meter.CostMicroUsd();
        CostsNonNegative(meter.byModel);
        if health.rowWritten { gate.ledger.RecordLlmCost(w, 1, cost, over, uuid); }
      }
      outcome := if throws then Threw else Returned;
    }
  }

  lemma {:induction false} CostsNonNegative(entries: seq<M.Entry>)
    ensures M.Cost(entries, M.TablePrice) >= 0
  {
    M.TableIsProper();
    CostsOfProper(entries, M.TablePrice);
  }

  lemma {:induction false} CostsOfProper(entries: seq<M.Entry>, p: M.Prices)
    requires M.Proper(p)
    ensures M.Cost(entries, p) >= 0
  {
    if entries != [] {
      CostsOfProper(entries[..|entries| - 1], p);
      M.CostsAreNonNegative(entries[|entries| - 1], p);
    }
  }

  /** A completed call writes one row exactly when it used tokens and its key is new, for the meter's whole cost. */
  lemma {:induction false} ChargesWhatWasUsed(
    rows: seq<L.Row>, w: nat, reports: seq<M.Record>, now: L.Instant, uuid: string)
    requires !L.Taken(rows, "llm:" + uuid)
    ensures var cost := M.Cost(M.After(reports), M.TablePrice);
      cost >= 0 && Charged(rows, w, reports, now, uuid)
        == rows + if TotalOf(reports) > 0.0 then [L.Row(w, L.LlmCost, cost, "llm:" + uuid, now)] else []
  {
    CostsNonNegative(M.After(reports));
    assert rows + [] == rows;
  }
}
