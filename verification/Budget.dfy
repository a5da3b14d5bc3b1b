/** Budget reservation against one project's allocation row (budget_runtime/client.py,
    budget_runtime/cost_evaluator.py and the budget ledger repository). Estimated USD is counted in
    units of 10^-8, at which every rate is exact; the money columns hold six decimals, so stored USD
    is counted in units of 10^-6. */
module Budget {
  import opened PyText
  import opened MessageLedger

  const DEFAULT_PROJECT := "project-default"

  datatype CostEstimate = CostEstimate(usd: nat, tokens: nat)

  function CostTier(modelClass: string): string {
    if modelClass == "interactive_fast" || modelClass == "embedding_text" then "gemini_flash"
    else if modelClass == "reasoning_general" then "gemini_pro"
    else modelClass
  }

  /** USD per thousand tokens, in units of 10^-8. */
  function RatePer1k(tier: string): nat {
    if tier == "gemini_flash_free" then 0
    else if tier == "gemini_flash" then 3_500
    else if tier == "gemini_pro" then 125_000
    else 100_000
  }

  function Max(a: int, b: int): int {
    if a < b then b else a
  }

  function Estimate(modelClass: string, inputTokens: int): CostEstimate {
    var tokens := Max(inputTokens, 1) * 2;
    CostEstimate(RatePer1k(CostTier(modelClass)) * tokens / 1000, tokens)
  }

  /** Nothing is lost by the division at this scale: the estimate is the exact rational price. */
  lemma EstimateIsExact(modelClass: string, inputTokens: int)
    ensures Estimate(modelClass, inputTokens).usd * 1000
         == RatePer1k(CostTier(modelClass)) * Estimate(modelClass, inputTokens).tokens
  {
    hide CostTier, RatePer1k;
    RatesAreWhole(CostTier(modelClass));
    var rate, m := RatePer1k(CostTier(modelClass)), Max(inputTokens, 1);
    assert rate * (m * 2) == 1000 * (rate / 500 * m);
  }

  lemma RatesAreWhole(tier: string)
    ensures RatePer1k(tier) in {0, 3_500, 125_000, 100_000}
  {
  }

  const PRICED_CLASSES := {"interactive_fast", "embedding_text", "gemini_flash", "reasoning_general", "gemini_pro", "gemini_flash_free"}

  /** What one requested input token costs, in units of 10^-8 USD: twice its own rate, for the output
      assumed on top. Requests of nothing count as one token. */
  lemma PricePerRequestedToken(modelClass: string, inputTokens: int)
    ensures var m, e := Max(inputTokens, 1), Estimate(modelClass, inputTokens);
      && e.tokens == 2 * m
      && (modelClass in {"interactive_fast", "embedding_text", "gemini_flash"} ==> e.usd == 7 * m)
      && (modelClass in {"reasoning_general", "gemini_pro"} ==> e.usd == 250 * m)
      && (modelClass == "gemini_flash_free" ==> e.usd == 0)
      && (modelClass !in PRICED_CLASSES ==> e.usd == 200 * m)
  {
    assert |"gemini_flash"| == 12 && |"gemini_pro"| == 10 && |"gemini_flash_free"| == 17;
  }

  datatype Request = Request(taskId: string, projectId: string, modelClass: string, units: int)

  function EstimateOf(request: Request): CostEstimate {
    Estimate(request.modelClass, Max(request.units, 0))
  }

  /** The project a request is charged to first. */
  function Scope(request: Request): (project: string)
    ensures project != ""
  {
    var normalized := Strip(request.projectId);
    if normalized != "" then normalized else DEFAULT_PROJECT
  }

  datatype Allocation = Allocation(usdLimit: nat, tokenLimit: nat)

  datatype Status = Reserved | Settled | Released

  /** One row of `budget_reservations`. `request` records what the row was inserted for; it is not
      a column. */
  datatype Reservation = Reservation(
    id: string, taskId: string, projectId: string, usd: nat, tokens: nat, status: Status, request: Request)

  /** NUMERIC(12, 6) keeps six decimals and rounds half up. */
  function Stored(usd: nat): nat {
    (usd + 50) / 100
  }

  function NewReservation(id: string, project: string, request: Request): Reservation {
    Reservation(id, request.taskId, project, Stored(EstimateOf(request).usd), EstimateOf(request).tokens, Reserved, request)
  }

  datatype Totals = Totals(tokens: nat, usd: nat)

  predicate Active(r: Reservation, project: string) {
    r.projectId == project && r.status == Reserved
  }

  /** What `SELECT SUM(...) WHERE status = 'reserved'` returns. */
  function Outstanding(rows: seq<Reservation>, project: string): Totals {
    if rows == [] then Totals(0, 0) else
    var r, rest := rows[|rows| - 1], Outstanding(rows[..|rows| - 1], project);
    if Active(r, project) then Totals(rest.tokens + r.tokens, rest.usd + r.usd) else rest
  }

  datatype Decision = Allow | HardBreach | Uncertain

  datatype BudgetResult = BudgetResult(
    decision: Decision, reasonCode: string, reservationId: Option<string>, remainingUnits: Option<int>)

  const UNAVAILABLE := BudgetResult(Uncertain, "budget_runtime_unavailable", None, None)
  const ALLOCATION_MISSING := BudgetResult(Uncertain, "budget_allocation_missing", None, None)

  /** The breach the limits call for, if any; the token quota is looked at first. */
  function Breach(allocation: Allocation, spent: Totals, estimate: CostEstimate): Option<string> {
    if spent.tokens + estimate.tokens > allocation.tokenLimit then Some("budget_quota_hard_breach")
    else if spent.usd * 100 + estimate.usd > allocation.usdLimit * 100 then Some("budget_currency_hard_breach")
    else None
  }

  function BreachResult(allocation: Allocation, spent: Totals, reason: string): BudgetResult {
    BudgetResult(HardBreach, reason, None, Some(Max(allocation.tokenLimit - spent.tokens, 0)))
  }

  function AllowResult(allocation: Allocation, spent: Totals, row: Reservation): BudgetResult {
    BudgetResult(Allow, "budget_reserved", Some(row.id), Some(Max(allocation.tokenLimit - spent.tokens - row.tokens, 0)))
  }

  /** The outcome of one transaction on one project; `None` when the allocation row is missing. */
  function ReserveOn(allocations: map<string, Allocation>, rows: seq<Reservation>, id: string,
                     request: Request, project: string): (seq<Reservation>, Option<BudgetResult>) {
    if project !in allocations then (rows, None) else
    var allocation, spent := allocations[project], Outstanding(rows, project);
    match Breach(allocation, spent, EstimateOf(request))
    case Some(reason) => (rows, Some(BreachResult(allocation, spent, reason)))
    case None =>
      var row := NewReservation(id, project, request);
      (rows + [row], Some(AllowResult(allocation, spent, row)))
  }

  /** A whole `reserve` call with nobody else around. */
  function ReserveAlone(allocations: map<string, Allocation>, rows: seq<Reservation>, id: string,
                   request: Request): (seq<Reservation>, BudgetResult) {
    match ReserveOn(allocations, rows, id, request, Scope(request))
    case (rows1, Some(result)) => (rows1, result)
    case (_, None) =>
      match ReserveOn(allocations, rows, id, request, DEFAULT_PROJECT)
      case (rows2, Some(result)) => (rows2, result)
      case (_, None) => (rows, ALLOCATION_MISSING)
  }

  predicate IsActiveFor(rows: seq<Reservation>, i: int, taskId: string) {
    0 <= i < |rows| && rows[i].taskId == taskId && rows[i].status == Reserved
  }

  /** `Reserve` runs one attempt or two; `faulty` says that the database raised during the n-th. */
  datatype Attempt = Missing | Raised | Decided(result: BudgetResult)

  class PostgresBudgetRuntimeClient {
    const allocations: map<string, Allocation>
    var rows: seq<Reservation>
    var drawn: nat

    constructor (allocations: map<string, Allocation>)
      ensures this.allocations == allocations && rows == [] && drawn == 0
    {
      this.allocations := allocations;
      rows, drawn := [], 0;
    }

    method ReserveForProject(request: Request, project: string, faulty: bool) returns (attempt: Attempt)
      modifies this
      ensures drawn >= old(drawn)
      ensures faulty ==> attempt == Raised && rows == old(rows)
      ensures !faulty ==>
        match ReserveOn(allocations, old(rows), FreshId(old(drawn)), request, project)
        case (after, Some(result)) => attempt == Decided(result) && rows == after
        case (after, None) => attempt == Missing && rows == after && drawn == old(drawn)
    {
      hide EstimateOf, Outstanding;
      if faulty {
        return Raised;
      }
      var estimate := EstimateOf(request);
      if project !in allocations {
        return Missing;
      }
      var allocation := allocations[project];
      var spent := Outstanding(rows, project);
      if spent.tokens + estimate.tokens > allocation.tokenLimit {
        return Decided(BreachResult(allocation, spent, "budget_quota_hard_breach"));
      }
      if spent.usd * 100 + estimate.usd > allocation.usdLimit * 100 {
        return Decided(BreachResult(allocation, spent, "budget_currency_hard_breach"));
      }
      var row := NewReservation(FreshId(drawn), project, request);
      drawn := drawn + 1;
      rows := rows + [row];
      return Decided(AllowResult(allocation, spent, row));
    }

    /** Never raises; a database error on either attempt leaves no row and is reported as
        uncertain. */
    method Reserve(request: Request, faulty: bool, fallbackFaulty: bool) returns (result: BudgetResult)
      modifies this
      ensures !faulty && (!fallbackFaulty || Scope(request) in allocations || Scope(request) == DEFAULT_PROJECT) ==>
        (rows, result) == ReserveAlone(allocations, old(rows), FreshId(old(drawn)), request)
      ensures result.decision.Allow? ==> |rows| == |old(rows)| + 1 && rows[..|old(rows)|] == old(rows)
      ensures !result.decision.Allow? ==> rows == old(rows)
      ensures faulty || (fallbackFaulty && Scope(request) !in allocations && Scope(request) != DEFAULT_PROJECT) ==>
        result == UNAVAILABLE
    {
      var project := Scope(request);
      var attempt := ReserveForProject(request, project, faulty);
      match attempt
      case Decided(decided) => return decided;
      case Raised => return UNAVAILABLE;
      case Missing =>
        if project != DEFAULT_PROJECT {
          attempt := ReserveForProject(request, DEFAULT_PROJECT, fallbackFaulty);
          match attempt
          case Decided(decided) => return decided;
          case Raised => return UNAVAILABLE;
          case Missing =>
        }
        return ALLOCATION_MISSING;
    }

    /** `find_active_reservation_id` followed by one UPDATE, shared by `settle` and `release`. */
    method Close(taskId: string, status: Status) returns (closed: Option<int>)
      requires !status.Reserved?
      modifies this`rows
      ensures closed.None? ==> rows == old(rows) && forall i :: !IsActiveFor(rows, i, taskId)
      ensures closed.Some? ==>
        && IsActiveFor(old(rows), closed.value, taskId)
        && rows == old(rows)[closed.value := old(rows)[closed.value].(status := status)]
    {
      if i :| 0 <= i < |rows| && IsActiveFor(rows, i, taskId) {
        rows := rows[i := rows[i].(status := status)];
        return Some(i);
      }
      return None;
    }
  }
}
