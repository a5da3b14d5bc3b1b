/** Policy obligations and the budget reservations they trigger
    (policy_runtime_integration/obligations.py, budget_runtime/reservation_service.py). */
module Obligations {
  import opened PyText
  import opened TaskState

  // ----- the reservation service -----

  datatype Decision = Allow | Deny | HardBreach | Uncertain

  datatype Reservation = Reservation(decision: Decision, reasonCode: string, reasonMessage: string, reservationId: Option<string>)

  /** What the n-th call of the budget client does; `None` is an exception. */
  type Client = nat -> Option<Reservation>

  datatype FailClosedOutcome = FailClosedOutcome(
    allowed: bool, errorCode: Option<string>, message: string, reservation: Option<Reservation>)

  function OutcomeOf(reply: Option<Reservation>): FailClosedOutcome {
    match reply
    case None => FailClosedOutcome(false, Some("budget_runtime_error_fail_closed"), "budget reservation failed", None)
    case Some(r) =>
      match r.decision
      case Allow => FailClosedOutcome(true, None, r.reasonMessage, reply)
      case Deny => FailClosedOutcome(false, Some(r.reasonCode), r.reasonMessage, reply)
      case HardBreach => FailClosedOutcome(false, Some(r.reasonCode), r.reasonMessage, reply)
      case Uncertain =>
        FailClosedOutcome(false, Some("budget_uncertain_fail_closed"), "budget decision uncertain; fail-closed block applied", reply)
  }

  /** The cache, and the tasks the client has been asked about, in order. */
  datatype Service = Service(outcomes: map<string, FailClosedOutcome>, asked: seq<string>)

  function ReserveFor(client: Client, service: Service, taskId: string): (Service, FailClosedOutcome) {
    if taskId in service.outcomes then (service, service.outcomes[taskId]) else
    var outcome := OutcomeOf(client(|service.asked|));
    (Service(service.outcomes[taskId := outcome], service.asked + [taskId]), outcome)
  }

  class BudgetReservationService {
    const client: Client
    var taskOutcomes: map<string, FailClosedOutcome>
    var asked: seq<string>

    constructor (client: Client)
      ensures this.client == client && Value() == Service(map[], [])
    {
      this.client := client;
      taskOutcomes, asked := map[], [];
    }

    function Value(): Service
      reads this
    {
      Service(taskOutcomes, asked)
    }

    method ReserveWithFailClosed(taskId: string) returns (outcome: FailClosedOutcome)
      modifies this
      ensures (Value(), outcome) == ReserveFor(client, old(Value()), taskId)
    {
      if taskId in taskOutcomes {
        return taskOutcomes[taskId];
      }
      var reply := client(|asked|);
      asked := asked + [taskId];
      match reply {
        case None =>
          outcome := FailClosedOutcome(false, Some("budget_runtime_error_fail_closed"), "budget reservation failed", None);
        case Some(r) =>
          if r.decision == Allow {
            outcome := FailClosedOutcome(true, None, r.reasonMessage, reply);
          } else if r.decision == Deny || r.decision == HardBreach {
            outcome := FailClosedOutcome(false, Some(r.reasonCode), r.reasonMessage, reply);
          } else {
            outcome := FailClosedOutcome(false, Some("budget_uncertain_fail_closed"),
                                         "budget decision uncertain; fail-closed block applied", reply);
          }
      }
      taskOutcomes := taskOutcomes[taskId := outcome];
    }
  }

  // ----- the dispatcher -----

  const OBLIGATION_ORDER := ["emit_audit_event", "require_owner_approval", "reserve_budget", "enforce_sandbox_profile"]

  datatype ObligationOutcome = ObligationOutcome(obligation: string, satisfied: bool, blocking: bool)

  datatype ApplicationResult = ApplicationResult(
    allSatisfied: bool, outcomes: seq<ObligationOutcome>, blockingObligation: Option<string>)

  /** What the handlers meet outside the budget service: whether the audit write, the status update
      and the sandbox binding raise. */
  datatype Context = Context(taskId: string, auditFails: bool, updateFails: bool, sandboxFails: bool)

  /** The state obligations act on: the reservation service and the stored task statuses. */
  datatype State = State(service: Service, statuses: map<string, string>)

  /** `update_task_status(task_id, "blocked")` raises: the database fails, or the guard objects. */
  predicate BlockingRaises(statuses: map<string, string>, context: Context) {
    context.updateFails || (context.taskId in statuses && !UpdateAllowed(statuses[context.taskId], "blocked"))
  }

  function Blocked(statuses: map<string, string>, taskId: string): map<string, string> {
    if taskId in statuses then statuses[taskId := "blocked"] else statuses
  }

  /** One handler; `None` when it raises. */
  function Dispatch(client: Client, state: State, context: Context, obligation: string): (State, Option<ObligationOutcome>) {
    if obligation == "emit_audit_event" then
      (state, Some(ObligationOutcome(obligation, !context.auditFails, false)))
    else if obligation == "require_owner_approval" then
      if BlockingRaises(state.statuses, context) then (state, None)
      else (state.(statuses := Blocked(state.statuses, context.taskId)), Some(ObligationOutcome(obligation, false, true)))
    else if obligation == "reserve_budget" then
      var (service, outcome) := ReserveFor(client, state.service, context.taskId);
      (state.(service := service), Some(ObligationOutcome(obligation, outcome.allowed, !outcome.allowed)))
    else if obligation == "enforce_sandbox_profile" then
      (state, Some(ObligationOutcome(obligation, !context.sandboxFails, false)))
    else
      (state, Some(ObligationOutcome(obligation, false, true)))
  }

  /** The known obligations asked for, each once, in canonical order. */
  function Known(obligations: seq<string>): seq<string> {
    (if OBLIGATION_ORDER[0] in obligations then [OBLIGATION_ORDER[0]] else [])
    + (if OBLIGATION_ORDER[1] in obligations then [OBLIGATION_ORDER[1]] else [])
    + (if OBLIGATION_ORDER[2] in obligations then [OBLIGATION_ORDER[2]] else [])
    + (if OBLIGATION_ORDER[3] in obligations then [OBLIGATION_ORDER[3]] else [])
  }

  /** The others, as given. */
  function Unknown(obligations: seq<string>): seq<string> {
    if obligations == [] then [] else
    var before, o := Unknown(obligations[..|obligations| - 1]), obligations[|obligations| - 1];
    if o in OBLIGATION_ORDER then before else before + [o]
  }

  function Ordered(obligations: seq<string>): seq<string> {
    Known(obligations) + Unknown(obligations)
  }

  datatype Ending = Running | BlockedBy(obligation: string) | RaisedIn(obligation: string)

  datatype Progress = Progress(state: State, outcomes: seq<ObligationOutcome>, ending: Ending)

  function Start(state: State): Progress {
    Progress(state, [], Running)
  }

  /** The dispatch loop over an ordered list, with its early exits. */
  function Execute(client: Client, p: Progress, context: Context, ordered: seq<string>): Progress
    decreases |ordered|
  {
    if ordered == [] then p else
    var q, o := Execute(client, p, context, ordered[..|ordered| - 1]), ordered[|ordered| - 1];
    if q.ending.Running? then After(client, q, context, o) else q
  }

  function After(client: Client, p: Progress, context: Context, obligation: string): Progress {
    match Dispatch(client, p.state, context, obligation)
    case (state, None) => Progress(state, p.outcomes, RaisedIn(obligation))
    case (state, Some(outcome)) =>
      Progress(state, p.outcomes + [outcome],
               if !outcome.satisfied && outcome.blocking then BlockedBy(obligation) else Running)
  }

  predicate AllSatisfied(outcomes: seq<ObligationOutcome>) {
    forall o <- outcomes :: o.satisfied
  }

  /** `None` when an exception escapes `apply`. */
  function ResultOf(p: Progress): Option<ApplicationResult> {
    match p.ending
    case Running => Some(ApplicationResult(AllSatisfied(p.outcomes), p.outcomes, None))
    case BlockedBy(o) => Some(ApplicationResult(AllSatisfied(p.outcomes), p.outcomes, Some(o)))
    case RaisedIn(_) => None
  }

  class TaskRepository {
    var statuses: map<string, string>

    constructor (statuses: map<string, string>)
      ensures this.statuses == statuses
    {
      this.statuses := statuses;
    }

    /** `update_task_status`: a missing task is not an error. */
    method UpdateTaskStatus(taskId: string, status: string, faulty: bool) returns (ok: bool)
      modifies this
      ensures ok <==> !faulty && (taskId in old(statuses) ==> UpdateAllowed(old(statuses)[taskId], status))
      ensures statuses == if ok && taskId in old(statuses) then old(statuses)[taskId := status] else old(statuses)
    {
      if faulty {
        return false;
      }
      if taskId !in statuses {
        return true;
      }
      if statuses[taskId] != status && status !in LegalTransitions(statuses[taskId]) {
        return false;
      }
      statuses := statuses[taskId := status];
      return true;
    }
  }

  class ObligationDispatcher {
    const service: BudgetReservationService
    const repository: TaskRepository

    constructor (service: BudgetReservationService, repository: TaskRepository)
      ensures this.service == service && this.repository == repository
    {
      this.service, this.repository := service, repository;
    }

    function Value(): State
      reads this, service, repository
    {
      State(service.Value(), repository.statuses)
    }

    method DispatchObligation(obligation: string, context: Context) returns (outcome: Option<ObligationOutcome>)
      modifies service, repository
      ensures (Value(), outcome) == Dispatch(service.client, old(Value()), context, obligation)
    {
      hide ReserveFor, LegalTransitions;
      if obligation == "emit_audit_event" {
        return Some(ObligationOutcome(obligation, !context.auditFails, false));
      } else if obligation == "require_owner_approval" {
        var ok := repository.UpdateTaskStatus(context.taskId, "blocked", context.updateFails);
        if !ok {
          return None;
        }
        return Some(ObligationOutcome(obligation, false, true));
      } else if obligation == "reserve_budget" {
        var reserved := service.ReserveWithFailClosed(context.taskId);
        if reserved.allowed {
          return Some(ObligationOutcome(obligation, true, false));
        }
        return Some(ObligationOutcome(obligation, false, true));
      } else if obligation == "enforce_sandbox_profile" {
        return Some(ObligationOutcome(obligation, !context.sandboxFails, false));
      }
      return Some(ObligationOutcome(obligation, false, true));
    }

    method Apply(obligations: seq<string>, context: Context) returns (result: Option<ApplicationResult>)
      modifies service, repository
      ensures var p := Execute(service.client, Start(old(Value())), context, Ordered(obligations));
        Value() == p.state && result == ResultOf(p)
    {
      hide Dispatch, ReserveFor, AllSatisfied, Execute, After, Known;
      var ordered := Known(obligations);
      for i := 0 to |obligations|
        invariant ordered == Known(obligations) + Unknown(obligations[..i])
      {
        assert obligations[..i + 1][..i] == obligations[..i];
        if obligations[i] !in OBLIGATION_ORDER {
          ordered := ordered + [obligations[i]];
        }
      }
      assert obligations[..|obligations|] == obligations;

      var outcomes: seq<ObligationOutcome> := [];
      ghost var begin := Start(Value());
      ExecuteNothing(service.client, begin, context);
      for i := 0 to |ordered|
        invariant Execute(service.client, begin, context, ordered[..i]) == Progress(Value(), outcomes, Running)
      {
        ExecuteOneMore(service.client, begin, context, ordered, i);
        AfterCases(service.client, Progress(Value(), outcomes, Running), context, ordered[i]);
        var outcome := DispatchObligation(ordered[i], context);
        if outcome.None? {
          EndedStays(service.client, begin, context, ordered, i + 1);
          return None;
        }
        outcomes := outcomes + [outcome.value];
        if !outcome.value.satisfied && outcome.value.blocking {
          EndedStays(service.client, begin, context, ordered, i + 1);
          return Some(ApplicationResult(AllSatisfied(outcomes), outcomes, Some(ordered[i])));
        }
      }
      assert ordered[..|ordered|] == ordered;
      return Some(ApplicationResult(AllSatisfied(outcomes), outcomes, None));
    }
  }

  lemma ExecuteNothing(client: Client, p: Progress, context: Context)
    ensures Execute(client, p, context, []) == p
  {
  }

  lemma ExecuteOneMore(client: Client, p: Progress, context: Context, ordered: seq<string>, i: nat)
    requires i < |ordered|
    ensures var q := Execute(client, p, context, ordered[..i]);
      Execute(client, p, context, ordered[..i + 1]) == if q.ending.Running? then After(client, q, context, ordered[i]) else q
  {
    hide After;
    assert ordered[..i + 1][..i] == ordered[..i];
  }

  lemma AfterCases(client: Client, p: Progress, context: Context, o: string)
    ensures var (state, outcome) := Dispatch(client, p.state, context, o);
      After(client, p, context, o) ==
        if outcome.None? then Progress(state, p.outcomes, RaisedIn(o))
        else if !outcome.value.satisfied && outcome.value.blocking then Progress(state, p.outcomes + [outcome.value], BlockedBy(o))
        else Progress(state, p.outcomes + [outcome.value], Running)
  {
    hide Dispatch;
  }

  lemma {:induction false} EndedStays(client: Client, p: Progress, context: Context, ordered: seq<string>, n: nat)
    requires n <= |ordered| && !Execute(client, p, context, ordered[..n]).ending.Running?
    ensures Execute(client, p, context, ordered) == Execute(client, p, context, ordered[..n])
    decreases |ordered|
  {
    hide After;
    if n == |ordered| {
      assert ordered[..n] == ordered;
    } else {
      var init := ordered[..|ordered| - 1];
      assert init[..n] == ordered[..n];
      EndedStays(client, p, context, init, n);
    }
  }
}
