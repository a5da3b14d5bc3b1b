/** What applying obligations guarantees (policy_runtime_integration/obligations.py,
    budget_runtime/reservation_service.py). */
module ObligationResults {
  import opened PyText
  import opened TaskState
  import opened Obligations

  // ----- order -----

  function Rank(o: string): nat {
    if o == OBLIGATION_ORDER[0] then 0
    else if o == OBLIGATION_ORDER[1] then 1
    else if o == OBLIGATION_ORDER[2] then 2
    else if o == OBLIGATION_ORDER[3] then 3
    else 4
  }

  lemma {:induction false} UnknownMembers(obligations: seq<string>)
    ensures forall o :: o in Unknown(obligations) <==> o in obligations && o !in OBLIGATION_ORDER
  {
    if obligations != [] {
      UnknownMembers(obligations[..|obligations| - 1]);
      assert obligations == obligations[..|obligations| - 1] + [obligations[|obligations| - 1]];
    }
  }

  lemma NoUnknown(obligations: seq<string>)
    requires forall o <- obligations :: o in OBLIGATION_ORDER
    ensures Unknown(obligations) == []
  {
    if obligations != [] {
      NoUnknown(obligations[..|obligations| - 1]);
    }
  }

  /** The list holds what was asked for and nothing else; the known ones come first, once each and
      in canonical order. */
  lemma OrderedIsCanonical(obligations: seq<string>)
    ensures forall o :: o in Ordered(obligations) <==> o in obligations
    ensures forall i, j | 0 <= i < j < |Ordered(obligations)| ::
      || Rank(Ordered(obligations)[i]) < Rank(Ordered(obligations)[j])
      || (Rank(Ordered(obligations)[i]) == 4 && Rank(Ordered(obligations)[j]) == 4)
  {
    UnknownMembers(obligations);
    hide Unknown;
    KnownMembers(obligations);
    var known, unknown := Known(obligations), Unknown(obligations);
    forall i | 0 <= i < |unknown|
      ensures Rank(unknown[i]) == 4
    {
      assert unknown[i] in unknown;
      RankOfUnknown(unknown[i]);
    }
    hide Known, Rank;
  }

  lemma RankOfUnknown(o: string)
    ensures Rank(o) == 4 <==> o !in OBLIGATION_ORDER
  {
    assert OBLIGATION_ORDER[0] in OBLIGATION_ORDER && OBLIGATION_ORDER[1] in OBLIGATION_ORDER;
    assert OBLIGATION_ORDER[2] in OBLIGATION_ORDER && OBLIGATION_ORDER[3] in OBLIGATION_ORDER;
  }

  lemma KnownMembers(obligations: seq<string>)
    ensures forall o :: o in Known(obligations) <==> o in obligations && o in OBLIGATION_ORDER
    ensures forall i, j | 0 <= i < j < |Known(obligations)| :: Rank(Known(obligations)[i]) < Rank(Known(obligations)[j])
    ensures forall i | 0 <= i < |Known(obligations)| :: Rank(Known(obligations)[i]) < 4
  {
    hide *;
    RanksOfKnown();
    KnownIs(obligations);
    var a := [] + OneIfAsked(obligations, 0);
    var b := a + OneIfAsked(obligations, 1);
    var c := b + OneIfAsked(obligations, 2);
    RanksGrow([], a, obligations, 0);
    RanksGrow(a, b, obligations, 1);
    RanksGrow(b, c, obligations, 2);
    RanksGrow(c, Known(obligations), obligations, 3);
  }

  lemma KnownIs(obligations: seq<string>)
    ensures |OBLIGATION_ORDER| == 4
    ensures Known(obligations) == [] + OneIfAsked(obligations, 0) + OneIfAsked(obligations, 1)
      + OneIfAsked(obligations, 2) + OneIfAsked(obligations, 3)
    ensures forall o :: o in OBLIGATION_ORDER <==>
      (o == OBLIGATION_ORDER[0] || o == OBLIGATION_ORDER[1] || o == OBLIGATION_ORDER[2] || o == OBLIGATION_ORDER[3])
  {
  }

  function OneIfAsked(obligations: seq<string>, k: nat): seq<string>
    requires k < 4
  {
    if OBLIGATION_ORDER[k] in obligations then [OBLIGATION_ORDER[k]] else []
  }

  lemma RanksOfKnown()
    ensures |OBLIGATION_ORDER| == 4 && forall k | 0 <= k < 4 :: Rank(OBLIGATION_ORDER[k]) == k
  {
    var o := OBLIGATION_ORDER;
    assert Rank(o[0]) == 0 && Rank(o[1]) == 1 && Rank(o[2]) == 2 && Rank(o[3]) == 3;
  }

  lemma RanksGrow(before: seq<string>, after: seq<string>, obligations: seq<string>, k: nat)
    requires k < 4 && after == before + OneIfAsked(obligations, k)
    requires Rank(OBLIGATION_ORDER[k]) == k
    requires forall i, j | 0 <= i < j < |before| :: Rank(before[i]) < Rank(before[j])
    requires forall i | 0 <= i < |before| :: Rank(before[i]) < k
    ensures forall i, j | 0 <= i < j < |after| :: Rank(after[i]) < Rank(after[j])
    ensures forall i | 0 <= i < |after| :: Rank(after[i]) < k + 1
    ensures forall o :: o in after <==> o in before || (o == OBLIGATION_ORDER[k] && o in obligations)
  {
    hide Rank;
  }

  /** Two requests are applied alike exactly when they ask for the same known obligations and list
      the same unknown ones; order and duplicates of known obligations make no difference. */
  lemma OrderIgnoresArrangement(a: seq<string>, b: seq<string>)
    ensures Ordered(a) == Ordered(b) <==> (forall o <- OBLIGATION_ORDER :: o in a <==> o in b) && Unknown(a) == Unknown(b)
  {
    UnknownMembers(a);
    UnknownMembers(b);
    KnownMembers(a);
    KnownMembers(b);
    hide Unknown, Rank;
    assert OBLIGATION_ORDER[0] in OBLIGATION_ORDER && OBLIGATION_ORDER[1] in OBLIGATION_ORDER;
    assert OBLIGATION_ORDER[2] in OBLIGATION_ORDER && OBLIGATION_ORDER[3] in OBLIGATION_ORDER;
    if Ordered(a) == Ordered(b) {
      hide Known;
      OrderedIsCanonical(a);
      OrderedIsCanonical(b);
      SplitOnce(Known(a), Unknown(a), Known(b), Unknown(b));
    }
  }

  /** A list splits in only one way into known obligations followed by unknown ones. */
  lemma SplitOnce(k1: seq<string>, u1: seq<string>, k2: seq<string>, u2: seq<string>)
    requires k1 + u1 == k2 + u2
    requires (forall o <- k1 :: o in OBLIGATION_ORDER) && (forall o <- k2 :: o in OBLIGATION_ORDER)
    requires (forall o <- u1 :: o !in OBLIGATION_ORDER) && (forall o <- u2 :: o !in OBLIGATION_ORDER)
    ensures k1 == k2 && u1 == u2
  {
    var s := k1 + u1;
    assert forall i | 0 <= i < |s| :: s[i] in OBLIGATION_ORDER <==> i < |k1|;
    assert forall i | 0 <= i < |s| :: s[i] in OBLIGATION_ORDER <==> i < |k2|;
    assert |k1| < |s| ==> s[|k1|] !in OBLIGATION_ORDER;
    assert |k2| < |s| ==> s[|k2|] !in OBLIGATION_ORDER;
    assert k1 == (k1 + u1)[..|k1|] && k2 == (k2 + u2)[..|k2|];
    assert u1 == (k1 + u1)[|k1|..] && u2 == (k2 + u2)[|k2|..];
  }

  // ----- early exit -----

  predicate Stops(o: ObligationOutcome) {
    !o.satisfied && o.blocking
  }

  /** The executed obligations are a prefix of the ordered list. It is the whole list unless an
      obligation blocked, and then that one is the last and the only one to block, or a handler
      raised, and then it is the next on the list. */
  lemma {:induction false} ExecutedIsPrefix(client: Client, state: State, context: Context, ordered: seq<string>)
    ensures var p := Execute(client, Start(state), context, ordered);
      && |p.outcomes| <= |ordered|
      && (forall i | 0 <= i < |p.outcomes| :: p.outcomes[i].obligation == ordered[i])
      && (forall i | 0 <= i < |p.outcomes| - 1 :: !Stops(p.outcomes[i]))
      && match p.ending
         case Running => |p.outcomes| == |ordered| && forall o <- p.outcomes :: !Stops(o)
         case BlockedBy(o) =>
           |p.outcomes| > 0 && p.outcomes[|p.outcomes| - 1].obligation == o && Stops(p.outcomes[|p.outcomes| - 1])
         case RaisedIn(o) =>
           |p.outcomes| < |ordered| && ordered[|p.outcomes|] == o && forall q <- p.outcomes :: !Stops(q)
    decreases |ordered|
  {
    hide Dispatch;
    if ordered != [] {
      ExecutedIsPrefix(client, state, context, ordered[..|ordered| - 1]);
      var q := Execute(client, Start(state), context, ordered[..|ordered| - 1]);
      OutcomeNamesObligation(client, q.state, context, ordered[|ordered| - 1]);
    }
  }

  lemma OutcomeNamesObligation(client: Client, state: State, context: Context, obligation: string)
    ensures var (_, outcome) := Dispatch(client, state, context, obligation);
      outcome.Some? ==> outcome.value.obligation == obligation
  {
    hide ReserveFor;
  }

  lemma {:induction false} ExecuteInStages(client: Client, p: Progress, context: Context, a: seq<string>, b: seq<string>)
    ensures Execute(client, p, context, a + b) == Execute(client, Execute(client, p, context, a), context, b)
    decreases |b|
  {
    hide After;
    if b == [] {
      assert a + b == a;
    } else {
      ExecuteInStages(client, p, context, a, b[..|b| - 1]);
      assert (a + b)[..|a + b| - 1] == a + b[..|b| - 1];
    }
  }

  /** One optional known obligation. */
  function Maybe(client: Client, p: Progress, context: Context, obligations: seq<string>, o: string): Progress {
    if o in obligations && p.ending.Running? then After(client, p, context, o) else p
  }

  lemma ExecuteMaybe(client: Client, p: Progress, context: Context, obligations: seq<string>, o: string)
    ensures Execute(client, p, context, if o in obligations then [o] else []) == Maybe(client, p, context, obligations, o)
  {
    assert [o][..0] == [];
    hide After;
  }

  /** The first unknown obligation blocks, whatever it is. */
  lemma {:induction false} ExecuteUnknown(client: Client, p: Progress, context: Context, unknown: seq<string>)
    requires forall o <- unknown :: o !in OBLIGATION_ORDER
    ensures Execute(client, p, context, unknown) ==
      if unknown == [] || !p.ending.Running? then p
      else Progress(p.state, p.outcomes + [ObligationOutcome(unknown[0], false, true)], BlockedBy(unknown[0]))
    decreases |unknown|
  {
    if unknown != [] {
      var last := |unknown| - 1;
      ExecuteUnknown(client, p, context, unknown[..last]);
      if last == 0 && p.ending.Running? {
        UnknownBlocks(client, p.state, context, unknown[0]);
      }
    }
  }

  lemma UnknownBlocks(client: Client, state: State, context: Context, o: string)
    requires o !in OBLIGATION_ORDER
    ensures Dispatch(client, state, context, o) == (state, Some(ObligationOutcome(o, false, true)))
  {
    RankOfUnknown(o);
  }

  /** A whole application, obligation by obligation. */
  lemma ApplyInStages(client: Client, state: State, context: Context, obligations: seq<string>)
    ensures var p1 := Maybe(client, Start(state), context, obligations, OBLIGATION_ORDER[0]);
      var p2 := Maybe(client, p1, context, obligations, OBLIGATION_ORDER[1]);
      var p3 := Maybe(client, p2, context, obligations, OBLIGATION_ORDER[2]);
      var p4 := Maybe(client, p3, context, obligations, OBLIGATION_ORDER[3]);
      Execute(client, Start(state), context, Ordered(obligations)) == Execute(client, p4, context, Unknown(obligations))
  {
    hide Execute, Maybe, Unknown;
    var part := i requires 0 <= i < 4 => if OBLIGATION_ORDER[i] in obligations then [OBLIGATION_ORDER[i]] else [];
    var p1 := Maybe(client, Start(state), context, obligations, OBLIGATION_ORDER[0]);
    var p2 := Maybe(client, p1, context, obligations, OBLIGATION_ORDER[1]);
    var p3 := Maybe(client, p2, context, obligations, OBLIGATION_ORDER[2]);
    ExecuteMaybe(client, Start(state), context, obligations, OBLIGATION_ORDER[0]);
    ExecuteMaybe(client, p1, context, obligations, OBLIGATION_ORDER[1]);
    ExecuteMaybe(client, p2, context, obligations, OBLIGATION_ORDER[2]);
    ExecuteMaybe(client, p3, context, obligations, OBLIGATION_ORDER[3]);
    ExecuteInStages(client, Start(state), context, part(0) + part(1) + part(2) + part(3), Unknown(obligations));
    ExecuteInStages(client, Start(state), context, part(0) + part(1) + part(2), part(3));
    ExecuteInStages(client, Start(state), context, part(0) + part(1), part(2));
    ExecuteInStages(client, Start(state), context, part(0), part(1));
  }

  // ----- fail closed -----

  /** A task's first request is granted exactly if the client answers it with an allowance: an exception,
      a denial, a breached limit and an uncertain answer are all refused, each with a code. Later requests
      get the same outcome and ask nobody. */
  lemma FirstAskIsFailClosed(client: Client, service: Service, taskId: string)
    ensures var (after, outcome) := ReserveFor(client, service, taskId);
      if taskId in service.outcomes then after == service && outcome == service.outcomes[taskId]
      else
        var reply := client(|service.asked|);
        && after.asked == service.asked + [taskId]
        && after.outcomes == service.outcomes[taskId := outcome]
        && (outcome.allowed <==> reply.Some? && reply.value.decision == Allow)
        && (outcome.allowed <==> outcome.errorCode.None?)
        && (reply.None? ==> outcome.errorCode == Some("budget_runtime_error_fail_closed"))
        && (reply.Some? && reply.value.decision == Uncertain ==> outcome.errorCode == Some("budget_uncertain_fail_closed"))
        && (reply.Some? && reply.value.decision in {Deny, HardBreach} ==> outcome.errorCode == Some(reply.value.reasonCode))
  {
  }

  /** Budget was not asked for; or the task has been granted it before; or it asks now and the client
      answers with an allowance. */
  predicate BudgetGranted(client: Client, state: State, context: Context, obligations: seq<string>) {
    "reserve_budget" in obligations ==>
      if context.taskId in state.service.outcomes then state.service.outcomes[context.taskId].allowed
      else client(|state.service.asked|).Some? && client(|state.service.asked|).value.decision == Allow
  }

  /** Asking for owner approval always stops the run: budget is never touched, the result names the
      approval, and the stored task is blocked; or the status update itself raises. */
  lemma ApprovalPrecludesReservation(client: Client, state: State, context: Context, obligations: seq<string>)
    requires OBLIGATION_ORDER[1] in obligations
    ensures var p := Execute(client, Start(state), context, Ordered(obligations));
      && p.state.service == state.service
      && (if BlockingRaises(state.statuses, context)
          then p.ending == RaisedIn(OBLIGATION_ORDER[1]) && p.state == state
          else p.ending == BlockedBy(OBLIGATION_ORDER[1])
               && (context.taskId in state.statuses ==> p.state.statuses == state.statuses[context.taskId := "blocked"]))
  {
    ApplyInStages(client, state, context, obligations);
    UnknownMembers(obligations);
    hide Execute, Unknown, ReserveFor, LegalTransitions;
    var p1 := Maybe(client, Start(state), context, obligations, OBLIGATION_ORDER[0]);
    var p2 := Maybe(client, p1, context, obligations, OBLIGATION_ORDER[1]);
    assert !p2.ending.Running?;
    ExecuteUnknown(client, p2, context, Unknown(obligations));
  }

  /** Nothing blocks exactly when nothing unknown and no approval is asked for and budget, if
      asked for, is granted; audit and sandbox failures do not block. */
  lemma ProceedsIff(client: Client, state: State, context: Context, obligations: seq<string>)
    ensures Execute(client, Start(state), context, Ordered(obligations)).ending.Running? <==>
      && (forall o <- obligations :: o in OBLIGATION_ORDER && o != OBLIGATION_ORDER[1])
      && BudgetGranted(client, state, context, obligations)
  {
    ApplyInStages(client, state, context, obligations);
    UnknownMembers(obligations);
    hide Execute, Unknown, ReserveFor, LegalTransitions;
    if OBLIGATION_ORDER[1] in obligations {
      ApprovalPrecludesReservation(client, state, context, obligations);
    } else {
      var p2 := Maybe(client, Start(state), context, obligations, OBLIGATION_ORDER[0]);
      var p3 := Maybe(client, p2, context, obligations, OBLIGATION_ORDER[2]);
      var p4 := Maybe(client, p3, context, obligations, OBLIGATION_ORDER[3]);
      FirstAskIsFailClosed(client, state.service, context.taskId);
      assert p4.ending.Running? <==> BudgetGranted(client, state, context, obligations);
      ExecuteUnknown(client, p4, context, Unknown(obligations));
      assert Unknown(obligations) != [] ==> Unknown(obligations)[0] in Unknown(obligations);
    }
  }

  /** Everything is satisfied exactly when nothing blocks and, if asked for, the audit record was
      written and the sandbox bound. */
  lemma SatisfiedIff(client: Client, state: State, context: Context, obligations: seq<string>)
    ensures var result := ResultOf(Execute(client, Start(state), context, Ordered(obligations)));
      (result.Some? && result.value.allSatisfied) <==>
        && (forall o <- obligations :: o in OBLIGATION_ORDER && o != OBLIGATION_ORDER[1])
        && BudgetGranted(client, state, context, obligations)
        && (OBLIGATION_ORDER[0] in obligations ==> !context.auditFails)
        && (OBLIGATION_ORDER[3] in obligations ==> !context.sandboxFails)
  {
    ApplyInStages(client, state, context, obligations);
    ProceedsIff(client, state, context, obligations);
    ExecutedIsPrefix(client, state, context, Ordered(obligations));
    UnknownMembers(obligations);
    hide Execute, Unknown, ReserveFor, LegalTransitions, Ordered, BudgetGranted;
    var p := Execute(client, Start(state), context, Ordered(obligations));
    if p.ending.Running? {
      NoUnknown(obligations);
      var p2 := Maybe(client, Start(state), context, obligations, OBLIGATION_ORDER[0]);
      var p3 := Maybe(client, p2, context, obligations, OBLIGATION_ORDER[2]);
      var p4 := Maybe(client, p3, context, obligations, OBLIGATION_ORDER[3]);
      ExecuteUnknown(client, p4, context, Unknown(obligations));
      MaybeSatisfied(client, Start(state), context, obligations, OBLIGATION_ORDER[0]);
      MaybeSatisfied(client, p2, context, obligations, OBLIGATION_ORDER[2]);
      MaybeSatisfied(client, p3, context, obligations, OBLIGATION_ORDER[3]);
    } else {
      assert p.ending.BlockedBy? ==> p.outcomes[|p.outcomes| - 1] in p.outcomes;
    }
  }

  lemma MaybeSatisfied(client: Client, p: Progress, context: Context, obligations: seq<string>, o: string)
    requires o in OBLIGATION_ORDER && p.ending.Running? && Maybe(client, p, context, obligations, o).ending.Running?
    ensures AllSatisfied(Maybe(client, p, context, obligations, o).outcomes) <==>
      && AllSatisfied(p.outcomes)
      && (o in obligations && o == OBLIGATION_ORDER[0] ==> !context.auditFails)
      && (o in obligations && o == OBLIGATION_ORDER[3] ==> !context.sandboxFails)
  {
    hide ReserveFor, LegalTransitions;
    var q := Maybe(client, p, context, obligations, o);
    if o in obligations {
      assert q.outcomes[..|p.outcomes|] == p.outcomes && |q.outcomes| == |p.outcomes| + 1;
      assert forall x <- p.outcomes :: x in q.outcomes;
      assert q.outcomes[|p.outcomes|] in q.outcomes;
    }
  }

  // ----- at most one reservation per task -----

  /** One use of the service: obligations applied while the stored statuses are whatever others have
      made of them. */
  datatype Application = Application(obligations: seq<string>, context: Context, statuses: map<string, string>)

  function RunService(client: Client, applications: seq<Application>): Service {
    if applications == [] then Service(map[], []) else
    var service, a := RunService(client, applications[..|applications| - 1]), applications[|applications| - 1];
    Execute(client, Start(State(service, a.statuses)), a.context, Ordered(a.obligations)).state.service
  }

  /** The client was asked about each task at most once, and the answer it gave then is the cached
      outcome, allowed only if the answer was an allowance. */
  ghost predicate AskedOnce(client: Client, service: Service) {
    && (forall i, j | 0 <= i < j < |service.asked| :: service.asked[i] != service.asked[j])
    && (forall t :: t in service.outcomes <==> t in service.asked)
    && (forall i | 0 <= i < |service.asked| ::
          service.asked[i] in service.outcomes && service.outcomes[service.asked[i]] == OutcomeOf(client(i)))
    && (forall i | 0 <= i < |service.asked| ::
          service.outcomes[service.asked[i]].allowed <==> client(i).Some? && client(i).value.decision == Allow)
  }

  /** Nothing decided is forgotten or changed. */
  predicate Extends(before: Service, after: Service) {
    && before.asked <= after.asked
    && (forall t | t in before.outcomes :: t in after.outcomes && after.outcomes[t] == before.outcomes[t])
  }

  lemma ReserveKeeps(client: Client, service: Service, taskId: string)
    requires AskedOnce(client, service)
    ensures AskedOnce(client, ReserveFor(client, service, taskId).0)
    ensures Extends(service, ReserveFor(client, service, taskId).0)
  {
    FirstAskIsFailClosed(client, service, taskId);
    hide OutcomeOf;
  }

  lemma {:induction false} ExecuteKeeps(client: Client, state: State, context: Context, ordered: seq<string>)
    requires AskedOnce(client, state.service)
    ensures AskedOnce(client, Execute(client, Start(state), context, ordered).state.service)
    ensures Extends(state.service, Execute(client, Start(state), context, ordered).state.service)
    decreases |ordered|
  {
    hide AskedOnce, ReserveFor;
    if ordered != [] {
      ExecuteKeeps(client, state, context, ordered[..|ordered| - 1]);
      ReserveKeeps(client, Execute(client, Start(state), context, ordered[..|ordered| - 1]).state.service, context.taskId);
    }
  }

  /** Over any run of applications the client is asked at most once per task... */
  lemma {:induction false} ClientAskedOnce(client: Client, applications: seq<Application>)
    ensures AskedOnce(client, RunService(client, applications))
    decreases |applications|
  {
    if applications != [] {
      var a := applications[|applications| - 1];
      ClientAskedOnce(client, applications[..|applications| - 1]);
      hide AskedOnce, Execute;
      ExecuteKeeps(client, State(RunService(client, applications[..|applications| - 1]), a.statuses), a.context, Ordered(a.obligations));
    }
  }

  /** ...and a task's outcome, once known, is the same at every later point of the run. */
  lemma {:induction false} OutcomesAreFinal(client: Client, applications: seq<Application>, n: nat)
    requires n <= |applications|
    ensures Extends(RunService(client, applications[..n]), RunService(client, applications))
    decreases |applications|
  {
    hide AskedOnce, Execute;
    if n == |applications| {
      assert applications[..n] == applications;
    } else {
      var init, a := applications[..|applications| - 1], applications[|applications| - 1];
      assert init[..n] == applications[..n];
      OutcomesAreFinal(client, init, n);
      ClientAskedOnce(client, init);
      ExecuteKeeps(client, State(RunService(client, init), a.statuses), a.context, Ordered(a.obligations));
    }
  }

  /** Over any run, an application in which nothing is unknown and no approval is asked for proceeds
      exactly if it asks for no budget or the one answer the client ever gave about its task is an
      allowance. No application with any other obligations proceeds. */
  lemma ProceedsOnlyOnAllowance(client: Client, applications: seq<Application>, a: Application)
    ensures var state := State(RunService(client, applications), a.statuses);
      var p := Execute(client, Start(state), a.context, Ordered(a.obligations));
      p.ending.Running? <==>
        && (forall o <- a.obligations :: o in {"emit_audit_event", "reserve_budget", "enforce_sandbox_profile"})
        && ("reserve_budget" in a.obligations ==>
              exists i :: 0 <= i < |p.state.service.asked| && AllowanceFor(client, p.state.service, i, a.context.taskId))
  {
    hide *;
    var state := State(RunService(client, applications), a.statuses);
    ClientAskedOnce(client, applications);
    ProceedsIff(client, state, a.context, a.obligations);
    KnownNames(a.obligations);
    GrantedIsAllowed(client, state, a.context, a.obligations);
    if forall o <- a.obligations :: o in {"emit_audit_event", "reserve_budget", "enforce_sandbox_profile"} {
      ReservationReached(client, state, a.context, a.obligations);
      AllowanceIsOnlyAnswer(client, state.service, a.context.taskId);
    }
  }

  lemma GrantedIsAllowed(client: Client, state: State, context: Context, obligations: seq<string>)
    ensures BudgetGranted(client, state, context, obligations) <==>
      ("reserve_budget" in obligations ==> ReserveFor(client, state.service, context.taskId).1.allowed)
  {
    FirstAskIsFailClosed(client, state.service, context.taskId);
    hide ReserveFor;
  }

  /** The i-th task asked about is this one, and the answer was an allowance. */
  predicate AllowanceFor(client: Client, service: Service, i: nat, taskId: string)
    requires i < |service.asked|
  {
    service.asked[i] == taskId && client(i).Some? && client(i).value.decision == Allow
  }

  lemma KnownNames(obligations: seq<string>)
    ensures (forall o <- obligations :: o in OBLIGATION_ORDER && o != OBLIGATION_ORDER[1])
       <==> forall o <- obligations :: o in {"emit_audit_event", "reserve_budget", "enforce_sandbox_profile"}
  {
    forall o: string
      ensures o in OBLIGATION_ORDER && o != OBLIGATION_ORDER[1]
         <==> o in {"emit_audit_event", "reserve_budget", "enforce_sandbox_profile"}
    {
      RankOfUnknown(o);
      assert |"emit_audit_event"| == 16 && |"require_owner_approval"| == 22 && |"reserve_budget"| == 14;
      assert |"enforce_sandbox_profile"| == 23;
    }
  }

  /** Where no approval is asked for, the reservation is reached. */
  lemma ReservationReached(client: Client, state: State, context: Context, obligations: seq<string>)
    requires OBLIGATION_ORDER[1] !in obligations
    ensures Execute(client, Start(state), context, Ordered(obligations)).state.service ==
      if "reserve_budget" in obligations then ReserveFor(client, state.service, context.taskId).0 else state.service
  {
    ApplyInStages(client, state, context, obligations);
    UnknownMembers(obligations);
    hide Execute, Unknown, ReserveFor;
    var p2 := Maybe(client, Start(state), context, obligations, OBLIGATION_ORDER[0]);
    var p3 := Maybe(client, p2, context, obligations, OBLIGATION_ORDER[2]);
    var p4 := Maybe(client, p3, context, obligations, OBLIGATION_ORDER[3]);
    ExecuteUnknown(client, p4, context, Unknown(obligations));
  }

  lemma AllowanceIsOnlyAnswer(client: Client, service: Service, taskId: string)
    requires AskedOnce(client, service)
    ensures var (after, outcome) := ReserveFor(client, service, taskId);
      outcome.allowed <==> exists i :: 0 <= i < |after.asked| && AllowanceFor(client, after, i, taskId)
  {
    FirstAskIsFailClosed(client, service, taskId);
    ReserveKeeps(client, service, taskId);
    hide ReserveFor, OutcomeOf;
    var (after, outcome) := ReserveFor(client, service, taskId);
    assert taskId in after.asked;
    var i :| 0 <= i < |after.asked| && after.asked[i] == taskId;
    assert outcome.allowed <==> AllowanceFor(client, after, i, taskId);
  }
}
