/** Uninterrupted reservations, and what rounding in the money column does to the limit
    (budget_runtime/client.py, the NUMERIC(12, 6) columns of budget_reservations). */
module BudgetPricing {
  import opened PyText
  import opened MessageLedger
  import opened Budget
  import opened BudgetRuns
  import opened BudgetResults

  predicate NobodyHolds(w: World) {
    forall s | 0 <= s < |w.sessions| :: w.sessions[s].phase.Done?
  }

  /** One call from arrival to commit. The second `Select` is the fallback; an action the call does
      not need is not enabled and does nothing. */
  function LoneCall(s: nat, request: Request): seq<Action> {
    [Arrive(request), Select(s), Select(s), Count(s), Decide(s), Commit(s, true)]
  }

  function Steps(allocations: map<string, Allocation>, w: World, actions: seq<Action>): World
    decreases |actions|
  {
    if actions == [] then w else Steps(allocations, Step(allocations, w, actions[0]), actions[1..])
  }

  lemma {:induction false} RunInStages(allocations: map<string, Allocation>, first: seq<Action>, then': seq<Action>)
    ensures Run(allocations, first + then') == Steps(allocations, Run(allocations, first), then')
    decreases |then'|
  {
    hide Step, Run;
    if then' == [] {
      assert first + then' == first;
    } else {
      RunOneMore(allocations, first, then'[0]);
      RunInStages(allocations, first + [then'[0]], then'[1..]);
      assert first + [then'[0]] + then'[1..] == first + then';
    }
  }

  /** With nobody else around, the interleaving model and the one-call function agree, in the table
      and in the result. */
  lemma LoneCallReserves(allocations: map<string, Allocation>, w: World, request: Request)
    requires NobodyHolds(w)
    ensures var s := |w.sessions|;
      var w', (rows, result) := Steps(allocations, w, LoneCall(s, request)), ReserveAlone(allocations, w.rows, FreshId(s), request);
      w' == World(rows, w.sessions + [Session(request, Done(result))])
  {
    hide Steps, Outstanding, EstimateOf, Scope, Stored;
    var s := |w.sessions|;
    var scope := Scope(request);
    var w1 := Step(allocations, w, Arrive(request));
    assert w1.sessions == w.sessions + [Session(request, Started)];
    var w2 := Step(allocations, w1, Select(s));
    var w3 := Step(allocations, w2, Select(s));
    if scope in allocations {
      assert w3.sessions == w.sessions + [Session(request, Locked(scope))];
      LockedCallReserves(allocations, w.sessions, w3, request, scope);
    } else if scope != DEFAULT_PROJECT && DEFAULT_PROJECT in allocations {
      assert w2.sessions == w.sessions + [Session(request, FellThrough)];
      assert w3.sessions == w.sessions + [Session(request, Locked(DEFAULT_PROJECT))];
      LockedCallReserves(allocations, w.sessions, w3, request, DEFAULT_PROJECT);
    } else {
      assert w3.sessions == w.sessions + [Session(request, Done(ALLOCATION_MISSING))];
      var w4 := Step(allocations, w3, Count(s));
      var w5 := Step(allocations, w4, Decide(s));
      assert Step(allocations, w5, Commit(s, true)) == w3;
    }
    SixSteps(allocations, w, LoneCall(s, request));
  }

  lemma SixSteps(allocations: map<string, Allocation>, w: World, a: seq<Action>)
    requires |a| == 6
    ensures Steps(allocations, w, a) ==
      Step(allocations, Step(allocations, Step(allocations, Step(allocations, Step(allocations, Step(allocations, w,
        a[0]), a[1]), a[2]), a[3]), a[4]), a[5])
  {
    hide Step, Steps;
    StepsOne(allocations, w, a, 0);
    var w1 := Step(allocations, w, a[0]);
    StepsOne(allocations, w1, a, 1);
    var w2 := Step(allocations, w1, a[1]);
    StepsOne(allocations, w2, a, 2);
    var w3 := Step(allocations, w2, a[2]);
    StepsOne(allocations, w3, a, 3);
    var w4 := Step(allocations, w3, a[3]);
    StepsOne(allocations, w4, a, 4);
    var w5 := Step(allocations, w4, a[4]);
    StepsOne(allocations, w5, a, 5);
  }

  lemma StepsOne(allocations: map<string, Allocation>, w: World, a: seq<Action>, k: nat)
    requires k < |a|
    ensures Steps(allocations, w, a[k..]) == Steps(allocations, Step(allocations, w, a[k]), a[k + 1..])
    ensures Steps(allocations, Step(allocations, w, a[k]), []) == Step(allocations, w, a[k]) && a[|a|..] == [] && a[0..] == a
  {
    hide Step;
    assert a[k..][1..] == a[k + 1..];
  }

  lemma LockedCallReserves(allocations: map<string, Allocation>, others: seq<Session>, w: World,
                           request: Request, project: string)
    requires project in allocations && w.sessions == others + [Session(request, Locked(project))]
    ensures var s := |others|;
      var w' := Step(allocations, Step(allocations, Step(allocations, w, Count(s)), Decide(s)), Commit(s, true));
      var (rows, result) := ReserveOn(allocations, w.rows, FreshId(s), request, project);
      result.Some? && w' == World(rows, others + [Session(request, Done(result.value))])
  {
    hide Outstanding, EstimateOf, Scope, Stored;
    var s := |others|;
    var spent := Outstanding(w.rows, project);
    var w4 := Step(allocations, w, Count(s));
    assert w4.sessions == others + [Session(request, Counted(project, spent))];
    var w5 := Step(allocations, w4, Decide(s));
    assert w5.sessions == others + [Session(request, AfterDecide(allocations, s, Session(request, Counted(project, spent))))];
    var w6 := Step(allocations, w5, Commit(s, true));
    var (rows, result) := ReserveOn(allocations, w.rows, FreshId(s), request, project);
    if Breach(allocations[project], spent, EstimateOf(request)).Some? {
      assert w6 == w5;
    } else {
      assert w6.sessions == others + [Session(request, Done(result.value))];
    }
  }

  // ----- closing frees -----

  lemma SameSumsSameAnswer(allocations: map<string, Allocation>, rows: seq<Reservation>, rows': seq<Reservation>,
                           id: string, id': string, request: Request, taskId: string)
    requires forall p :: Outstanding(rows', p) == Outstanding(rows, p)
    ensures var (_, result) := ReserveAlone(allocations, rows, id, request);
      var (_, result') := ReserveAlone(allocations, rows', id', request.(taskId := taskId));
      result' == if result.decision == Allow then result.(reservationId := Some(id')) else result
  {
    hide Outstanding, Estimate, Strip;
  }

  /** What a call has reserved is free again once its row is settled or released: the same request of
      another task is then allowed just as the first was, with the same remainder. */
  lemma AllowedAgainOnceClosed(allocations: map<string, Allocation>, actions: seq<Action>, request: Request,
                               status: Status, taskId: string)
    requires NobodyHolds(Run(allocations, actions)) && status != Reserved
    requires ReserveAlone(allocations, Run(allocations, actions).rows, FreshId(|Run(allocations, actions).sessions|), request).1.decision == Allow
    ensures var w := Run(allocations, actions);
      var n := |w.sessions|;
      var first := actions + LoneCall(n, request);
      var second := first + [Close(|w.rows|, status)] + LoneCall(n + 1, request.(taskId := taskId));
      && |Run(allocations, first).sessions| == n + 1 && |Run(allocations, second).sessions| == n + 2
      && var result, result' := Run(allocations, first).sessions[n].phase, Run(allocations, second).sessions[n + 1].phase;
      && result.Done? && result.result.decision == Allow
      && result' == Done(result.result.(reservationId := Some(FreshId(n + 1))))
  {
    hide *;
    var w := Run(allocations, actions);
    var n := |w.sessions|;
    RunInStages(allocations, actions, LoneCall(n, request));
    LoneCallReserves(allocations, w, request);
    var w1 := Run(allocations, actions + LoneCall(n, request));
    var w2 := Step(allocations, w1, Close(|w.rows|, status));
    ClosedIsForgotten(allocations, w, w1, request, status);
    RunOneMore(allocations, actions + LoneCall(n, request), Close(|w.rows|, status));
    RunInStages(allocations, actions + LoneCall(n, request) + [Close(|w.rows|, status)], LoneCall(n + 1, request.(taskId := taskId)));
    LoneCallReserves(allocations, w2, request.(taskId := taskId));
    SameSumsSameAnswer(allocations, w.rows, w2.rows, FreshId(n), FreshId(n + 1), request, taskId);
  }

  lemma ClosedIsForgotten(allocations: map<string, Allocation>, w: World, w1: World, request: Request, status: Status)
    requires NobodyHolds(w) && status != Reserved
    requires var (rows, result) := ReserveAlone(allocations, w.rows, FreshId(|w.sessions|), request);
      result.decision == Allow && w1 == World(rows, w.sessions + [Session(request, Done(result))])
    ensures var w2 := Step(allocations, w1, Close(|w.rows|, status));
      NobodyHolds(w2) && w2.sessions == w1.sessions && forall p :: Outstanding(w2.rows, p) == Outstanding(w.rows, p)
  {
    hide Outstanding, EstimateOf, Strip;
    var row := w1.rows[|w.rows|];
    var w2 := Step(allocations, w1, Close(|w.rows|, status));
    assert w1.rows == w.rows + [row];
    assert w2.rows == w.rows + [row.(status := status)];
    forall p
      ensures Outstanding(w2.rows, p) == Outstanding(w.rows, p)
    {
      OutstandingOfAppend(w.rows, row.(status := status), p);
    }
  }

  // ----- rounding -----

  /** The price of what is outstanding before rounding for storage, in units of 10^-8. */
  function OutstandingPrice(rows: seq<Reservation>, project: string): nat {
    if rows == [] then 0 else
    var r, rest := rows[|rows| - 1], OutstandingPrice(rows[..|rows| - 1], project);
    if Active(r, project) then rest + EstimateOf(r.request).usd else rest
  }

  /** Storing the price of this request loses part of it: its last two digits are 01 to 49. */
  predicate RoundsDown(request: Request) {
    0 < EstimateOf(request).usd % 100 < 50
  }

  lemma {:induction false} PriceWithinStored(rows: seq<Reservation>, project: string)
    requires forall r <- rows :: !RoundsDown(r.request) && r.usd == Stored(EstimateOf(r.request).usd)
    ensures OutstandingPrice(rows, project) <= Outstanding(rows, project).usd * 100
  {
    hide EstimateOf;
    if rows != [] {
      PriceWithinStored(rows[..|rows| - 1], project);
      assert rows[|rows| - 1] in rows;
    }
  }

  /** Requests whose price does not round down keep the unrounded price within the limit too. */
  lemma PriceWithinLimit(allocations: map<string, Allocation>, actions: seq<Action>, project: string)
    requires project in allocations
    requires forall a <- actions | a.Arrive? :: !RoundsDown(a.request)
    ensures OutstandingPrice(Run(allocations, actions).rows, project) <= allocations[project].usdLimit * 100
  {
    NeverOverReserved(allocations, actions, project);
    InvAlways(allocations, actions);
    RequestsArrived(allocations, actions);
    hide Run, Outstanding, EstimateOf, RoundsDown, Scope;
    var w := Run(allocations, actions);
    forall r | r in w.rows
      ensures !RoundsDown(r.request) && r.usd == Stored(EstimateOf(r.request).usd)
    {
      assert RowSound(allocations, w, r);
      var s :| 0 <= s < |w.sessions| && RowFrom(allocations, w.sessions[s], s, r);
      assert Arrived(actions, w.sessions[s].request);
    }
    PriceWithinStored(w.rows, project);
  }

  ghost predicate Arrived(actions: seq<Action>, request: Request) {
    exists a <- actions :: a == Arrive(request)
  }

  lemma {:induction false} RequestsArrived(allocations: map<string, Allocation>, actions: seq<Action>)
    ensures forall s | 0 <= s < |Run(allocations, actions).sessions| ::
      Arrived(actions, Run(allocations, actions).sessions[s].request)
  {
    hide Step;
    if actions != [] {
      var first, a := actions[..|actions| - 1], actions[|actions| - 1];
      RequestsArrived(allocations, first);
      var w := Run(allocations, first);
      RequestsKept(allocations, w, a);
      assert actions == first + [a];
      forall s | 0 <= s < |Run(allocations, actions).sessions|
        ensures Arrived(actions, Run(allocations, actions).sessions[s].request)
      {
        if s < |w.sessions| {
          assert Arrived(first, w.sessions[s].request);
          assert Arrive(w.sessions[s].request) in actions;
        } else {
          assert a in actions;
        }
      }
    }
  }

  lemma RequestsKept(allocations: map<string, Allocation>, w: World, a: Action)
    ensures var w' := Step(allocations, w, a);
      && |w.sessions| <= |w'.sessions|
      && (forall s | 0 <= s < |w.sessions| :: w'.sessions[s].request == w.sessions[s].request)
      && (forall s | |w.sessions| <= s < |w'.sessions| :: a == Arrive(w'.sessions[s].request))
  {
    hide AfterSelect, AfterDecide, AfterCommit, Outstanding;
  }

  /** A run that admits only this request, against limits of its own choosing, and ends with more
      outstanding (before rounding) than the limit allows. */
  ghost predicate Overprices(allocations: map<string, Allocation>, actions: seq<Action>, request: Request) {
    && (forall a <- actions | a.Arrive? :: a.request == request)
    && Scope(request) in allocations
    && OutstandingPrice(Run(allocations, actions).rows, Scope(request)) > allocations[Scope(request)].usdLimit * 100
  }

  function Calls(request: Request, n: nat): seq<Action> {
    if n == 0 then [] else Calls(request, n - 1) + LoneCall(n - 1, request)
  }

  /** n such requests fit, the check being made before each. */
  predicate RoomFor(n: nat, e: CostEstimate, allocation: Allocation) {
    && n * e.tokens <= allocation.tokenLimit
    && (n > 0 ==> (n - 1) * Stored(e.usd) * 100 + e.usd <= allocation.usdLimit * 100)
  }

  ghost predicate PiledUp(w: World, n: nat, project: string, e: CostEstimate) {
    && |w.sessions| == n && NobodyHolds(w)
    && Outstanding(w.rows, project) == Totals(n * e.tokens, n * Stored(e.usd))
    && OutstandingPrice(w.rows, project) == n * e.usd
  }

  /** n reservations of one price. */
  lemma {:induction false} CallsPileUp(allocations: map<string, Allocation>, request: Request, n: nat)
    requires Scope(request) in allocations
    requires RoomFor(n, EstimateOf(request), allocations[Scope(request)])
    ensures PiledUp(Run(allocations, Calls(request, n)), n, Scope(request), EstimateOf(request))
    ensures forall a <- Calls(request, n) | a.Arrive? :: a.request == request
  {
    hide Run, Outstanding, OutstandingPrice, Stored, EstimateOf, Scope, Steps, Inv, RoomFor;
    var p, e := Scope(request), EstimateOf(request);
    if n == 0 {
      NothingYet(allocations, p);
    } else {
      OneMoreFits(n, e, allocations[p]);
      CallsPileUp(allocations, request, n - 1);
      var w := Run(allocations, Calls(request, n - 1));
      RunInStages(allocations, Calls(request, n - 1), LoneCall(n - 1, request));
      LoneCallReserves(allocations, w, request);
      var row := NewReservation(FreshId(n - 1), p, request);
      assert Run(allocations, Calls(request, n)).rows == w.rows + [row];
      OutstandingOfAppend(w.rows, row, p);
      PriceOfAppend(w.rows, row, p);
    }
  }

  lemma PriceOfAppend(rows: seq<Reservation>, row: Reservation, project: string)
    ensures OutstandingPrice(rows + [row], project)
         == OutstandingPrice(rows, project) + (if Active(row, project) then EstimateOf(row.request).usd else 0)
  {
    assert (rows + [row])[..|rows|] == rows;
    hide EstimateOf;
  }

  lemma NothingYet(allocations: map<string, Allocation>, project: string)
    ensures Run(allocations, []) == World([], [])
    ensures Outstanding([], project) == Totals(0, 0) && OutstandingPrice([], project) == 0
  {
  }

  lemma OneMoreFits(n: nat, e: CostEstimate, allocation: Allocation)
    requires n > 0 && RoomFor(n, e, allocation)
    ensures RoomFor(n - 1, e, allocation)
    ensures Breach(allocation, Totals((n - 1) * e.tokens, (n - 1) * Stored(e.usd)), e).None?
    ensures (n - 1) * Stored(e.usd) + Stored(e.usd) == n * Stored(e.usd)
    ensures (n - 1) * e.usd + e.usd == n * e.usd && (n - 1) * e.tokens + e.tokens == n * e.tokens
  {
    hide Stored;
    assert (n - 1) * e.tokens + e.tokens == n * e.tokens;
    assert n > 1 ==> (n - 2) * Stored(e.usd) + Stored(e.usd) == (n - 1) * Stored(e.usd);
  }

  /** What rounding drops from such a price is, a hundred and one times over, more than one stored unit. */
  lemma RoomButNotForThePrice(e: CostEstimate)
    requires 0 < e.usd % 100 < 50
    ensures RoomFor(101, e, Allocation(101 * Stored(e.usd) + 1, 101 * e.tokens))
    ensures 101 * e.usd > (101 * Stored(e.usd) + 1) * 100
  {
    hide Stored;
    RoundedDown(e.usd);
  }

  lemma RoundedDown(usd: nat)
    requires 0 < usd % 100 < 50
    ensures Stored(usd) * 100 < usd < Stored(usd) * 100 + 50
  {
    assert usd == usd / 100 * 100 + usd % 100;
    assert (usd + 50) / 100 == usd / 100;
  }

  lemma Pennies(request: Request)
    requires RoundsDown(request)
    ensures exists allocations, actions :: Overprices(allocations, actions, request)
  {
    hide Run, Outstanding, OutstandingPrice, Scope, EstimateOf, Stored, RoomFor, Calls;
    var p, e := Scope(request), EstimateOf(request);
    var allocations := map[p := Allocation(101 * Stored(e.usd) + 1, 101 * e.tokens)];
    RoomButNotForThePrice(e);
    CallsPileUp(allocations, request, 101);
    assert Overprices(allocations, Calls(request, 101), request);
  }

  /** Exactly the prices that round down can add up past the currency limit unnoticed. */
  lemma PriceBoundIsExact(request: Request)
    ensures RoundsDown(request) <==> exists allocations, actions :: Overprices(allocations, actions, request)
  {
    hide Run, OutstandingPrice, Scope, EstimateOf;
    if RoundsDown(request) {
      Pennies(request);
    } else if allocations, actions :| Overprices(allocations, actions, request) {
      PriceWithinLimit(allocations, actions, Scope(request));
    }
  }

  /** The reservation service asks for 500 input tokens of the interactive class: 0.000035 USD,
      stored without loss. */
  lemma ServicePriceIsStoredExactly(taskId: string, projectId: string)
    ensures var request := Request(taskId, projectId, "interactive_fast", 500);
      EstimateOf(request) == CostEstimate(3_500, 1_000) && Stored(3_500) == 35 && !RoundsDown(request)
  {
  }
}
