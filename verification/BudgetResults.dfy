/** What holds of every interleaving of budget transactions (budget_runtime/client.py). */
module BudgetResults {
  import opened PyText
  import opened MessageLedger
  import opened Budget
  import opened BudgetRuns

  /** No project's outstanding reservations ever exceed its limits, in tokens or in stored USD. */
  lemma NeverOverReserved(allocations: map<string, Allocation>, actions: seq<Action>, project: string)
    requires project in allocations
    ensures Outstanding(Run(allocations, actions).rows, project).tokens <= allocations[project].tokenLimit
    ensures Outstanding(Run(allocations, actions).rows, project).usd <= allocations[project].usdLimit
  {
    InvAlways(allocations, actions);
    hide Run, Outstanding;
  }

  /** Every row is charged to the request's own project, outer whitespace aside, whenever that has an
      allocation, and only otherwise to the default project: a breach is never passed on. */
  lemma FallbackOnlyWhenMissing(allocations: map<string, Allocation>, actions: seq<Action>, r: Reservation)
    requires r in Run(allocations, actions).rows
    ensures r.projectId in allocations
    ensures var own := Strip(r.request.projectId);
      r.projectId == if own != "" && own in allocations then own else "project-default"
  {
    InvAlways(allocations, actions);
    hide Run, Strip, Outstanding, EstimateOf;
    assert RowSound(allocations, Run(allocations, actions), r);
  }

  predicate DistinctIds(rows: seq<Reservation>) {
    forall i, j | 0 <= i < j < |rows| :: rows[i].id != rows[j].id
  }

  lemma DistinctIdsStay(allocations: map<string, Allocation>, w: World, a: Action)
    requires Inv(allocations, w) && DistinctIds(w.rows)
    ensures DistinctIds(Step(allocations, w, a).rows)
  {
    hide Scope, Outstanding, EstimateOf, LockSound, LimitsHold, ChargedTo, FreshId;
    if Enabled(allocations, w, a) && a.Commit? {
      assert SessionSound(allocations, w.rows, a.s, w.sessions[a.s]);
      forall r | r in w.rows
        ensures r.id != FreshId(a.s)
      {
        assert RowSound(allocations, w, r);
        var t :| 0 <= t < |w.sessions| && RowFrom(allocations, w.sessions[t], t, r);
        assert |FreshId(t)| == t + 1 && |FreshId(a.s)| == a.s + 1;
      }
    }
  }

  lemma {:induction false} DistinctIdsAlways(allocations: map<string, Allocation>, actions: seq<Action>)
    ensures DistinctIds(Run(allocations, actions).rows)
  {
    hide Step, Inv, DistinctIds;
    if actions == [] {
      assert DistinctIds([]) by { DistinctIdsEmpty(); }
    } else {
      DistinctIdsAlways(allocations, actions[..|actions| - 1]);
      InvAlways(allocations, actions[..|actions| - 1]);
      DistinctIdsStay(allocations, Run(allocations, actions[..|actions| - 1]), actions[|actions| - 1]);
    }
  }

  lemma DistinctIdsEmpty()
    ensures DistinctIds([])
  {
  }

  /** An allowed call is backed by exactly one committed row, the one its receipt names. The row holds
      two tokens for each requested one, and the estimated price up to rounding at the sixth decimal. */
  lemma AllowedIsReserved(allocations: map<string, Allocation>, actions: seq<Action>, s: nat)
    requires s < |Run(allocations, actions).sessions|
    requires Run(allocations, actions).sessions[s].phase.Done?
    requires Run(allocations, actions).sessions[s].phase.result.decision == Allow
    ensures var w := Run(allocations, actions);
      exists i :: 0 <= i < |w.rows| && w.sessions[s].phase.result.reservationId == Some(w.rows[i].id)
        && w.rows[i].request == w.sessions[s].request
        && IsPriced(w.rows[i])
        && forall j | 0 <= j < |w.rows| && w.rows[j].id == w.rows[i].id :: j == i
  {
    InvAlways(allocations, actions);
    DistinctIdsAlways(allocations, actions);
    hide Run, Outstanding, ChargedTo, RowSound, LockSound, LimitsHold;
    var w := Run(allocations, actions);
    assert SessionSound(allocations, w.rows, s, w.sessions[s]);
    var r :| r in w.rows && IsReservationOf(r, s, w.sessions[s].request);
    var i :| 0 <= i < |w.rows| && w.rows[i] == r;
    assert w.sessions[s].phase.result.reservationId == Some(w.rows[i].id);
    RowsArePriced(allocations, w, r);
  }

  predicate IsPriced(r: Reservation) {
    && r.taskId == r.request.taskId && r.tokens == 2 * Max(r.request.units, 1)
    && -50 <= Estimate(r.request.modelClass, r.request.units).usd - r.usd * 100 < 50
  }

  lemma RowsArePriced(allocations: map<string, Allocation>, w: World, r: Reservation)
    requires Inv(allocations, w) && r in w.rows
    ensures IsPriced(r)
  {
    hide *;
    var s, session := RowComesFrom(allocations, w, r);
    NewRowIsPriced(FreshId(s), r.projectId, session.request, r.status);
  }

  lemma RowComesFrom(allocations: map<string, Allocation>, w: World, r: Reservation) returns (s: nat, session: Session)
    requires Inv(allocations, w) && r in w.rows
    ensures r == NewReservation(FreshId(s), r.projectId, session.request).(status := r.status)
  {
    hide LockSound, LimitsHold, ChargedTo, SessionSound, NewReservation;
    assert RowSound(allocations, w, r);
    s :| s < |w.sessions| && RowFrom(allocations, w.sessions[s], s, r);
    session := w.sessions[s];
  }

  lemma NewRowIsPriced(id: string, project: string, request: Request, status: Status)
    ensures IsPriced(NewReservation(id, project, request).(status := status))
  {
    hide RatePer1k, CostTier;
  }

  // ----- the reported remainder -----

  /** The remainder reported at a commit is the plain difference, never the clamp's 0, and never
      promises more than is left. */
  lemma RemainderAtCommit(allocations: map<string, Allocation>, actions: seq<Action>, s: nat)
    requires Enabled(allocations, Run(allocations, actions), Commit(s, true))
    ensures var w := Run(allocations, actions);
      var after, phase := Run(allocations, actions + [Commit(s, true)]), w.sessions[s].phase;
      && after.sessions[s].phase == Done(BudgetResult(
           Allow, "budget_reserved", Some(phase.row.id), Some(allocations[phase.project].tokenLimit - (phase.spent.tokens + phase.row.tokens))))
      && 0 <= allocations[phase.project].tokenLimit - (phase.spent.tokens + phase.row.tokens)
           <= allocations[phase.project].tokenLimit - Outstanding(after.rows, phase.project).tokens
  {
    InvAlways(allocations, actions);
    RunOneMore(allocations, actions, Commit(s, true));
    hide Run, EstimateOf, Scope, Outstanding, LockSound, LimitsHold, RowSound, ChargedTo;
    var w := Run(allocations, actions);
    assert SessionSound(allocations, w.rows, s, w.sessions[s]);
    var phase := w.sessions[s].phase;
    OutstandingOfAppend(w.rows, phase.row, phase.project);
    CheckedRowFits(allocations[phase.project], phase.spent, FreshId(s), phase.project, w.sessions[s].request);
  }

  /** A decision refuses exactly when the request would exceed a limit, tokens being named first; the
      remainder it reports is again the plain difference. Nothing is written. */
  lemma DecisionIsExact(allocations: map<string, Allocation>, actions: seq<Action>, s: nat)
    requires Enabled(allocations, Run(allocations, actions), Decide(s))
    ensures var w, w' := Run(allocations, actions), Run(allocations, actions + [Decide(s)]);
      var phase, request := w.sessions[s].phase, w.sessions[s].request;
      var estimate := Estimate(request.modelClass, request.units);
      var limits := allocations[phase.project];
      var tokensFit := phase.spent.tokens + estimate.tokens <= limits.tokenLimit;
      var priceFits := phase.spent.usd * 100 + estimate.usd <= limits.usdLimit * 100;
      && w'.rows == w.rows
      && (tokensFit && priceFits ==> w'.sessions[s].phase.Inserted?)
      && (!(tokensFit && priceFits) ==>
            var reason := if tokensFit then "budget_currency_hard_breach" else "budget_quota_hard_breach";
            w'.sessions[s].phase == Done(BudgetResult(HardBreach, reason, None, Some(limits.tokenLimit - phase.spent.tokens))))
  {
    InvAlways(allocations, actions);
    RunOneMore(allocations, actions, Decide(s));
    EstimateIsOfRequest(Run(allocations, actions).sessions[s].request);
    hide Run, EstimateOf, Scope, Outstanding, LockSound, LimitsHold, RowSound, ChargedTo, NewReservation;
    var w := Run(allocations, actions);
    assert SessionSound(allocations, w.rows, s, w.sessions[s]);
  }

  /** A call the database fails in is uncertain, whether nothing has been written or, if only the
      acknowledgement of the commit is lost, its row. */
  lemma FailuresAreUncertain(allocations: map<string, Allocation>, actions: seq<Action>, s: nat, a: Action)
    requires a in {Fail(s), Commit(s, false)} && Enabled(allocations, Run(allocations, actions), a)
    ensures var w, w' := Run(allocations, actions), Run(allocations, actions + [a]);
      && w'.sessions[s].phase == Done(BudgetResult(Uncertain, "budget_runtime_unavailable", None, None))
      && w'.rows == if a.Fail? then w.rows else w.rows + [w.sessions[s].phase.row]
  {
    RunOneMore(allocations, actions, a);
    hide Run, Outstanding, Breach;
  }

  /** And so is a call that finds no allocation, neither its own project's nor the default one. */
  lemma NoAllocationIsUncertain(allocations: map<string, Allocation>, rows: seq<Reservation>, id: string, request: Request)
    ensures ReserveAlone(allocations, rows, id, request) == (rows, BudgetResult(Uncertain, "budget_allocation_missing", None, None)) <==>
      "project-default" !in allocations && (Strip(request.projectId) == "" || Strip(request.projectId) !in allocations)
  {
    hide Outstanding, EstimateOf, Strip;
  }

  lemma EstimateIsOfRequest(request: Request)
    ensures EstimateOf(request) == Estimate(request.modelClass, request.units)
  {
    hide RatePer1k, CostTier;
  }

  lemma RunOneMore(allocations: map<string, Allocation>, actions: seq<Action>, a: Action)
    ensures Run(allocations, actions + [a]) == Step(allocations, Run(allocations, actions), a)
  {
    assert (actions + [a])[..|actions|] == actions;
    hide Step;
  }

  /** `a` settles or releases nothing of `project`. */
  predicate Spares(w: World, a: Action, project: string) {
    a.Close? && a.i < |w.rows| ==> w.rows[a.i].projectId != project
  }

  predicate Summed(phase: Phase) {
    phase.Counted? || phase.Inserted?
  }

  /** A session that still holds its lock after `a` has seen its project's sum stand still. */
  lemma SumStandsStill(allocations: map<string, Allocation>, w: World, a: Action, s: nat)
    requires Inv(allocations, w) && s < |w.sessions|
    requires Summed(w.sessions[s].phase)
    requires Spares(w, a, w.sessions[s].phase.project)
    ensures var w' := Step(allocations, w, a);
      var phase, phase' := w.sessions[s].phase, w'.sessions[s].phase;
      Summed(phase') ==>
        && phase'.project == phase.project && phase'.spent == phase.spent
        && Outstanding(w'.rows, phase.project) == Outstanding(w.rows, phase.project)
  {
    hide Outstanding, EstimateOf, Breach, Scope, NewReservation, LimitsHold, RowSound, ChargedTo;
    var p := w.sessions[s].phase.project;
    assert Holds(w.sessions[s].phase, p);
    if Enabled(allocations, w, a) {
      match a {
        case Commit(t, _) =>
          assert SessionSound(allocations, w.rows, t, w.sessions[t]);
          assert Holds(w.sessions[t].phase, w.sessions[t].phase.project);
          OutstandingOfAppend(w.rows, w.sessions[t].phase.row, p);
          ActiveOnlyFor(FreshId(t), w.sessions[t].phase.project, w.sessions[t].request, p);
        case Close(i, status) => OutstandingOfClose(w.rows, i, status, p);
        case _ =>
      }
    }
  }

  /** No action of `between` settles or releases a row of `project`. */
  ghost predicate AllSpare(allocations: map<string, Allocation>, actions: seq<Action>, between: seq<Action>, project: string) {
    forall k | 0 <= k < |between| :: Spares(Run(allocations, actions + between[..k]), between[k], project)
  }

  lemma {:induction false} CountStaysCurrent(allocations: map<string, Allocation>, actions: seq<Action>,
                                             between: seq<Action>, s: nat)
    requires var w := Run(allocations, actions);
      && s < |w.sessions| && w.sessions[s].phase.Counted?
      && w.sessions[s].phase.spent == Outstanding(w.rows, w.sessions[s].phase.project)
      && AllSpare(allocations, actions, between, w.sessions[s].phase.project)
    ensures var w, w' := Run(allocations, actions), Run(allocations, actions + between);
      && s < |w'.sessions|
      && (Summed(w'.sessions[s].phase) || w'.sessions[s].phase.Done?)
      && (Summed(w'.sessions[s].phase) ==>
            && w'.sessions[s].phase.project == w.sessions[s].phase.project
            && w'.sessions[s].phase.spent == w.sessions[s].phase.spent == Outstanding(w'.rows, w.sessions[s].phase.project))
  {
    hide Outstanding, Run, Inv, Step, Spares;
    if between == [] {
      assert actions + between == actions;
    } else {
      var k := |between| - 1;
      var w := Run(allocations, actions + between[..k]);
      forall j | 0 <= j < k
        ensures Spares(Run(allocations, actions + between[..k][..j]), between[..k][j], Run(allocations, actions).sessions[s].phase.project)
      {
        assert between[..k][..j] == between[..j];
      }
      CountStaysCurrent(allocations, actions, between[..k], s);
      assert actions + between == (actions + between[..k]) + [between[k]];
      RunOneMore(allocations, actions + between[..k], between[k]);
      InvAlways(allocations, actions + between[..k]);
      SessionsRemain(allocations, w, between[k], s);
      if Summed(w.sessions[s].phase) {
        assert Spares(w, between[k], w.sessions[s].phase.project);
        SumStandsStill(allocations, w, between[k], s);
      }
    }
  }

  /** The sum is taken only once. */
  lemma SessionsRemain(allocations: map<string, Allocation>, w: World, a: Action, s: nat)
    requires s < |w.sessions| && (Summed(w.sessions[s].phase) || w.sessions[s].phase.Done?)
    ensures var w' := Step(allocations, w, a);
      && s < |w'.sessions|
      && (Summed(w'.sessions[s].phase) || w'.sessions[s].phase.Done?)
      && (w.sessions[s].phase.Done? ==> w'.sessions[s] == w.sessions[s])
  {
    hide Outstanding, EstimateOf, Breach, Scope, NewReservation;
  }

  /** As long as nothing of the project is settled or released between the count and the commit,
      the remainder reported is exactly what is left afterwards, whatever other projects and other
      calls do in between. */
  lemma RemainderIsExact(allocations: map<string, Allocation>, before: seq<Action>, between: seq<Action>, s: nat)
    requires Enabled(allocations, Run(allocations, before), Count(s))
    requires AllSpare(allocations, before + [Count(s)], between, Run(allocations, before).sessions[s].phase.project)
    requires Enabled(allocations, Run(allocations, before + [Count(s)] + between), Commit(s, true))
    ensures var after := Run(allocations, before + [Count(s)] + between + [Commit(s, true)]);
      var project := Run(allocations, before).sessions[s].phase.project;
      && project in allocations
      && after.sessions[s].phase.Done?
      && after.sessions[s].phase.result.remainingUnits
           == Some(allocations[project].tokenLimit - Outstanding(after.rows, project).tokens)
  {
    hide *;
    CountTakesSum(allocations, before, s);
    var project := Run(allocations, before).sessions[s].phase.project;
    CountStaysCurrent(allocations, before + [Count(s)], between, s);
    var actions := before + [Count(s)] + between;
    CommitAppends(allocations, actions, s);
    RemainderAtCommit(allocations, actions, s);
    InsertedRow(allocations, actions, s);
    OutstandingOfAppend(Run(allocations, actions).rows, Run(allocations, actions).sessions[s].phase.row, project);
  }

  lemma CountTakesSum(allocations: map<string, Allocation>, before: seq<Action>, s: nat)
    requires Enabled(allocations, Run(allocations, before), Count(s))
    ensures var w, w' := Run(allocations, before), Run(allocations, before + [Count(s)]);
      && s < |w.sessions| && w.sessions[s].phase.Locked? && s < |w'.sessions|
      && w'.rows == w.rows
      && w'.sessions[s].phase == Counted(w.sessions[s].phase.project, Outstanding(w.rows, w.sessions[s].phase.project))
  {
    hide Run, Outstanding;
    RunOneMore(allocations, before, Count(s));
  }

  lemma CommitAppends(allocations: map<string, Allocation>, actions: seq<Action>, s: nat)
    requires Enabled(allocations, Run(allocations, actions), Commit(s, true))
    ensures var w := Run(allocations, actions);
      && s < |w.sessions| && w.sessions[s].phase.Inserted? && Summed(w.sessions[s].phase)
      && w.sessions[s].phase.project in allocations
      && Run(allocations, actions + [Commit(s, true)]).rows == w.rows + [w.sessions[s].phase.row]
  {
    hide Run;
    RunOneMore(allocations, actions, Commit(s, true));
  }

  lemma InsertedRow(allocations: map<string, Allocation>, actions: seq<Action>, s: nat)
    requires s < |Run(allocations, actions).sessions| && Run(allocations, actions).sessions[s].phase.Inserted?
    ensures var phase := Run(allocations, actions).sessions[s].phase;
      phase.row.status == Reserved && phase.row.projectId == phase.project
  {
    InvAlways(allocations, actions);
    hide Run, EstimateOf, Scope, Outstanding, LockSound, LimitsHold, RowSound, ChargedTo;
    var w := Run(allocations, actions);
    assert SessionSound(allocations, w.rows, s, w.sessions[s]);
  }
}
