/** Concurrent budget transactions: any number of `reserve` calls interleaved statement by statement
    with settlements and releases (budget_runtime/client.py). An allocation row is locked from its
    SELECT ... FOR UPDATE until the transaction ends; the sum is read by a later statement and sees
    what is committed at that moment. */
module BudgetRuns {
  import opened PyText
  import opened MessageLedger
  import opened Budget

  datatype Phase =
    | Started                                            // about to select the allocation of the scope
    | FellThrough                                        // no such row; about to try the default project
    | Locked(project: string)
    | Counted(project: string, spent: Totals)
    | Inserted(project: string, spent: Totals, row: Reservation)
    | Done(result: BudgetResult)

  datatype Session = Session(request: Request, phase: Phase)

  /** Committed reservation rows, and every `reserve` call so far. */
  datatype World = World(rows: seq<Reservation>, sessions: seq<Session>)

  datatype Action =
    | Arrive(request: Request)
    | Select(s: nat)
    | Count(s: nat)
    | Decide(s: nat)
    | Commit(s: nat, acknowledged: bool)
    | Fail(s: nat)
    | Close(i: nat, status: Status)

  predicate Holds(phase: Phase, project: string) {
    (phase.Locked? || phase.Counted? || phase.Inserted?) && phase.project == project
  }

  predicate Free(w: World, project: string) {
    forall s | 0 <= s < |w.sessions| :: !Holds(w.sessions[s].phase, project)
  }

  /** The project whose allocation a session selects next. */
  function Target(session: Session): string {
    if session.phase.FellThrough? then DEFAULT_PROJECT else Scope(session.request)
  }

  function AfterSelect(allocations: map<string, Allocation>, session: Session): Phase {
    var project := Target(session);
    if project in allocations then Locked(project)
    else if project != DEFAULT_PROJECT then FellThrough
    else Done(ALLOCATION_MISSING)
  }

  function AfterDecide(allocations: map<string, Allocation>, s: nat, session: Session): Phase
    requires session.phase.Counted? && session.phase.project in allocations
  {
    var project, spent := session.phase.project, session.phase.spent;
    match Breach(allocations[project], spent, EstimateOf(session.request))
    case Some(reason) => Done(BreachResult(allocations[project], spent, reason))
    case None => Inserted(project, spent, NewReservation(FreshId(s), project, session.request))
  }

  /** A commit whose acknowledgement is lost still happened; the caller sees only the exception. */
  function AfterCommit(allocations: map<string, Allocation>, phase: Phase, acknowledged: bool): Phase
    requires phase.Inserted? && phase.project in allocations
  {
    Done(if acknowledged then AllowResult(allocations[phase.project], phase.spent, phase.row) else UNAVAILABLE)
  }

  predicate Enabled(allocations: map<string, Allocation>, w: World, a: Action) {
    match a
    case Arrive(_) => true
    case Select(s) =>
      && s < |w.sessions| && (w.sessions[s].phase.Started? || w.sessions[s].phase.FellThrough?)
      && (Target(w.sessions[s]) in allocations ==> Free(w, Target(w.sessions[s])))
    case Count(s) => s < |w.sessions| && w.sessions[s].phase.Locked?
    case Decide(s) =>
      s < |w.sessions| && w.sessions[s].phase.Counted? && w.sessions[s].phase.project in allocations
    case Commit(s, _) =>
      s < |w.sessions| && w.sessions[s].phase.Inserted? && w.sessions[s].phase.project in allocations
    case Fail(s) => s < |w.sessions| && !w.sessions[s].phase.Done?
    case Close(i, status) => i < |w.rows| && w.rows[i].status == Reserved && status != Reserved
  }

  function SetPhase(w: World, s: nat, phase: Phase): World
    requires s < |w.sessions|
  {
    w.(sessions := w.sessions[s := w.sessions[s].(phase := phase)])
  }

  function Next(allocations: map<string, Allocation>, w: World, a: Action): World
    requires Enabled(allocations, w, a)
  {
    match a
    case Arrive(request) => w.(sessions := w.sessions + [Session(request, Started)])
    case Select(s) => SetPhase(w, s, AfterSelect(allocations, w.sessions[s]))
    case Count(s) =>
      var project := w.sessions[s].phase.project;
      SetPhase(w, s, Counted(project, Outstanding(w.rows, project)))
    case Decide(s) => SetPhase(w, s, AfterDecide(allocations, s, w.sessions[s]))
    case Commit(s, acknowledged) =>
      var phase := w.sessions[s].phase;
      SetPhase(w.(rows := w.rows + [phase.row]), s, AfterCommit(allocations, phase, acknowledged))
    case Fail(s) => SetPhase(w, s, Done(UNAVAILABLE))
    case Close(i, status) => w.(rows := w.rows[i := w.rows[i].(status := status)])
  }

  /** An action that is not enabled waits: it changes nothing. */
  function Step(allocations: map<string, Allocation>, w: World, a: Action): World {
    if Enabled(allocations, w, a) then Next(allocations, w, a) else w
  }

  function Run(allocations: map<string, Allocation>, actions: seq<Action>): World {
    if actions == [] then World([], [])
    else Step(allocations, Run(allocations, actions[..|actions| - 1]), actions[|actions| - 1])
  }

  // ----- sums -----

  predicate Within(a: Totals, b: Totals) {
    a.tokens <= b.tokens && a.usd <= b.usd
  }

  /** A reserved row counts for its project, any other row for none. */
  lemma OutstandingOfAppend(rows: seq<Reservation>, row: Reservation, project: string)
    ensures Outstanding(rows + [row], project) ==
      var before := Outstanding(rows, project);
      if row.status == Reserved && row.projectId == project then Totals(before.tokens + row.tokens, before.usd + row.usd) else before
  {
    assert (rows + [row])[..|rows|] == rows;
  }

  /** Settling or releasing a reserved row takes exactly its tokens and its price out of its project's
      sum, and nothing out of any other. */
  lemma {:induction false} OutstandingOfClose(rows: seq<Reservation>, i: nat, status: Status, project: string)
    requires i < |rows| && rows[i].status == Reserved && status != Reserved
    ensures var before, after := Outstanding(rows, project), Outstanding(rows[i := rows[i].(status := status)], project);
      if rows[i].projectId == project
      then before.tokens == after.tokens + rows[i].tokens && before.usd == after.usd + rows[i].usd
      else before == after
  {
    var last, closed := |rows| - 1, rows[i := rows[i].(status := status)];
    assert rows == rows[..last] + [rows[last]] && closed == closed[..last] + [closed[last]];
    OutstandingOfAppend(rows[..last], rows[last], project);
    OutstandingOfAppend(closed[..last], closed[last], project);
    if i < last {
      OutstandingOfClose(rows[..last], i, status, project);
      assert closed[..last] == rows[..last][i := rows[i].(status := status)];
    } else {
      assert closed[..last] == rows[..last];
    }
  }

  // ----- the invariant -----

  ghost predicate LimitsHold(allocations: map<string, Allocation>, rows: seq<Reservation>) {
    forall p | p in allocations ::
      Within(Outstanding(rows, p), Totals(allocations[p].tokenLimit, allocations[p].usdLimit))
  }

  /** Where a request may be charged: its scope, or the default project when its scope has no
      allocation at all. */
  predicate ChargedTo(allocations: map<string, Allocation>, request: Request, project: string) {
    && project in allocations
    && (project == Scope(request) || (project == DEFAULT_PROJECT && Scope(request) !in allocations))
  }

  ghost predicate LockSound(w: World) {
    forall s, t, p | 0 <= s < |w.sessions| && 0 <= t < |w.sessions| && Holds(w.sessions[s].phase, p) && Holds(w.sessions[t].phase, p) ::
      s == t
  }

  /** What one session knows, whatever the others do meanwhile. */
  ghost predicate SessionSound(allocations: map<string, Allocation>, rows: seq<Reservation>, s: nat, session: Session) {
    match session.phase
    case Started => true
    case FellThrough => Scope(session.request) !in allocations
    case Locked(p) => ChargedTo(allocations, session.request, p)
    case Counted(p, spent) =>
      && ChargedTo(allocations, session.request, p)
      && Within(Outstanding(rows, p), spent)
      && Within(spent, Totals(allocations[p].tokenLimit, allocations[p].usdLimit))
    case Inserted(p, spent, row) =>
      && ChargedTo(allocations, session.request, p)
      && Within(Outstanding(rows, p), spent)
      && row == NewReservation(FreshId(s), p, session.request)
      && Breach(allocations[p], spent, EstimateOf(session.request)).None?
    case Done(result) => ResultSound(allocations, rows, s, session.request, result)
  }

  predicate IsReservationOf(r: Reservation, s: nat, request: Request) {
    r.id == FreshId(s) && r.request == request
  }

  ghost predicate ResultSound(allocations: map<string, Allocation>, rows: seq<Reservation>, s: nat,
                              request: Request, result: BudgetResult) {
    result.decision == Allow ==>
      && result.reservationId == Some(FreshId(s))
      && exists r <- rows :: IsReservationOf(r, s, request)
  }

  /** Every committed row is what some call inserted for its own request. */
  ghost predicate RowSound(allocations: map<string, Allocation>, w: World, r: Reservation) {
    exists s :: 0 <= s < |w.sessions| && RowFrom(allocations, w.sessions[s], s, r)
  }

  predicate RowFrom(allocations: map<string, Allocation>, session: Session, s: nat, r: Reservation) {
    && session.phase.Done?
    && ChargedTo(allocations, session.request, r.projectId)
    && r == NewReservation(FreshId(s), r.projectId, session.request).(status := r.status)
  }

  ghost predicate Inv(allocations: map<string, Allocation>, w: World) {
    && LockSound(w)
    && LimitsHold(allocations, w.rows)
    && (forall s | 0 <= s < |w.sessions| :: SessionSound(allocations, w.rows, s, w.sessions[s]))
    && (forall r <- w.rows :: RowSound(allocations, w, r))
  }

  lemma LockStays(allocations: map<string, Allocation>, w: World, a: Action)
    requires LockSound(w) && Enabled(allocations, w, a)
    ensures LockSound(Next(allocations, w, a))
  {
    hide Scope, Breach, EstimateOf, Outstanding, NewReservation, Stored;
  }

  /** Rows are never deleted and never change identity. */
  ghost predicate RowsPersist(rows: seq<Reservation>, rows': seq<Reservation>) {
    |rows| <= |rows'| && forall i | 0 <= i < |rows| :: rows'[i] == rows[i].(status := rows'[i].status)
  }

  lemma SessionSurvives(allocations: map<string, Allocation>, rows: seq<Reservation>, rows': seq<Reservation>,
                        s: nat, session: Session)
    requires SessionSound(allocations, rows, s, session) && RowsPersist(rows, rows')
    requires forall p | Holds(session.phase, p) :: Within(Outstanding(rows', p), Outstanding(rows, p))
    ensures SessionSound(allocations, rows', s, session)
  {
    hide Outstanding, ChargedTo, Breach, EstimateOf, NewReservation;
    if session.phase.Done? && session.phase.result.decision == Allow {
      var r :| r in rows && IsReservationOf(r, s, session.request);
      var i :| 0 <= i < |rows| && rows[i] == r;
      assert rows'[i] in rows' && IsReservationOf(rows'[i], s, session.request);
    }
  }

  /** A reservation that passes the check still fits once its price is rounded for storage, even
      when it is rounded up. */
  lemma CheckedRowFits(allocation: Allocation, spent: Totals, id: string, project: string, request: Request)
    requires Breach(allocation, spent, EstimateOf(request)).None?
    ensures var row := NewReservation(id, project, request);
      && spent.tokens + row.tokens <= allocation.tokenLimit
      && spent.usd + row.usd <= allocation.usdLimit
  {
    hide EstimateOf;
  }

  lemma LimitsStay(allocations: map<string, Allocation>, w: World, a: Action)
    requires Inv(allocations, w) && Enabled(allocations, w, a)
    ensures LimitsHold(allocations, Next(allocations, w, a).rows)
  {
    hide Outstanding, EstimateOf, NewReservation, Breach, LockSound, RowSound, ResultSound, ChargedTo;
    var rows' := Next(allocations, w, a).rows;
    forall p | p in allocations
      ensures Within(Outstanding(rows', p), Totals(allocations[p].tokenLimit, allocations[p].usdLimit))
    {
      match a {
        case Commit(s, _) =>
          assert SessionSound(allocations, w.rows, s, w.sessions[s]);
          var phase := w.sessions[s].phase;
          OutstandingOfAppend(w.rows, phase.row, p);
          CheckedRowFits(allocations[phase.project], phase.spent, FreshId(s), phase.project, w.sessions[s].request);
          ActiveOnlyFor(FreshId(s), phase.project, w.sessions[s].request, p);
        case Close(i, status) => OutstandingOfClose(w.rows, i, status, p);
        case _ =>
      }
    }
  }

  lemma ActiveOnlyFor(id: string, project: string, request: Request, p: string)
    ensures Active(NewReservation(id, project, request), p) <==> p == project
  {
  }

  /** The other sessions: a commit leaves the projects they hold alone, since it holds its own. */
  lemma OthersStay(allocations: map<string, Allocation>, w: World, a: Action, t: nat)
    requires Inv(allocations, w) && Enabled(allocations, w, a)
    requires t < |w.sessions|
    ensures SessionSound(allocations, Next(allocations, w, a).rows, t, w.sessions[t]) || Moves(a, t)
    ensures RowsPersist(w.rows, Next(allocations, w, a).rows)
  {
    hide Outstanding, EstimateOf, NewReservation, Breach, RowSound, ResultSound, ChargedTo, LimitsHold;
    var rows' := Next(allocations, w, a).rows;
    assert SessionSound(allocations, w.rows, t, w.sessions[t]);
    if !Moves(a, t) {
      forall p | Holds(w.sessions[t].phase, p)
        ensures Within(Outstanding(rows', p), Outstanding(w.rows, p))
      {
        match a {
          case Commit(s, _) =>
            assert SessionSound(allocations, w.rows, s, w.sessions[s]);
            OutstandingOfAppend(w.rows, w.sessions[s].phase.row, p);
            assert Holds(w.sessions[s].phase, w.sessions[s].phase.project);
            ActiveOnlyFor(FreshId(s), w.sessions[s].phase.project, w.sessions[s].request, p);
          case Close(i, status) => OutstandingOfClose(w.rows, i, status, p);
          case _ =>
        }
      }
      SessionSurvives(allocations, w.rows, rows', t, w.sessions[t]);
    }
  }

  /** The session an action advances. */
  predicate Moves(a: Action, t: nat) {
    match a
    case Arrive(_) => false
    case Close(_, _) => false
    case Select(s) => s == t
    case Count(s) => s == t
    case Decide(s) => s == t
    case Commit(s, _) => s == t
    case Fail(s) => s == t
  }

  lemma MoverStays(allocations: map<string, Allocation>, w: World, a: Action, t: nat)
    requires Inv(allocations, w) && Enabled(allocations, w, a)
    requires t < |w.sessions| && Moves(a, t)
    ensures SessionSound(allocations, Next(allocations, w, a).rows, t, Next(allocations, w, a).sessions[t])
  {
    hide Outstanding, EstimateOf, NewReservation, Scope, LockSound, RowSound;
    assert SessionSound(allocations, w.rows, t, w.sessions[t]);
    match a {
      case Commit(s, _) =>
        var row := w.sessions[s].phase.row;
        IdentityOf(FreshId(s), w.sessions[s].phase.project, w.sessions[s].request);
        assert row in Next(allocations, w, a).rows && IsReservationOf(row, s, w.sessions[s].request);
      case _ =>
    }
  }

  lemma IdentityOf(id: string, project: string, request: Request)
    ensures NewReservation(id, project, request).id == id
    ensures NewReservation(id, project, request).request == request
    ensures NewReservation(id, project, request).projectId == project
    ensures NewReservation(id, project, request).status == Reserved
  {
  }

  lemma RowsStay(allocations: map<string, Allocation>, w: World, a: Action)
    requires Inv(allocations, w) && Enabled(allocations, w, a)
    ensures forall r <- Next(allocations, w, a).rows :: RowSound(allocations, Next(allocations, w, a), r)
  {
    hide Outstanding, EstimateOf, NewReservation, Scope, LockSound, LimitsHold, Breach, ChargedTo;
    var w' := Next(allocations, w, a);
    forall r | r in w'.rows
      ensures RowSound(allocations, w', r)
    {
      var i :| 0 <= i < |w'.rows| && w'.rows[i] == r;
      if i < |w.rows| {
        assert w.rows[i] in w.rows;
        var s :| 0 <= s < |w.sessions| && RowFrom(allocations, w.sessions[s], s, w.rows[i]);
        assert w'.sessions[s] == w.sessions[s];
        assert RowFrom(allocations, w'.sessions[s], s, r);
      } else {
        assert SessionSound(allocations, w.rows, a.s, w.sessions[a.s]);
        IdentityOf(FreshId(a.s), w.sessions[a.s].phase.project, w.sessions[a.s].request);
        assert RowFrom(allocations, w'.sessions[a.s], a.s, r);
      }
    }
  }

  lemma StepKeepsInv(allocations: map<string, Allocation>, w: World, a: Action)
    requires Inv(allocations, w)
    ensures Inv(allocations, Step(allocations, w, a))
  {
    if Enabled(allocations, w, a) {
      NextKeepsInv(allocations, w, a);
    }
  }

  lemma NextKeepsInv(allocations: map<string, Allocation>, w: World, a: Action)
    requires Inv(allocations, w) && Enabled(allocations, w, a)
    ensures Inv(allocations, Next(allocations, w, a))
  {
    LockStays(allocations, w, a);
    LimitsStay(allocations, w, a);
    RowsStay(allocations, w, a);
    SessionsUntouched(allocations, w, a);
    hide LockSound, LimitsHold, RowSound, Enabled, Next, SessionSound;
    var w' := Next(allocations, w, a);
    forall t | 0 <= t < |w'.sessions|
      ensures SessionSound(allocations, w'.rows, t, w'.sessions[t])
    {
      if t < |w.sessions| {
        if Moves(a, t) {
          MoverStays(allocations, w, a, t);
        } else {
          OthersStay(allocations, w, a, t);
        }
      }
    }
  }

  lemma SessionsUntouched(allocations: map<string, Allocation>, w: World, a: Action)
    requires Enabled(allocations, w, a)
    ensures var w' := Next(allocations, w, a);
      && |w.sessions| <= |w'.sessions|
      && (forall t | 0 <= t < |w.sessions| && !Moves(a, t) :: w'.sessions[t] == w.sessions[t])
      && (forall t | |w.sessions| <= t < |w'.sessions| :: SessionSound(allocations, w'.rows, t, w'.sessions[t]))
  {
    hide AfterSelect, AfterDecide, AfterCommit, Outstanding;
  }

  lemma {:induction false} InvAlways(allocations: map<string, Allocation>, actions: seq<Action>)
    ensures Inv(allocations, Run(allocations, actions))
  {
    hide Step, Inv;
    if actions == [] {
      InvInitially(allocations);
    } else {
      InvAlways(allocations, actions[..|actions| - 1]);
      StepKeepsInv(allocations, Run(allocations, actions[..|actions| - 1]), actions[|actions| - 1]);
    }
  }

  lemma InvInitially(allocations: map<string, Allocation>)
    ensures Inv(allocations, World([], []))
  {
  }
}
