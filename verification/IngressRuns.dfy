/** Admissions, status changes and restarts interleaved (task_orchestrator/admission/idempotency.py,
    task_orchestrator/state/transition_guard.py, control_plane/api/dependencies.py). A restart loses
    the claims and the requests in flight and keeps the task table. */
module IngressRuns {
  import opened PyText
  import opened MessageLedger
  import opened TaskState
  import opened IngressDedupe

  datatype Phase = Claiming | Binding(taskId: string) | Over

  /** A request that won its claim. */
  datatype Flight = Flight(payload: Payload, phase: Phase)

  datatype World = World(tasks: seq<Task>, claims: Claims, flights: seq<Flight>)

  const INITIAL := World([], map[], [])

  datatype Action =
    | Claim(payload: Payload)
    | Create(f: nat)
    | CreateFails(f: nat)
    | Bind(f: nat)
    | Update(i: nat, status: string)
    | Restart

  function Restarted(w: World): World {
    World(w.tasks, Recover(map[], w.tasks).0, [])
  }

  function SetPhase(w: World, f: nat, phase: Phase): World
    requires f < |w.flights|
  {
    w.(flights := w.flights[f := w.flights[f].(phase := phase)])
  }

  /** One step; one that cannot be taken changes nothing. A claim that is not new changes nothing
      either: it is answered from the task table. */
  function Step(w: World, a: Action): World {
    match a
    case Claim(p) =>
      if StatusOf(w.claims, p) == New
      then w.(claims := Claimed(w.claims, p), flights := w.flights + [Flight(p, Claiming)])
      else w
    case Create(f) =>
      if f < |w.flights| && w.flights[f].phase.Claiming? then
        var id := FreshId(|w.tasks|);
        SetPhase(w, f, Binding(id)).(tasks := w.tasks + [Task(id, w.flights[f].payload, "queued")])
      else w
    case CreateFails(f) =>
      if f < |w.flights| && w.flights[f].phase.Claiming? then SetPhase(w, f, Over) else w
    case Bind(f) =>
      if f < |w.flights| && w.flights[f].phase.Binding? then
        SetPhase(w, f, Over).(claims := Bound(w.claims, KeyOf(w.flights[f].payload), w.flights[f].phase.taskId))
      else w
    case Update(i, status) =>
      if i < |w.tasks| && UpdateAllowed(w.tasks[i].status, status)
      then w.(tasks := w.tasks[i := w.tasks[i].(status := status)])
      else w
    case Restart => Restarted(w)
  }

  function RunFrom(w: World, actions: seq<Action>): World {
    if actions == [] then w else Step(RunFrom(w, actions[..|actions| - 1]), actions[|actions| - 1])
  }

  predicate NoneAuthorized(w: World) {
    forall t <- w.tasks :: t.status != "authorized"
  }

  /** No restart of the run meets an authorized task. */
  ghost predicate SafeRestarts(w: World, actions: seq<Action>) {
    forall n | 0 <= n < |actions| && actions[n] == Restart :: NoneAuthorized(RunFrom(w, actions[..n]))
  }

  /** Task i is unfinished and belongs to key k. */
  predicate Live(w: World, i: int, k: ClaimKey) {
    && 0 <= i < |w.tasks| && Unfinished(w.tasks[i].status)
    && OfKey(w.tasks[i].payload, k)
  }

  /** Flight f is about to create a task for key k. */
  predicate About(w: World, f: int, k: ClaimKey) {
    && 0 <= f < |w.flights| && w.flights[f].phase.Claiming?
    && OfKey(w.flights[f].payload, k)
  }

  ghost predicate AtMostOneLive(w: World) {
    forall i, j, k | Live(w, i, k) && Live(w, j, k) :: i == j
  }

  ghost predicate Inv(w: World) {
    && AtMostOneLive(w)
    && (forall f, g, k | About(w, f, k) && About(w, g, k) :: f == g)
    && (forall i, f, k | Live(w, i, k) :: !About(w, f, k))
    && (forall f, k | About(w, f, k) :: k in w.claims && w.claims[k].payload == w.flights[f].payload)
    && (forall i, k | Live(w, i, k) :: k in w.claims && w.claims[k].payload == w.tasks[i].payload)
    && (forall i, j, k | Live(w, i, k) && i < j < |w.tasks| :: !OfKey(w.tasks[j].payload, k))
  }

  predicate OfKey(p: Payload, k: ClaimKey) {
    p.principalId == k.principalId && p.idempotencyKey == k.idempotencyKey
  }

  /** A claim key is the principal and the idempotency key, and nothing else. */
  lemma KeysAgree()
    ensures forall p, k :: KeyOf(p) == k <==> OfKey(p, k)
  {
  }

  // ----- every step keeps the invariant -----

  lemma ClaimKeeps(w: World, p: Payload)
    requires Inv(w)
    ensures Inv(Step(w, Claim(p)))
  {
    hide KeyOf, OfKey, Unfinished;
    KeysAgree();
    var w' := Step(w, Claim(p));
    if w' != w {
      assert forall i, k :: Live(w', i, k) <==> Live(w, i, k);
      assert forall f, k | f < |w.flights| :: About(w', f, k) <==> About(w, f, k);
    }
  }

  lemma CreateKeeps(w: World, f: nat)
    requires Inv(w)
    ensures Inv(Step(w, Create(f)))
  {
    hide KeyOf, OfKey, Unfinished;
    KeysAgree();
    var w' := Step(w, Create(f));
    if w' != w {
      var key := KeyOf(w.flights[f].payload);
      assert About(w, f, key);
      assert forall i, k | i < |w.tasks| :: Live(w', i, k) <==> Live(w, i, k);
      assert forall g, k :: About(w', g, k) <==> About(w, g, k) && g != f;
    }
  }

  lemma SettleKeeps(w: World, a: Action)
    requires Inv(w) && (a.CreateFails? || a.Bind?)
    ensures Inv(Step(w, a))
  {
    hide KeyOf, Unfinished;
    var w' := Step(w, a);
    if w' != w {
      assert forall i, k :: Live(w', i, k) <==> Live(w, i, k);
      assert forall g, k :: About(w', g, k) ==> About(w, g, k);
    }
  }

  lemma UpdateKeeps(w: World, i: nat, status: string)
    requires Inv(w)
    ensures Inv(Step(w, Update(i, status)))
  {
    var w' := Step(w, Update(i, status));
    if w' != w {
      FinishedStays(w.tasks[i].status, status);
      hide KeyOf, Unfinished, LegalTransitions, UpdateAllowed;
      assert forall j, k :: Live(w', j, k) ==> Live(w, j, k);
      assert forall g, k :: About(w', g, k) <==> About(w, g, k);
    }
  }

  lemma FinishedStays(current: string, next: string)
    requires UpdateAllowed(current, next)
    ensures Unfinished(next) ==> Unfinished(current)
  {
    if !Unfinished(current) {
      FinishedStaysFinished(current, next);
    }
  }

  lemma UnfinishedIsRecoverable(t: Task)
    requires t.status != "authorized"
    ensures Unfinished(t.status) <==> Recoverable(t)
  {
  }

  /** With no authorized task around, the rebuilt claims are exactly the claims of the live tasks. */
  lemma RestartKeeps(w: World)
    requires Inv(w) && NoneAuthorized(w)
    ensures Inv(Restarted(w))
    ensures DistinctKeys(w.tasks)
  {
    forall t | t in w.tasks
      ensures Unfinished(t.status) <==> Recoverable(t)
    {
      UnfinishedIsRecoverable(t);
    }
    hide KeyOf, Unfinished, Recoverable, Recover;
    forall i, j | 0 <= i < j < |w.tasks| && Recoverable(w.tasks[i]) && Recoverable(w.tasks[j])
      ensures KeyOf(w.tasks[i].payload) != KeyOf(w.tasks[j].payload)
    {
      assert Live(w, i, KeyOf(w.tasks[i].payload)) && Live(w, j, KeyOf(w.tasks[j].payload));
    }
    RecoveryRestoresClaims(w.tasks);
    var w' := Restarted(w);
    assert forall i, k :: Live(w', i, k) <==> Live(w, i, k);
  }

  lemma StepKeeps(w: World, a: Action)
    requires Inv(w) && (a == Restart ==> NoneAuthorized(w))
    ensures Inv(Step(w, a))
  {
    match a
    case Claim(p) => ClaimKeeps(w, p);
    case Create(f) => CreateKeeps(w, f);
    case CreateFails(_) => SettleKeeps(w, a);
    case Bind(_) => SettleKeeps(w, a);
    case Update(i, status) => UpdateKeeps(w, i, status);
    case Restart => RestartKeeps(w);
  }

  lemma {:induction false} InvAlways(w: World, actions: seq<Action>)
    requires Inv(w) && SafeRestarts(w, actions)
    ensures Inv(RunFrom(w, actions))
    decreases |actions|
  {
    hide Inv, Step, NoneAuthorized;
    if actions != [] {
      var init := actions[..|actions| - 1];
      forall n | 0 <= n < |init| && init[n] == Restart
        ensures NoneAuthorized(RunFrom(w, init[..n]))
      {
        assert init[..n] == actions[..n];
      }
      InvAlways(w, init);
      StepKeeps(RunFrom(w, init), actions[|actions| - 1]);
    }
  }

  lemma InvInitially()
    ensures Inv(INITIAL)
  {
  }

  // ----- results -----

  /** However admissions, status changes and safe restarts interleave, no two unfinished tasks ever have
      both the same principal and the same idempotency key. */
  lemma NeverTwoLiveTasks(actions: seq<Action>)
    requires SafeRestarts(INITIAL, actions)
    ensures AtMostOneLive(RunFrom(INITIAL, actions))
    ensures var tasks := RunFrom(INITIAL, actions).tasks;
      forall i, j | 0 <= i < j < |tasks| && Unfinished(tasks[i].status) && Unfinished(tasks[j].status) ::
        tasks[i].payload.principalId != tasks[j].payload.principalId || tasks[i].payload.idempotencyKey != tasks[j].payload.idempotencyKey
  {
    InvInitially();
    InvAlways(INITIAL, actions);
    hide RunFrom, Unfinished, About;
    var w := RunFrom(INITIAL, actions);
    forall i, j | 0 <= i < j < |w.tasks| && Unfinished(w.tasks[i].status) && Unfinished(w.tasks[j].status)
      ensures w.tasks[i].payload.principalId != w.tasks[j].payload.principalId
           || w.tasks[i].payload.idempotencyKey != w.tasks[j].payload.idempotencyKey
    {
      var p := w.tasks[i].payload;
      assert Live(w, i, ClaimKey(p.principalId, p.idempotencyKey));
      assert !Live(w, j, ClaimKey(p.principalId, p.idempotencyKey));
    }
  }

  /** Sending an unfinished task's request again returns that very task, also right after a restart;
      another payload of the same principal under the same idempotency key is a conflict. */
  lemma ReplayReturnsOwnTask(actions: seq<Action>, i: nat, p: Payload)
    requires SafeRestarts(INITIAL, actions)
    requires var tasks := RunFrom(INITIAL, actions).tasks;
      && i < |tasks| && Unfinished(tasks[i].status)
      && tasks[i].payload.principalId == p.principalId && tasks[i].payload.idempotencyKey == p.idempotencyKey
    ensures var w := RunFrom(INITIAL, actions);
      && Latest(w.tasks, KeyOf(p)) == i
      && StatusOf(w.claims, p) == (if p == w.tasks[i].payload then Replay else Conflict)
  {
    InvInitially();
    InvAlways(INITIAL, actions);
    KeysAgree();
    hide RunFrom, KeyOf, Unfinished;
    var w := RunFrom(INITIAL, actions);
    assert Live(w, i, KeyOf(p));
    var last := Latest(w.tasks, KeyOf(p));
    assert last >= i;
  }

  // ----- which claims are new -----

  /** The n-th action claims for this principal and idempotency key. */
  predicate ClaimsFor(actions: seq<Action>, n: nat, principalId: string, idempotencyKey: string) {
    && n < |actions| && actions[n].Claim?
    && actions[n].payload.principalId == principalId && actions[n].payload.idempotencyKey == idempotencyKey
  }

  /** The n-th action is the first to do so. */
  ghost predicate FirstClaim(actions: seq<Action>, n: nat, principalId: string, idempotencyKey: string) {
    ClaimsFor(actions, n, principalId, idempotencyKey) && forall k: nat | k < n :: !ClaimsFor(actions, k, principalId, idempotencyKey)
  }

  ghost predicate ClaimedBy(actions: seq<Action>, w: World, principalId: string, idempotencyKey: string) {
    var key := ClaimKey(principalId, idempotencyKey);
    && (key in w.claims <==> exists n: nat :: ClaimsFor(actions, n, principalId, idempotencyKey))
    && (forall n: nat | FirstClaim(actions, n, principalId, idempotencyKey) :: key in w.claims && w.claims[key].payload == actions[n].payload)
  }

  predicate NoRestart(actions: seq<Action>) {
    forall n | 0 <= n < |actions| :: !actions[n].Restart?
  }

  lemma {:induction false} ClaimsAreClaimed(actions: seq<Action>, principalId: string, idempotencyKey: string)
    requires NoRestart(actions)
    ensures ClaimedBy(actions, RunFrom(INITIAL, actions), principalId, idempotencyKey)
  {
    hide Step;
    if actions != [] {
      var last := |actions| - 1;
      ClaimsAreClaimed(actions[..last], principalId, idempotencyKey);
      StepClaims(RunFrom(INITIAL, actions[..last]), actions[last], ClaimKey(principalId, idempotencyKey));
      hide RunFrom;
      OneMoreClaimed(actions, RunFrom(INITIAL, actions[..last]), RunFrom(INITIAL, actions), principalId, idempotencyKey);
    }
  }

  lemma OneMoreClaimed(actions: seq<Action>, w: World, w': World, principalId: string, idempotencyKey: string)
    requires actions != [] && ClaimedBy(actions[..|actions| - 1], w, principalId, idempotencyKey)
    requires var k, a := ClaimKey(principalId, idempotencyKey), actions[|actions| - 1];
      && (k in w'.claims <==> k in w.claims || (a.Claim? && OfKey(a.payload, k)))
      && (k in w.claims ==> w'.claims[k].payload == w.claims[k].payload)
      && (k !in w.claims && a.Claim? && OfKey(a.payload, k) ==> w'.claims[k].payload == a.payload)
    ensures ClaimedBy(actions, w', principalId, idempotencyKey)
  {
    var last, k := |actions| - 1, ClaimKey(principalId, idempotencyKey);
    var init := actions[..last];
    assert forall n: nat | n < last :: init[n] == actions[n];
    assert forall n: nat :: ClaimsFor(init, n, principalId, idempotencyKey) <==> n < last && ClaimsFor(actions, n, principalId, idempotencyKey);
    assert ClaimsFor(actions, last, principalId, idempotencyKey) <==> actions[last].Claim? && OfKey(actions[last].payload, k);
    hide ClaimsFor, OfKey;
    if k in w.claims {
      var n: nat :| ClaimsFor(init, n, principalId, idempotencyKey);
      assert ClaimsFor(actions, n, principalId, idempotencyKey);
    }
    forall n: nat | FirstClaim(actions, n, principalId, idempotencyKey)
      ensures k in w'.claims && w'.claims[k].payload == actions[n].payload
    {
      if n < last {
        assert FirstClaim(init, n, principalId, idempotencyKey);
      } else {
        assert n == last && k !in w.claims;
      }
    }
  }

  lemma StepClaims(w: World, a: Action, k: ClaimKey)
    requires a != Restart
    ensures var w' := Step(w, a);
      && (k in w'.claims <==> k in w.claims || (a.Claim? && OfKey(a.payload, k)))
      && (k in w.claims ==> w'.claims[k].payload == w.claims[k].payload)
      && (k !in w.claims && a.Claim? && OfKey(a.payload, k) ==> w'.claims[k].payload == a.payload)
  {
  }

  /** Between restarts a claim is new exactly if nobody has claimed for the same principal and the same
      idempotency key before, and otherwise a replay or a conflict by the payload that came first. */
  lemma ClaimIsNewIff(actions: seq<Action>, p: Payload)
    requires NoRestart(actions)
    ensures var status := StatusOf(RunFrom(INITIAL, actions).claims, p);
      && (status == New <==> forall n: nat :: !ClaimsFor(actions, n, p.principalId, p.idempotencyKey))
      && (status == Replay <==> exists n: nat :: FirstClaim(actions, n, p.principalId, p.idempotencyKey) && actions[n].payload == p)
  {
    ClaimsAreClaimed(actions, p.principalId, p.idempotencyKey);
    KeysAgree();
    hide RunFrom, ClaimsFor, KeyOf;
    if n: nat :| ClaimsFor(actions, n, p.principalId, p.idempotencyKey) {
      var first := FirstOf(actions, n, p.principalId, p.idempotencyKey);
    }
  }

  lemma FirstOf(actions: seq<Action>, n: nat, principalId: string, idempotencyKey: string) returns (first: nat)
    requires ClaimsFor(actions, n, principalId, idempotencyKey)
    ensures FirstClaim(actions, first, principalId, idempotencyKey)
  {
    if k: nat :| k < n && ClaimsFor(actions, k, principalId, idempotencyKey) {
      first := FirstOf(actions, k, principalId, idempotencyKey);
    } else {
      first := n;
    }
  }

  /** A safe restart reports as many reconstructed claims as there are unfinished tasks. */
  lemma RestartReportsLiveTasks(actions: seq<Action>)
    requires SafeRestarts(INITIAL, actions) && NoneAuthorized(RunFrom(INITIAL, actions))
    ensures var tasks := RunFrom(INITIAL, actions).tasks;
      Recover(map[], tasks).1 == CountUnfinished(tasks)
  {
    InvInitially();
    InvAlways(INITIAL, actions);
    hide RunFrom;
    var w := RunFrom(INITIAL, actions);
    RestartKeeps(w);
    RecoveryRestoresClaims(w.tasks);
    CountsAgree(w.tasks);
  }

  function CountUnfinished(tasks: seq<Task>): nat {
    if tasks == [] then 0 else
    CountUnfinished(tasks[..|tasks| - 1]) + if Unfinished(tasks[|tasks| - 1].status) then 1 else 0
  }

  lemma {:induction false} CountsAgree(tasks: seq<Task>)
    requires forall t <- tasks :: t.status != "authorized"
    ensures CountRecoverable(tasks) == CountUnfinished(tasks)
  {
    hide Recoverable, Unfinished;
    if tasks != [] {
      CountsAgree(tasks[..|tasks| - 1]);
      assert tasks[|tasks| - 1] in tasks;
      UnfinishedIsRecoverable(tasks[|tasks| - 1]);
    }
  }

  /** Sending the request of a task that was authorized when the process restarted creates a twin. */
  lemma AuthorizedTaskIsDuplicated(w: World, i: nat)
    requires Inv(w) && i < |w.tasks| && w.tasks[i].status == "authorized"
    ensures var later := [Claim(w.tasks[i].payload), Create(0)];
      SafeRestarts(Restarted(w), later) && !AtMostOneLive(RunFrom(Restarted(w), later))
  {
    var p := w.tasks[i].payload;
    var k := KeyOf(p);
    var later := [Claim(p), Create(0)];
    var w0 := Restarted(w);
    assert Live(w, i, k);
    NoClaimWithoutLiveTask(w, i);
    var w1 := Step(w0, Claim(p));
    var w2 := Step(w1, Create(0));
    assert later[..1] == [Claim(p)] && later[..1][..0] == [];
    assert RunFrom(w0, []) == w0;
    assert RunFrom(w0, later[..1]) == w1;
    assert RunFrom(w0, later) == w2;
    hide KeyOf, Recover, RunFrom;
    assert Live(w2, i, k) && Live(w2, |w.tasks|, k);
  }

  lemma NoClaimWithoutLiveTask(w: World, i: nat)
    requires Inv(w) && i < |w.tasks| && w.tasks[i].status == "authorized"
    ensures KeyOf(w.tasks[i].payload) !in Restarted(w).claims
  {
    hide KeyOf, OfKey;
    KeysAgree();
    RecoveredKeys(w.tasks);
    var k := KeyOf(w.tasks[i].payload);
    forall j | 0 <= j < |w.tasks| && KeyOf(w.tasks[j].payload) == k
      ensures !Recoverable(w.tasks[j])
    {
      assert Live(w, i, k);
      assert Unfinished(w.tasks[j].status) ==> Live(w, j, k);
    }
  }

  lemma {:induction false} RecoveredKeys(tasks: seq<Task>)
    ensures forall k <- Recover(map[], tasks).0 ::
      exists j :: 0 <= j < |tasks| && Recoverable(tasks[j]) && KeyOf(tasks[j].payload) == k
  {
    hide Recoverable, KeyOf;
    if tasks != [] {
      var init := tasks[..|tasks| - 1];
      RecoveredKeys(init);
      forall k | k in Recover(map[], tasks).0
        ensures exists j :: 0 <= j < |tasks| && Recoverable(tasks[j]) && KeyOf(tasks[j].payload) == k
      {
        if k in Recover(map[], init).0 {
          var j :| 0 <= j < |init| && Recoverable(init[j]) && KeyOf(init[j].payload) == k;
          assert tasks[j] == init[j];
        } else {
          assert KeyOf(tasks[|tasks| - 1].payload) == k;
        }
      }
    }
  }

  /** A restart is safe for the rest of the run (up to the next unsafe one) exactly when no task is
      authorized at that moment: that status is unfinished but not among those whose claims are
      rebuilt. */
  lemma RestartIsSafeIff(actions: seq<Action>)
    requires SafeRestarts(INITIAL, actions)
    ensures var w := RunFrom(INITIAL, actions);
      NoneAuthorized(w) <==>
        forall later | SafeRestarts(Restarted(w), later) :: AtMostOneLive(RunFrom(Restarted(w), later))
  {
    InvInitially();
    InvAlways(INITIAL, actions);
    hide RunFrom, SafeRestarts, Inv, Restarted, AtMostOneLive;
    var w := RunFrom(INITIAL, actions);
    if NoneAuthorized(w) {
      RestartKeeps(w);
      forall later | SafeRestarts(Restarted(w), later)
        ensures AtMostOneLive(RunFrom(Restarted(w), later))
      {
        InvAlways(Restarted(w), later);
        InvIsUnique(RunFrom(Restarted(w), later));
      }
    } else {
      var t :| t in w.tasks && t.status == "authorized";
      var i :| 0 <= i < |w.tasks| && w.tasks[i] == t;
      AuthorizedTaskIsDuplicated(w, i);
    }
  }

  lemma InvIsUnique(w: World)
    requires Inv(w)
    ensures AtMostOneLive(w)
  {
    hide Live, About;
  }

  /** Such a restart does happen: one admission, one status change, one restart. */
  lemma AuthorizedIsReachable(p: Payload)
    ensures var actions := [Claim(p), Create(0), Bind(0), Update(0, "authorized")];
      SafeRestarts(INITIAL, actions) && !NoneAuthorized(RunFrom(INITIAL, actions))
  {
    hide *;
    var a := [Claim(p), Create(0), Bind(0), Update(0, "authorized")];
    FourSteps(a);
    FourStepsAuthorize(p);
    NeverRestarts(p);
  }

  lemma FourSteps(a: seq<Action>)
    requires |a| == 4
    ensures RunFrom(INITIAL, a) == Step(Step(Step(Step(INITIAL, a[0]), a[1]), a[2]), a[3])
  {
    hide Step;
    assert a[..3][..2] == a[..2] && a[..2][..1] == a[..1] && a[..1][..0] == [];
    assert RunFrom(INITIAL, a[..1]) == Step(INITIAL, a[0]);
    assert RunFrom(INITIAL, a[..2]) == Step(RunFrom(INITIAL, a[..1]), a[1]);
    assert RunFrom(INITIAL, a[..3]) == Step(RunFrom(INITIAL, a[..2]), a[2]);
  }

  lemma FourStepsAuthorize(p: Payload)
    ensures !NoneAuthorized(Step(Step(Step(Step(INITIAL, Claim(p)), Create(0)), Bind(0)), Update(0, "authorized")))
  {
    hide KeyOf;
    var w3 := Step(Step(Step(INITIAL, Claim(p)), Create(0)), Bind(0));
    assert |w3.tasks| == 1 && w3.tasks[0].status == "queued";
    var w4 := Step(w3, Update(0, "authorized"));
    assert w4.tasks[0].status == "authorized" && w4.tasks[0] in w4.tasks;
  }

  lemma NeverRestarts(p: Payload)
    ensures SafeRestarts(INITIAL, [Claim(p), Create(0), Bind(0), Update(0, "authorized")])
  {
    hide RunFrom, NoneAuthorized;
  }
}
