/** Ingress idempotency: claims, admission and the rebuilding of claims at start-up
    (control_plane/idempotency/ingress_dedupe.py, task_orchestrator/admission/idempotency.py and the
    recovery loop of control_plane/api/dependencies.py). The payload hash is taken to be injective,
    so a payload stands for its hash. */
module IngressDedupe {
  import opened PyText
  import opened MessageLedger
  import opened TaskState

  /** The hashed fields, alike in an admission envelope and in the stored task. */
  datatype Payload = Payload(
    principalId: string, connector: string, command: string, args: seq<string>, metadata: seq<(string, string)>,
    idempotencyKey: string)

  datatype ClaimKey = ClaimKey(principalId: string, idempotencyKey: string)

  function KeyOf(p: Payload): ClaimKey {
    ClaimKey(p.principalId, p.idempotencyKey)
  }

  datatype DedupeRecord = DedupeRecord(payload: Payload, taskId: Option<string>)

  datatype ClaimStatus = New | Replay | Conflict

  type Claims = map<ClaimKey, DedupeRecord>

  function StatusOf(claims: Claims, p: Payload): ClaimStatus {
    if KeyOf(p) !in claims then New
    else if claims[KeyOf(p)].payload == p then Replay
    else Conflict
  }

  function Claimed(claims: Claims, p: Payload): Claims {
    if KeyOf(p) in claims then claims else claims[KeyOf(p) := DedupeRecord(p, None)]
  }

  function Bound(claims: Claims, k: ClaimKey, taskId: string): Claims {
    if k in claims then claims[k := claims[k].(taskId := Some(taskId))] else claims
  }

  class IngressDedupeStore {
    var claims: Claims

    constructor ()
      ensures claims == map[]
    {
      claims := map[];
    }

    method Claim(p: Payload) returns (status: ClaimStatus, record: DedupeRecord)
      modifies this
      ensures status == StatusOf(old(claims), p)
      ensures claims == Claimed(old(claims), p)
      ensures KeyOf(p) in claims && record == claims[KeyOf(p)]
    {
      var key := KeyOf(p);
      if key !in claims {
        record := DedupeRecord(p, None);
        claims := claims[key := record];
        return New, record;
      }
      if claims[key].payload == p {
        return Replay, claims[key];
      }
      return Conflict, claims[key];
    }

    method BindTaskId(key: ClaimKey, taskId: string)
      modifies this
      ensures claims == Bound(old(claims), key, taskId)
    {
      if key !in claims {
        return;
      }
      claims := claims[key := DedupeRecord(claims[key].payload, Some(taskId))];
    }
  }

  /** One row of the task table; rows are kept in order of `created_at`, taken to increase strictly. */
  datatype Task = Task(taskId: string, payload: Payload, status: string)

  /** The youngest task of a key, -1 if none: ORDER BY created_at DESC LIMIT 1. */
  function Latest(tasks: seq<Task>, k: ClaimKey): (i: int)
    ensures -1 <= i < |tasks|
    ensures i >= 0 ==> KeyOf(tasks[i].payload) == k
    ensures forall j :: i < j < |tasks| ==> KeyOf(tasks[j].payload) != k
  {
    if tasks == [] then -1
    else if KeyOf(tasks[|tasks| - 1].payload) == k then |tasks| - 1
    else Latest(tasks[..|tasks| - 1], k)
  }

  predicate HasId(tasks: seq<Task>, id: Option<string>) {
    id.Some? && exists t <- tasks :: t.taskId == id.value
  }

  datatype Admission =
    | Admitted(taskId: string)
    | Replayed(taskId: string)
    | KeyReused
    | StateMissing

  class AdmissionIdempotencyCoordinator {
    const store: IngressDedupeStore
    var tasks: seq<Task>

    constructor (store: IngressDedupeStore, tasks: seq<Task>)
      ensures this.store == store && this.tasks == tasks
    {
      this.store, this.tasks := store, tasks;
    }

    /** One admission with nobody else around. A key that has tasks always replays the youngest. */
    method Resolve(p: Payload) returns (admission: Admission)
      modifies this, store
      ensures match StatusOf(old(store.claims), p)
              case New =>
                && admission == Admitted(FreshId(|old(tasks)|))
                && tasks == old(tasks) + [Task(FreshId(|old(tasks)|), p, "queued")]
                && store.claims == old(store.claims)[KeyOf(p) := DedupeRecord(p, Some(FreshId(|old(tasks)|)))]
              case Replay =>
                && tasks == old(tasks) && store.claims == old(store.claims)
                && (Latest(tasks, KeyOf(p)) >= 0 ==> admission == Replayed(tasks[Latest(tasks, KeyOf(p))].taskId))
                && (Latest(tasks, KeyOf(p)) < 0 ==>
                      var id := store.claims[KeyOf(p)].taskId;
                      admission == if HasId(tasks, id) then Replayed(id.value) else StateMissing)
              case Conflict => admission == KeyReused && tasks == old(tasks) && store.claims == old(store.claims)
    {
      var status, record := store.Claim(p);
      match status {
        case Conflict => return KeyReused;
        case Replay =>
          var i := Latest(tasks, KeyOf(p));
          if i >= 0 {
            return Replayed(tasks[i].taskId);
          }
          if HasId(tasks, record.taskId) {
            return Replayed(record.taskId.value);
          }
          return StateMissing;
        case New =>
          var id := FreshId(|tasks|);
          tasks := tasks + [Task(id, p, "queued")];
          store.BindTaskId(KeyOf(p), id);
          return Admitted(id);
      }
    }
  }

  // ----- start-up recovery -----

  const ACTIVE_STATUSES := {"queued", "dispatched", "running", "blocked"}

  predicate Recoverable(t: Task) {
    t.status in ACTIVE_STATUSES
  }

  /** The recovery loop over the rows in creation order: the claims, and the count it reports. */
  function Recover(claims: Claims, tasks: seq<Task>): (Claims, nat) {
    if tasks == [] then (claims, 0) else
    var (before, n), t := Recover(claims, tasks[..|tasks| - 1]), tasks[|tasks| - 1];
    if Recoverable(t) then
      (Bound(Claimed(before, t.payload), KeyOf(t.payload), t.taskId),
       if StatusOf(before, t.payload) == New then n + 1 else n)
    else (before, n)
  }

  method RecoverClaims(store: IngressDedupeStore, tasks: seq<Task>) returns (reconstructed: nat)
    modifies store
    ensures (store.claims, reconstructed) == Recover(old(store.claims), tasks)
  {
    hide Claimed, Bound, StatusOf;
    reconstructed := 0;
    for i := 0 to |tasks|
      invariant (store.claims, reconstructed) == Recover(old(store.claims), tasks[..i])
    {
      assert tasks[..i + 1][..i] == tasks[..i];
      if tasks[i].status in ACTIVE_STATUSES {
        var status, _ := store.Claim(tasks[i].payload);
        store.BindTaskId(KeyOf(tasks[i].payload), tasks[i].taskId);
        if status == New {
          reconstructed := reconstructed + 1;
        }
      }
    }
    assert tasks[..|tasks|] == tasks;
  }

  /** No two recoverable tasks share a key. */
  ghost predicate DistinctKeys(tasks: seq<Task>) {
    forall i, j | 0 <= i < j < |tasks| && Recoverable(tasks[i]) && Recoverable(tasks[j]) ::
      KeyOf(tasks[i].payload) != KeyOf(tasks[j].payload)
  }

  ghost predicate ClaimsMatch(claims: Claims, tasks: seq<Task>) {
    && (forall i | 0 <= i < |tasks| && Recoverable(tasks[i]) ::
          KeyOf(tasks[i].payload) in claims
          && claims[KeyOf(tasks[i].payload)] == DedupeRecord(tasks[i].payload, Some(tasks[i].taskId)))
    && (forall k <- claims :: exists i :: 0 <= i < |tasks| && Recoverable(tasks[i]) && KeyOf(tasks[i].payload) == k)
  }

  function CountRecoverable(tasks: seq<Task>): nat {
    if tasks == [] then 0 else
    CountRecoverable(tasks[..|tasks| - 1]) + if Recoverable(tasks[|tasks| - 1]) then 1 else 0
  }

  /** Recovery gives each recoverable task its own claim back, no others, and counts them right. */
  lemma {:induction false} RecoveryRestoresClaims(tasks: seq<Task>)
    requires DistinctKeys(tasks)
    ensures ClaimsMatch(Recover(map[], tasks).0, tasks)
    ensures Recover(map[], tasks).1 == CountRecoverable(tasks)
  {
    hide Recoverable, KeyOf;
    if tasks != [] {
      var init, t := tasks[..|tasks| - 1], tasks[|tasks| - 1];
      RecoveryRestoresClaims(init);
      var before := Recover(map[], init).0;
      if Recoverable(t) {
        assert KeyOf(t.payload) !in before;
      }
      RecoveryStep(before, tasks);
    }
  }

  lemma RecoveryStep(before: Claims, tasks: seq<Task>)
    requires tasks != [] && ClaimsMatch(before, tasks[..|tasks| - 1]) && DistinctKeys(tasks)
    requires var t := tasks[|tasks| - 1]; Recoverable(t) ==> KeyOf(t.payload) !in before
    ensures var t := tasks[|tasks| - 1];
      ClaimsMatch(if Recoverable(t) then Bound(Claimed(before, t.payload), KeyOf(t.payload), t.taskId) else before, tasks)
  {
    hide Recoverable, KeyOf;
    var last := |tasks| - 1;
    var t := tasks[last];
    var after := if Recoverable(t) then Bound(Claimed(before, t.payload), KeyOf(t.payload), t.taskId) else before;
    forall k | k in after
      ensures exists i :: 0 <= i < |tasks| && Recoverable(tasks[i]) && KeyOf(tasks[i].payload) == k
    {
      if k in before {
        var i :| 0 <= i < last && Recoverable(tasks[..last][i]) && KeyOf(tasks[..last][i].payload) == k;
        assert tasks[i] == tasks[..last][i];
      } else {
        assert tasks[last] == t;
      }
    }
    forall i | 0 <= i < |tasks| && Recoverable(tasks[i])
      ensures KeyOf(tasks[i].payload) in after
      ensures after[KeyOf(tasks[i].payload)] == DedupeRecord(tasks[i].payload, Some(tasks[i].taskId))
    {
      if i < last {
        assert tasks[..last][i] == tasks[i];
      }
    }
  }
}
