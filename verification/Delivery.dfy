/** The collaborators of the delivery publisher: request and receipt types, the idempotency store, the
    retry scheduler, the dead-letter list, the ACP client seen as an adversary, and the ack handler
    (communication_gateway/{storage,delivery,transport}). */
module Delivery {
  import opened PyText
  import opened MessageLedger

  datatype PublishRequest = PublishRequest(
    dispatch: Dispatch, principalId: string, idempotencyKey: string, args: seq<string>, projectId: Option<string>)

  datatype PublishReceipt = PublishReceipt(
    accepted: bool, dispatchId: Option<string>, errorCode: Option<string>, message: string, retryable: bool,
    routeKey: string, ledgerId: Option<string>, deadLetterId: Option<string>)

  // ------------------------------------------------------------------------- ACP client

  datatype SendRequest = SendRequest(dispatch: Dispatch, args: seq<string>)

  datatype SendReceipt = SendReceipt(
    dispatchId: string, deliveryId: string, acked: bool, code: string, message: string, retryable: bool)

  /** What one send may do: answer, raise `AcpClientError`, or raise anything else. */
  datatype AcpOutcome =
    | Answered(receipt: SendReceipt)
    | ClientError(code: string, message: string, retryable: bool)
    | Crashed

  /** The n-th send of a client's life has an arbitrary outcome. */
  type Script = nat -> AcpOutcome

  class AcpClient {
    const script: Script
    var sent: seq<SendRequest>

    constructor (script: Script)
      ensures this.script == script && sent == []
    {
      this.script := script;
      sent := [];
    }

    method Send(request: SendRequest) returns (outcome: AcpOutcome)
      modifies this
      ensures sent == old(sent) + [request]
      ensures outcome == script(|old(sent)|)
    {
      outcome := script(|sent|);
      sent := sent + [request];
    }
  }

  // ------------------------------------------------------------------------- idempotency store

  datatype ClaimStatus = New | Replay | Conflict | InProgressClaim

  /** The payload hash is taken to be injective, so it is the request itself. A completed record holds
      the stringified result. */
  datatype IdempotencyRecord = IdempotencyRecord(
    payload: PublishRequest, completed: bool, attemptCount: nat, result: Option<map<string, string>>)

  type Store = map<string, IdempotencyRecord>

  /** `project_id or "project-unspecified"`. */
  function ProjectScope(projectId: Option<string>): string {
    if projectId.None? || projectId.value == "" then "project-unspecified" else projectId.value
  }

  /** `build_delivery_key`. */
  function DeliveryKey(request: PublishRequest): string {
    var d := request.dispatch;
    d.connector + ":" + request.principalId + ":" + ProjectScope(request.projectId) + ":" + request.idempotencyKey + ":"
    + d.messageId + ":" + d.externalMessageId
  }

  function ClaimResult(store: Store, key: string, payload: PublishRequest): ClaimStatus {
    if key !in store then New
    else if !store[key].completed then InProgressClaim
    else if store[key].payload != payload then Conflict
    else Replay
  }

  function AfterClaim(store: Store, key: string, payload: PublishRequest): Store {
    if key in store then store else store[key := IdempotencyRecord(payload, false, 0, None)]
  }

  function AfterIncrement(store: Store, key: string): Store {
    if key in store then store[key := store[key].(attemptCount := store[key].attemptCount + 1)] else store
  }

  function AfterComplete(store: Store, key: string, result: map<string, string>): Store {
    if key in store then store[key := store[key].(completed := true, result := Some(result))] else store
  }

  class LocalCommunicationIdempotencyStore {
    var records: Store

    constructor ()
      ensures records == map[]
    {
      records := map[];
    }

    method Claim(key: string, payload: PublishRequest) returns (status: ClaimStatus, record: IdempotencyRecord)
      modifies this
      ensures status == ClaimResult(old(records), key, payload)
      ensures records == AfterClaim(old(records), key, payload)
      ensures key in records && record == records[key]
    {
      if key !in records {
        record := IdempotencyRecord(payload, false, 0, None);
        records := records[key := record];
        return New, record;
      }
      record := records[key];
      if !record.completed {
        return InProgressClaim, record;
      }
      if record.payload != payload {
        return Conflict, record;
      }
      return Replay, record;
    }

    method IncrementAttempt(key: string)
      modifies this
      ensures records == AfterIncrement(old(records), key)
    {
      if key in records {
        var record := records[key];
        records := records[key := record.(attemptCount := record.attemptCount + 1)];
      }
    }

    method Complete(key: string, result: map<string, string>)
      modifies this
      ensures records == AfterComplete(old(records), key, result)
    {
      if key in records {
        records := records[key := records[key].(completed := true, result := Some(result))];
      }
    }
  }

  // ------------------------------------------------------------------------- retry scheduler

  datatype RetryReason = NotAllowed | Exhausted | Scheduled

  datatype RetryDecision = RetryDecision(retry: bool, nextAttempt: nat, backoffSeconds: int, reason: RetryReason, message: string)

  function Power2(n: nat): nat {
    if n == 0 then 1 else 2 * Power2(n - 1)
  }

  function AtMost(x: int, cap: int): int {
    if x <= cap then x else cap
  }

  datatype RetryPolicy = RetryPolicy(maxAttempts: int, baseBackoffSeconds: int, maxBackoffSeconds: int) {

    /** `backoff_seconds_for_attempt`. */
    function BackoffSeconds(attempt: nat): int {
      if attempt <= 1 then 0
      else
        AtMost(baseBackoffSeconds * Power2(attempt - 2), maxBackoffSeconds)
    }

    /** `schedule_next`. */
    function ScheduleNext(attempt: nat, errorCode: string, retryable: bool): RetryDecision {
      if !retryable then
        RetryDecision(false, attempt, 0, NotAllowed, "retry disabled for non-retryable error: " + errorCode)
      else if attempt >= maxAttempts then
        RetryDecision(false, attempt, 0, Exhausted, "retry exhausted after " + Decimal(attempt) + " attempts")
      else
        RetryDecision(true, attempt + 1, BackoffSeconds(attempt + 1), Scheduled,
                      "retry scheduled for attempt " + Decimal(attempt + 1))
    }
  }

  /** With non-negative settings waiting never gets shorter, and never exceeds the configured cap. */
  lemma {:induction false} BackoffGrowsToCap(policy: RetryPolicy, a: nat, b: nat)
    requires policy.baseBackoffSeconds >= 0 && policy.maxBackoffSeconds >= 0 && a <= b
    ensures 0 <= policy.BackoffSeconds(a) <= policy.BackoffSeconds(b) <= policy.maxBackoffSeconds
    decreases b
  {
    var base := policy.baseBackoffSeconds;
    if a < b {
      BackoffGrowsToCap(policy, a, b - 1);
    }
    if b > 2 {
      BackoffGrowsToCap(policy, 0, b - 1);
      assert base * Power2(b - 2) == 2 * (base * Power2(b - 3));
    }
  }

  /** The schedule without powers: no wait before the first attempt, the base before the second, and
      twice the previous wait from then on, all up to the cap. */
  lemma BackoffDoubles(policy: RetryPolicy, a: nat)
    requires policy.maxBackoffSeconds >= 0 && policy.baseBackoffSeconds >= 0
    ensures policy.BackoffSeconds(0) == 0 && policy.BackoffSeconds(1) == 0
    ensures policy.BackoffSeconds(2) == AtMost(policy.baseBackoffSeconds, policy.maxBackoffSeconds)
    ensures a >= 2 ==> policy.BackoffSeconds(a + 1) == AtMost(2 * policy.BackoffSeconds(a), policy.maxBackoffSeconds)
  {
    assert Power2(0) == 1;
    if a >= 2 {
      assert policy.baseBackoffSeconds * Power2(a - 1) == 2 * (policy.baseBackoffSeconds * Power2(a - 2));
    }
  }

  // ------------------------------------------------------------------------- dead letters

  datatype DeadLetter = DeadLetter(
    deadLetterId: string, dispatch: Dispatch, principalId: string, idempotencyKey: string,
    errorCode: string, errorMessage: string, attempts: nat, ledgerId: Option<string>)

  function NewDeadLetter(
      count: nat, request: PublishRequest, errorCode: string, errorMessage: string, attempts: nat,
      ledgerId: Option<string>): DeadLetter
  {
    DeadLetter(FreshId(count), request.dispatch, request.principalId, request.idempotencyKey,
               errorCode, errorMessage, attempts, ledgerId)
  }

  class LocalDeadLetterWriter {
    var deadLetters: seq<DeadLetter>

    constructor ()
      ensures deadLetters == []
    {
      deadLetters := [];
    }

    method WriteDeadLetter(
        request: PublishRequest, errorCode: string, errorMessage: string, attempts: nat, ledgerId: Option<string>)
      returns (record: DeadLetter)
      modifies this
      ensures record == NewDeadLetter(|old(deadLetters)|, request, errorCode, errorMessage, attempts, ledgerId)
      ensures deadLetters == old(deadLetters) + [record]
    {
      record := NewDeadLetter(|deadLetters|, request, errorCode, errorMessage, attempts, ledgerId);
      deadLetters := deadLetters + [record];
    }
  }

  // ------------------------------------------------------------------------- ack handler

  datatype AckHandling = AckHandling(
    accepted: bool, dispatchId: Option<string>, errorCode: Option<string>, message: string, retryable: bool)

  function HandlingOf(receipt: SendReceipt): AckHandling {
    if receipt.acked then AckHandling(true, Some(receipt.dispatchId), None, receipt.message, false)
    else AckHandling(false, None, Some(receipt.code), receipt.message, receipt.retryable)
  }

  function SettleOp(id: string, receipt: SendReceipt): Op {
    if receipt.acked then Op.MarkAcked(id, receipt.code, receipt.message)
    else Op.MarkNacked(id, receipt.code, receipt.message, receipt.retryable)
  }

  function Settled(record: MessageRecord, receipt: SendReceipt): MessageRecord {
    if receipt.acked then ToAcked(record, receipt.code, receipt.message)
    else ToNacked(record, receipt.code, receipt.message, receipt.retryable)
  }

  class MessageAckHandler {
    const ledger: LocalMessageLedger

    constructor (ledger: LocalMessageLedger)
      ensures this.ledger == ledger
    {
      this.ledger := ledger;
    }

    method Handle(id: string, receipt: SendReceipt) returns (r: Result<AckHandling>)
      modifies ledger
      ensures ledger.Value() == Apply(old(ledger.Value()), SettleOp(id, receipt))
      ensures ledger.order == old(ledger.order) && ledger.byTask == old(ledger.byTask)
      ensures match CheckMove(old(ledger.Value()), id, if receipt.acked then Acked else Nacked)
              case Ok(record) =>
                r == Ok(HandlingOf(receipt)) && ledger.records == old(ledger.records)[id := Settled(record, receipt)]
              case Err(error) => r == Err(error) && ledger.records == old(ledger.records)
    {
      if receipt.acked {
        var marked := ledger.MarkAcked(id, receipt.code, receipt.message);
        if marked.Err? {
          return Err(marked.error);
        }
        return Ok(AckHandling(true, Some(receipt.dispatchId), None, receipt.message, false));
      }
      var marked := ledger.MarkNacked(id, receipt.code, receipt.message, receipt.retryable);
      if marked.Err? {
        return Err(marked.error);
      }
      return Ok(AckHandling(false, None, Some(receipt.code), receipt.message, receipt.retryable));
    }
  }
}
