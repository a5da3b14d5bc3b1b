/** The delivery publisher: claim an idempotency key, send with retries, drive the ledger, dead-letter an
    exhausted delivery and cache the result (communication_gateway/delivery/publisher.py). */
module Publisher {
  import opened PyText
  import opened MessageLedger
  import opened Delivery

  // ------------------------------------------------------------------------- cached results

  function OrEmpty(field: Option<string>): string {
    if field.Some? then field.value else ""
  }

  /** `value or None`. */
  function OrNone(text: string): Option<string> {
    if text == "" then None else Some(text)
  }

  /** `_receipt_result_payload` after every value has been passed through `str`. */
  function ReceiptResultPayload(receipt: PublishReceipt, attempts: nat): map<string, string> {
    map["accepted" := if receipt.accepted then "True" else "False",
        "dispatch_id" := OrEmpty(receipt.dispatchId),
        "error_code" := OrEmpty(receipt.errorCode),
        "message" := receipt.message,
        "retryable" := if receipt.retryable then "true" else "false",
        "route_key" := receipt.routeKey,
        "ledger_id" := OrEmpty(receipt.ledgerId),
        "dead_letter_id" := OrEmpty(receipt.deadLetterId),
        "attempts" := Decimal(attempts)]
  }

  function FieldOr(result: map<string, string>, field: string, default: string): string {
    if field in result then result[field] else default
  }

  /** `_cached_result_to_receipt`. */
  function CachedResultToReceipt(result: Option<map<string, string>>, fallbackRouteKey: string): PublishReceipt {
    var mapped := if result.Some? then result.value else map[];
    PublishReceipt(
      FieldOr(mapped, "accepted", "") == "True",
      OrNone(FieldOr(mapped, "dispatch_id", "")),
      OrNone(FieldOr(mapped, "error_code", "")),
      FieldOr(mapped, "message", "communication delivery replay resolved"),
      FieldOr(mapped, "retryable", "") == "true",
      FieldOr(mapped, "route_key", fallbackRouteKey),
      OrNone(FieldOr(mapped, "ledger_id", "")),
      OrNone(FieldOr(mapped, "dead_letter_id", "")))
  }

  /** A receipt as it comes back from the cache: empty identifiers and codes are lost. */
  function Normalized(receipt: PublishReceipt): PublishReceipt {
    receipt.(dispatchId := OrNone(OrEmpty(receipt.dispatchId)), errorCode := OrNone(OrEmpty(receipt.errorCode)),
             ledgerId := OrNone(OrEmpty(receipt.ledgerId)), deadLetterId := OrNone(OrEmpty(receipt.deadLetterId)))
  }

  lemma CacheRoundTrip(receipt: PublishReceipt, attempts: nat, fallbackRouteKey: string)
    ensures CachedResultToReceipt(Some(ReceiptResultPayload(receipt, attempts)), fallbackRouteKey) == Normalized(receipt)
  {
    hide Decimal;
  }

  /** The cached receipt equals the original in every field exactly when no identifier or code is empty. */
  lemma NormalizedIsSame(receipt: PublishReceipt)
    ensures Normalized(receipt) == receipt <==>
      Some("") !in {receipt.dispatchId, receipt.errorCode, receipt.ledgerId, receipt.deadLetterId}
  {
  }

  // ------------------------------------------------------------------------- one delivery, as a function

  /** Everything a publish call reads or changes. */
  datatype World = World(ledger: Ledger, store: Store, dead: seq<DeadLetter>, sent: seq<SendRequest>)

  const EMPTY_WORLD := World(EMPTY_LEDGER, map[], [], [])

  datatype PublishOutcome = Returned(receipt: PublishReceipt) | ClientRaised | LedgerRaised(error: LedgerError)

  /** A record whose send was answered. */
  function SettledAnswer(record: MessageRecord, r: SendReceipt): MessageRecord {
    Settled(ToSent(record, r.dispatchId, r.deliveryId), r)
  }

  /** Sending and then settling a prepared record keeps the ledger well formed. */
  lemma AnswerKeepsLedger(ledger: Ledger, record: MessageRecord, r: SendReceipt)
    requires Wellformed(ledger) && record.state.Prepared?
    requires record.ledgerId in ledger.records && ledger.records[record.ledgerId] == record
    ensures Wellformed(ledger.(records := ledger.records[record.ledgerId := SettledAnswer(record, r)]))
    ensures ledger.records[record.ledgerId := ToSent(record, r.dispatchId, r.deliveryId)]
                          [record.ledgerId := SettledAnswer(record, r)]
         == ledger.records[record.ledgerId := SettledAnswer(record, r)]
  {
    hide Wellformed;
    var id := record.ledgerId;
    var sent := ledger.(records := ledger.records[id := ToSent(record, r.dispatchId, r.deliveryId)]);
    SentKeepsLedger(ledger, id, r.dispatchId, r.deliveryId);
    if r.acked {
      AckedKeepsLedger(sent, id, r.code, r.message);
    } else {
      NackedKeepsLedger(sent, id, r.code, r.message, r.retryable);
    }
    assert sent.records[id := SettledAnswer(record, r)] == ledger.records[id := SettledAnswer(record, r)];
  }

  /** The ledger record an attempt leaves behind. */
  function SettledRecord(request: PublishRequest, id: string, attempt: nat, outcome: AcpOutcome): MessageRecord {
    var record := NewRecord(id, request.dispatch, attempt);
    match outcome
    case Crashed => record
    case ClientError(code, message, retryable) => ToNacked(record, code, message, retryable)
    case Answered(r) => SettledAnswer(record, r)
  }

  lemma SentFields(record: MessageRecord, dispatchId: string, deliveryId: string)
    ensures ToSent(record, dispatchId, deliveryId).state.Sent?
    ensures ToSent(record, dispatchId, deliveryId).dispatch == record.dispatch
    ensures ToSent(record, dispatchId, deliveryId).ledgerId == record.ledgerId
  {
  }

  function AnswerReceipt(routeKey: string, id: string, r: SendReceipt): PublishReceipt {
    var h := HandlingOf(r);
    PublishReceipt(h.accepted, h.dispatchId, h.errorCode, h.message, h.retryable, routeKey, Some(id), None)
  }

  /** How one attempt ends, before any retry decision. */
  function AttemptOutcome(request: PublishRequest, id: string, outcome: AcpOutcome): PublishOutcome {
    match outcome
    case Crashed => ClientRaised
    case ClientError(code, message, retryable) =>
      Returned(PublishReceipt(false, None, Some(code), message, retryable, request.dispatch.routeKey, Some(id), None))
    case Answered(r) => Returned(AnswerReceipt(request.dispatch.routeKey, id, r))
  }

  /** One attempt: count it, open a record, send, settle the record. */
  function AfterAttempt(w: World, key: string, request: PublishRequest, attempt: nat, outcome: AcpOutcome): World {
    var id := FreshId(|w.ledger.order|);
    var begun := Begin(w.ledger, request.dispatch, attempt);
    World(begun.(records := begun.records[id := SettledRecord(request, id, attempt, outcome)]),
          AfterIncrement(w.store, key),
          w.dead,
          w.sent + [SendRequest(request.dispatch, request.args)])
  }

  function LastErrorText(code: Option<string>): string {
    if OrEmpty(code) == "" then "unknown" else code.value
  }

  /** The receipt of an exhausted delivery, before its dead letter is known. */
  function ExhaustedReceipt(receipt: PublishReceipt, decision: RetryDecision): PublishReceipt {
    PublishReceipt(false, None, Some("communication_retry_exhausted"),
                   decision.message + "; last_error=" + LastErrorText(receipt.errorCode),
                   false, receipt.routeKey, receipt.ledgerId, None)
  }

  function WithDeadLetter(receipt: PublishReceipt, deadLetterId: string): PublishReceipt {
    receipt.(message := receipt.message + "; dead_letter_id=" + deadLetterId, deadLetterId := Some(deadLetterId))
  }

  function Decision(policy: RetryPolicy, attempt: nat, receipt: PublishReceipt): RetryDecision {
    var code := OrEmpty(receipt.errorCode);
    policy.ScheduleNext(attempt, if code == "" then "communication_delivery_failed" else code, receipt.retryable)
  }

  /** The end of a delivery whose last attempt has been made and is not retried. */
  function Finish(
      w: World, key: string, request: PublishRequest, policy: RetryPolicy, attempt: nat, receipt: PublishReceipt)
    : (World, PublishOutcome)
  {
    var decision := Decision(policy, attempt, receipt);
    if !receipt.accepted && decision.reason.Exhausted? then
      var exhausted := ExhaustedReceipt(receipt, decision);
      var letter := NewDeadLetter(|w.dead|, request, "communication_retry_exhausted", exhausted.message, attempt,
                                  exhausted.ledgerId);
      var final := WithDeadLetter(exhausted, letter.deadLetterId);
      (World(w.ledger, AfterComplete(w.store, key, ReceiptResultPayload(final, attempt)), w.dead + [letter], w.sent),
       Returned(final))
    else
      (w.(store := AfterComplete(w.store, key, ReceiptResultPayload(receipt, attempt))), Returned(receipt))
  }

  /** The retry loop from a given attempt on. */
  function Deliver(
      w: World, key: string, request: PublishRequest, policy: RetryPolicy, script: Script, attempt: nat)
    : (World, PublishOutcome)
    decreases if policy.maxAttempts > attempt then policy.maxAttempts - attempt else 0
  {
    var w' := AfterAttempt(w, key, request, attempt, script(|w.sent|));
    match AttemptOutcome(request, FreshId(|w.ledger.order|), script(|w.sent|))
    case ClientRaised => (w', ClientRaised)
    case LedgerRaised(error) => (w', LedgerRaised(error))
    case Returned(receipt) =>
      if !receipt.accepted && Decision(policy, attempt, receipt).retry then
        Deliver(w', key, request, policy, script, attempt + 1)
      else Finish(w', key, request, policy, attempt, receipt)
  }

  lemma DeliverStep(w: World, key: string, request: PublishRequest, policy: RetryPolicy, script: Script, attempt: nat)
    ensures var w' := AfterAttempt(w, key, request, attempt, script(|w.sent|));
      Deliver(w, key, request, policy, script, attempt) ==
        match AttemptOutcome(request, FreshId(|w.ledger.order|), script(|w.sent|))
        case ClientRaised => (w', ClientRaised)
        case LedgerRaised(error) => (w', LedgerRaised(error))
        case Returned(receipt) =>
          if !receipt.accepted && Decision(policy, attempt, receipt).retry then
            Deliver(w', key, request, policy, script, attempt + 1)
          else Finish(w', key, request, policy, attempt, receipt)
  {
  }

  function ConflictReceipt(request: PublishRequest): PublishReceipt {
    PublishReceipt(false, None, Some("communication_idempotency_conflict"),
                   "communication idempotency key reused with different payload", false,
                   request.dispatch.routeKey, None, None)
  }

  function InProgressReceipt(request: PublishRequest): PublishReceipt {
    PublishReceipt(false, None, Some("communication_idempotency_in_progress"),
                   "communication delivery already in progress", true,
                   request.dispatch.routeKey, None, None)
  }

  /** `publish`. */
  function Publish(w: World, request: PublishRequest, policy: RetryPolicy, script: Script): (World, PublishOutcome) {
    var key := DeliveryKey(request);
    match ClaimResult(w.store, key, request)
    case Conflict => (w, Returned(ConflictReceipt(request)))
    case Replay => (w, Returned(CachedResultToReceipt(w.store[key].result, request.dispatch.routeKey)))
    case InProgressClaim => (w, Returned(InProgressReceipt(request)))
    case New => Deliver(w.(store := AfterClaim(w.store, key, request)), key, request, policy, script, 1)
  }

  // ------------------------------------------------------------------------- the publisher

  class LocalDeliveryPublisher {
    const ledger: LocalMessageLedger
    const client: AcpClient
    const ackHandler: MessageAckHandler
    const policy: RetryPolicy
    const store: LocalCommunicationIdempotencyStore
    const deadLetterWriter: LocalDeadLetterWriter

    ghost predicate Valid()
      reads this, ledger
    {
      ackHandler.ledger == ledger && Wellformed(ledger.Value())
    }

    function Value(): World
      reads ledger, client, store, deadLetterWriter
    {
      World(ledger.Value(), store.records, deadLetterWriter.deadLetters, client.sent)
    }

    constructor (client: AcpClient, policy: RetryPolicy)
      ensures Valid() && this.client == client && this.policy == policy
      ensures fresh(ledger) && fresh(store) && fresh(deadLetterWriter)
      ensures Value() == EMPTY_WORLD.(sent := client.sent)
    {
      var ledger := new LocalMessageLedger();
      this.ledger := ledger;
      this.client := client;
      this.ackHandler := new MessageAckHandler(ledger);
      this.policy := policy;
      this.store := new LocalCommunicationIdempotencyStore();
      this.deadLetterWriter := new LocalDeadLetterWriter();
      new;
      EmptyLedgerWellformed();
    }

    /** The `except AcpClientError` branch. */
    method RecordClientError(record: MessageRecord, code: string, message: string, retryable: bool)
      returns (outcome: PublishOutcome)
      requires Valid() && record.state.Prepared?
      requires record.ledgerId in ledger.records && ledger.records[record.ledgerId] == record
      modifies ledger
      ensures Valid()
      ensures ledger.Value() == old(ledger.Value()).(
        records := old(ledger.records)[record.ledgerId := ToNacked(record, code, message, retryable)])
      ensures outcome == Returned(PublishReceipt(
        false, None, Some(code), message, retryable, record.dispatch.routeKey, Some(record.ledgerId), None))
    {
      NackedKeepsLedger(ledger.Value(), record.ledgerId, code, message, retryable);
      hide Wellformed, Apply;
      var marked := ledger.MarkNacked(record.ledgerId, code, message, retryable);
      match marked {
        case Err(error) =>
          return LedgerRaised(error);
        case Ok(failed) =>
          return Returned(PublishReceipt(false, None, failed.errorCode, OrEmpty(failed.errorMessage),
                                         failed.retryable == Some(true), failed.dispatch.routeKey,
                                         Some(failed.ledgerId), None));
      }
    }

    /** The `else` branch: mark the record sent, then let the ack handler settle it. */
    method RecordAnswer(record: MessageRecord, receipt: SendReceipt) returns (outcome: PublishOutcome)
      requires Valid() && record.state.Prepared?
      requires record.ledgerId in ledger.records && ledger.records[record.ledgerId] == record
      modifies ledger
      ensures Valid()
      ensures ledger.Value() == old(ledger.Value()).(
        records := old(ledger.records)[record.ledgerId := SettledAnswer(record, receipt)])
      ensures outcome == Returned(AnswerReceipt(record.dispatch.routeKey, record.ledgerId, receipt))
    {
      AnswerKeepsLedger(ledger.Value(), record, receipt);
      SentFields(record, receipt.dispatchId, receipt.deliveryId);
      hide Wellformed, Apply, ToSent, Settled;
      var marked := ledger.MarkSent(record.ledgerId, receipt.dispatchId, receipt.deliveryId);
      match marked {
        case Err(error) =>
          return LedgerRaised(error);
        case Ok(sent) =>
          var handled := ackHandler.Handle(record.ledgerId, receipt);
          match handled {
            case Err(error) =>
              return LedgerRaised(error);
            case Ok(h) =>
              return Returned(PublishReceipt(h.accepted, h.dispatchId, h.errorCode, h.message, h.retryable,
                                             sent.dispatch.routeKey, Some(sent.ledgerId), None));
          }
      }
    }

    /** `begin_dispatch` as the publisher calls it. */
    method OpenRecord(request: PublishRequest, attempt: nat) returns (record: MessageRecord)
      requires Valid()
      modifies ledger
      ensures Valid()
      ensures record == NewRecord(FreshId(|old(ledger.order)|), request.dispatch, attempt)
      ensures record.state.Prepared? && record.dispatch == request.dispatch
      ensures record.ledgerId == FreshId(|old(ledger.order)|)
      ensures ledger.Value() == Begin(old(ledger.Value()), request.dispatch, attempt)
      ensures record.ledgerId in ledger.records && ledger.records[record.ledgerId] == record
      ensures ledger.records[record.ledgerId := record] == ledger.records
    {
      BeginKeepsWellformed(ledger.Value(), request.dispatch, attempt);
      hide Wellformed;
      record := ledger.BeginDispatch(request.dispatch, attempt);
    }

    /** One pass of the loop body up to the receipt. */
    method Attempt(key: string, request: PublishRequest, attempt: nat) returns (outcome: PublishOutcome)
      requires Valid()
      modifies ledger, client, store
      ensures Valid()
      ensures Value() == AfterAttempt(old(Value()), key, request, attempt, client.script(|old(client.sent)|))
      ensures outcome == AttemptOutcome(request, FreshId(|old(ledger.order)|), client.script(|old(client.sent)|))
      ensures !outcome.LedgerRaised?
    {
      hide Valid, Wellformed, FreshId, Begin, NewRecord, SettledAnswer, ToNacked, AnswerReceipt, AfterIncrement;
      store.IncrementAttempt(key);
      var record := OpenRecord(request, attempt);
      var acp := client.Send(SendRequest(request.dispatch, request.args));
      match acp {
        case Crashed =>
          outcome := ClientRaised;
        case ClientError(code, message, retryable) =>
          outcome := RecordClientError(record, code, message, retryable);
        case Answered(receipt) =>
          outcome := RecordAnswer(record, receipt);
      }
    }

    /** The tail of the loop body once no further attempt is made. */
    method Conclude(key: string, request: PublishRequest, attempt: nat, receipt: PublishReceipt, decision: RetryDecision)
      returns (final: PublishReceipt)
      requires decision == Decision(policy, attempt, receipt) && !receipt.accepted
      modifies store, deadLetterWriter
      ensures (Value(), Returned(final)) == Finish(old(Value()), key, request, policy, attempt, receipt)
    {
      hide FreshId, ReceiptResultPayload, Decision;
      final := receipt;
      if decision.reason.Exhausted? {
        final := ExhaustedReceipt(final, decision);
        var letter := deadLetterWriter.WriteDeadLetter(
          request, "communication_retry_exhausted", final.message, attempt, final.ledgerId);
        final := WithDeadLetter(final, letter.deadLetterId);
      }
      store.Complete(key, ReceiptResultPayload(final, attempt));
    }

    /** `publish`: never raises a ledger error, and does exactly what `Publish` says. */
    method PublishMessage(request: PublishRequest) returns (outcome: PublishOutcome)
      requires Valid()
      modifies ledger, client, store, deadLetterWriter
      ensures Valid()
      ensures (Value(), outcome) == Publish(old(Value()), request, policy, client.script)
      ensures !outcome.LedgerRaised?
    {
      hide Wellformed, FreshId, DeliveryKey, AfterAttempt, AttemptOutcome, ReceiptResultPayload, Decimal, Deliver,
           ConflictReceipt, InProgressReceipt, CachedResultToReceipt;
      var key := DeliveryKey(request);
      var status, claim := store.Claim(key, request);
      if status.Conflict? {
        return Returned(ConflictReceipt(request));
      }
      if status.Replay? {
        return Returned(CachedResultToReceipt(claim.result, request.dispatch.routeKey));
      }
      if status.InProgressClaim? {
        return Returned(InProgressReceipt(request));
      }
      ghost var claimed := Value();
      var attempt := 1;
      while true
        invariant Valid() && attempt >= 1
        invariant Deliver(Value(), key, request, policy, client.script, attempt)
               == Deliver(claimed, key, request, policy, client.script, 1)
        decreases policy.maxAttempts - attempt
      {
        DeliverStep(Value(), key, request, policy, client.script, attempt);
        var attempted := Attempt(key, request, attempt);
        if !attempted.Returned? {
          return attempted;
        }
        var receipt := attempted.receipt;
        if receipt.accepted {
          store.Complete(key, ReceiptResultPayload(receipt, attempt));
          return attempted;
        }
        var code := OrEmpty(receipt.errorCode);
        var decision := policy.ScheduleNext(
          attempt, if code == "" then "communication_delivery_failed" else code, receipt.retryable);
        if decision.retry {
          attempt := decision.nextAttempt;
          continue;
        }
        var final := Conclude(key, request, attempt, receipt, decision);
        return Returned(final);
      }
    }
  }
}
