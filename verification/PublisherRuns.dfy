/** What a publish call and a whole run of publish calls guarantee. */
module PublisherRuns {
  import opened PyText
  import opened MessageLedger
  import opened Delivery
  import opened Publisher

  // ------------------------------------------------------------------------- one delivery as a fold

  /** The client's answer allows another attempt. */
  predicate Retryable(outcome: AcpOutcome) {
    || (outcome.ClientError? && outcome.retryable)
    || (outcome.Answered? && !outcome.receipt.acked && outcome.receipt.retryable)
  }

  /** The number of the last attempt, read off the stream of client outcomes from `pos` on. */
  function LastAttempt(script: Script, pos: nat, maxAttempts: int, attempt: nat): (n: nat)
    ensures n >= attempt
    ensures n <= attempt || n <= maxAttempts
    ensures forall i :: pos <= i < pos + n - attempt ==> Retryable(script(i))
    ensures Retryable(script(pos + n - attempt)) ==> n >= maxAttempts
    decreases if maxAttempts > attempt then maxAttempts - attempt else 0
  {
    if Retryable(script(pos)) && attempt < maxAttempts then LastAttempt(script, pos + 1, maxAttempts, attempt + 1)
    else attempt
  }

  /** The world after `count` attempts, numbered from `attempt` on. */
  function AfterAttempts(
      w: World, key: string, request: PublishRequest, script: Script, attempt: nat, count: nat): World
    decreases count
  {
    if count == 0 then w
    else AfterAttempts(AfterAttempt(w, key, request, attempt, script(|w.sent|)), key, request, script, attempt + 1, count - 1)
  }

  /** How a delivery ends once its last attempt, number `n`, has been made. */
  function Settle(
      w: World, key: string, request: PublishRequest, policy: RetryPolicy, n: nat, id: string, last: AcpOutcome)
    : (World, PublishOutcome)
  {
    match AttemptOutcome(request, id, last)
    case Returned(receipt) => Finish(w, key, request, policy, n, receipt)
    case raised => (w, raised)
  }

  lemma SettleIs(
      w: World, key: string, request: PublishRequest, policy: RetryPolicy, n: nat, id: string, last: AcpOutcome)
    ensures Settle(w, key, request, policy, n, id, last) ==
      match AttemptOutcome(request, id, last)
      case Returned(receipt) => Finish(w, key, request, policy, n, receipt)
      case raised => (w, raised)
  {
  }

  lemma RetryDecided(request: PublishRequest, policy: RetryPolicy, id: string, attempt: nat, outcome: AcpOutcome)
    ensures match AttemptOutcome(request, id, outcome)
      case Returned(receipt) =>
        (!receipt.accepted && Decision(policy, attempt, receipt).retry <==> Retryable(outcome) && attempt < policy.maxAttempts)
      case ClientRaised => outcome.Crashed? && !Retryable(outcome)
      case LedgerRaised(_) => false
  {
  }

  lemma AttemptShape(w: World, key: string, request: PublishRequest, attempt: nat, outcome: AcpOutcome)
    ensures var w' := AfterAttempt(w, key, request, attempt, outcome);
      && w'.ledger.order == w.ledger.order + [FreshId(|w.ledger.order|)]
      && w'.sent == w.sent + [SendRequest(request.dispatch, request.args)]
      && w'.dead == w.dead
  {
  }

  /** The retry loop is a fold over the client's outcome stream: make attempts up to the last one the
      stream calls for, then settle. */
  lemma {:induction false} DeliverIsFold(
      w: World, key: string, request: PublishRequest, policy: RetryPolicy, script: Script, attempt: nat)
    ensures var k := LastAttempt(script, |w.sent|, policy.maxAttempts, attempt) - attempt;
      Deliver(w, key, request, policy, script, attempt) ==
        Settle(AfterAttempts(w, key, request, script, attempt, k + 1), key, request, policy, attempt + k,
               FreshId(|w.ledger.order| + k), script(|w.sent| + k))
    decreases if policy.maxAttempts > attempt then policy.maxAttempts - attempt else 0
  {
    hide *;
    var outcome := script(|w.sent|);
    var id := FreshId(|w.ledger.order|);
    var w' := AfterAttempt(w, key, request, attempt, outcome);
    DeliverStep(w, key, request, policy, script, attempt);
    RetryDecided(request, policy, id, attempt, outcome);
    AttemptShape(w, key, request, attempt, outcome);
    LastAttemptStep(script, |w.sent|, policy.maxAttempts, attempt);
    AfterAttemptsStep(w', key, request, script, attempt + 1, 0);
    var k := LastAttempt(script, |w.sent|, policy.maxAttempts, attempt) - attempt;
    AfterAttemptsStep(w, key, request, script, attempt, k + 1);
    if Retryable(outcome) && attempt < policy.maxAttempts {
      DeliverIsFold(w', key, request, policy, script, attempt + 1);
      assert |w'.ledger.order| + (k - 1) == |w.ledger.order| + k && |w'.sent| + (k - 1) == |w.sent| + k;
    } else {
      SettleIs(w', key, request, policy, attempt, id, outcome);
    }
  }

  lemma LastAttemptStep(script: Script, pos: nat, maxAttempts: int, attempt: nat)
    ensures LastAttempt(script, pos, maxAttempts, attempt) ==
      if Retryable(script(pos)) && attempt < maxAttempts then LastAttempt(script, pos + 1, maxAttempts, attempt + 1)
      else attempt
  {
  }

  lemma AfterAttemptsStep(w: World, key: string, request: PublishRequest, script: Script, attempt: nat, count: nat)
    ensures AfterAttempts(w, key, request, script, attempt, count) ==
      if count == 0 then w
      else AfterAttempts(AfterAttempt(w, key, request, attempt, script(|w.sent|)), key, request, script, attempt + 1, count - 1)
  {
  }

  /** The ledger record of the i-th attempt made from world `w` on. */
  ghost predicate RecordMade(w: World, w': World, request: PublishRequest, script: Script, attempt: nat, i: nat) {
    var id := FreshId(|w.ledger.order| + i);
    id in w'.ledger.records && w'.ledger.records[id] == SettledRecord(request, id, attempt + i, script(|w.sent| + i))
  }

  ghost predicate RecordsKept(w: World, w': World) {
    forall id :: id in w.ledger.records ==> id in w'.ledger.records && w'.ledger.records[id] == w.ledger.records[id]
  }

  /** One attempt: its record is settled by the client's outcome, earlier records are untouched. */
  lemma AttemptKeepsLedger(
      w: World, key: string, request: PublishRequest, script: Script, attempt: nat)
    requires Wellformed(w.ledger)
    ensures var w' := AfterAttempt(w, key, request, attempt, script(|w.sent|));
      Wellformed(w'.ledger) && RecordsKept(w, w') && RecordMade(w, w', request, script, attempt, 0)
  {
    NextIdIsUnused(w.ledger);
    BeginKeepsWellformed(w.ledger, request.dispatch, attempt);
    hide Wellformed, FreshId, SettledRecord, NewRecord;
    SettleKeepsWellformed(Begin(w.ledger, request.dispatch, attempt), FreshId(|w.ledger.order|), request, attempt,
                          script(|w.sent|));
  }

  lemma SettleKeepsWellformed(ledger: Ledger, id: string, request: PublishRequest, attempt: nat, outcome: AcpOutcome)
    requires Wellformed(ledger) && id in ledger.records
    requires ledger.records[id] == NewRecord(id, request.dispatch, attempt)
    ensures Wellformed(ledger.(records := ledger.records[id := SettledRecord(request, id, attempt, outcome)]))
  {
    hide Wellformed;
    match outcome
    case Crashed =>
      assert ledger.records[id := ledger.records[id]] == ledger.records;
    case ClientError(code, message, retryable) =>
      NackedKeepsLedger(ledger, id, code, message, retryable);
    case Answered(receipt) =>
      AnswerKeepsLedger(ledger, ledger.records[id], receipt);
  }

  /** What `count` attempts do to the send log, the ledger order and the dead letters. */
  lemma {:induction false} AttemptsShape(
      w: World, key: string, request: PublishRequest, script: Script, attempt: nat, count: nat)
    ensures var w' := AfterAttempts(w, key, request, script, attempt, count);
      && w'.dead == w.dead
      && w.sent <= w'.sent && |w'.sent| == |w.sent| + count
      && (forall i :: |w.sent| <= i < |w'.sent| ==> w'.sent[i] == SendRequest(request.dispatch, request.args))
      && w.ledger.order <= w'.ledger.order && |w'.ledger.order| == |w.ledger.order| + count
    decreases count
  {
    hide AfterAttempt, FreshId;
    if count > 0 {
      AttemptShape(w, key, request, attempt, script(|w.sent|));
      AttemptsShape(AfterAttempt(w, key, request, attempt, script(|w.sent|)), key, request, script, attempt + 1, count - 1);
    }
  }

  lemma RecordMadeShift(
      w: World, w1: World, w': World, request: PublishRequest, script: Script, attempt: nat, i: nat)
    requires |w1.ledger.order| == |w.ledger.order| + 1 && |w1.sent| == |w.sent| + 1
    requires RecordMade(w1, w', request, script, attempt + 1, i)
    ensures RecordMade(w, w', request, script, attempt, i + 1)
  {
    hide SettledRecord, FreshId;
    assert |w1.ledger.order| + i == |w.ledger.order| + (i + 1) && |w1.sent| + i == |w.sent| + (i + 1);
  }

  lemma RecordMadeKept(w: World, w1: World, w': World, request: PublishRequest, script: Script, attempt: nat)
    requires RecordMade(w, w1, request, script, attempt, 0) && RecordsKept(w1, w')
    ensures RecordMade(w, w', request, script, attempt, 0)
  {
    hide SettledRecord, FreshId;
  }

  /** Every attempt leaves its own record, numbered consecutively and settled by its own client outcome;
      earlier records are untouched. */
  lemma {:induction false} AttemptsRecords(
      w: World, key: string, request: PublishRequest, script: Script, attempt: nat, count: nat)
    requires Wellformed(w.ledger)
    ensures var w' := AfterAttempts(w, key, request, script, attempt, count);
      && Wellformed(w'.ledger) && RecordsKept(w, w')
      && (forall i :: 0 <= i < count ==> RecordMade(w, w', request, script, attempt, i))
    decreases count
  {
    hide Wellformed, RecordMade, AfterAttempt, AfterAttempts;
    AfterAttemptsStep(w, key, request, script, attempt, count);
    if count > 0 {
      AttemptKeepsLedger(w, key, request, script, attempt);
      AttemptShape(w, key, request, attempt, script(|w.sent|));
      var w1 := AfterAttempt(w, key, request, attempt, script(|w.sent|));
      AttemptsRecords(w1, key, request, script, attempt + 1, count - 1);
      var w' := AfterAttempts(w1, key, request, script, attempt + 1, count - 1);
      RecordMadeKept(w, w1, w', request, script, attempt);
      forall i | 0 < i < count ensures RecordMade(w, w', request, script, attempt, i) {
        RecordMadeShift(w, w1, w', request, script, attempt, i - 1);
      }
    }
  }

  lemma {:induction false} AttemptsCounted(
      w: World, key: string, request: PublishRequest, script: Script, attempt: nat, count: nat)
    requires key in w.store
    ensures AfterAttempts(w, key, request, script, attempt, count).store
         == w.store[key := w.store[key].(attemptCount := w.store[key].attemptCount + count)]
    decreases count
  {
    hide Begin, SettledRecord, FreshId;
    if count > 0 {
      AttemptsCounted(AfterAttempt(w, key, request, attempt, script(|w.sent|)), key, request, script, attempt + 1, count - 1);
    }
  }

  // ------------------------------------------------------------------------- one winning publish call

  /** What a delivery of `n` attempts does to the client and the ledger. */
  ghost predicate DeliveredBy(w: World, w': World, request: PublishRequest, script: Script, n: nat) {
    && w.sent <= w'.sent && |w'.sent| == |w.sent| + n
    && (forall i :: |w.sent| <= i < |w'.sent| ==> w'.sent[i] == SendRequest(request.dispatch, request.args))
    && w.ledger.order <= w'.ledger.order && |w'.ledger.order| == |w.ledger.order| + n
    && Wellformed(w'.ledger) && RecordsKept(w, w')
    && (forall i :: 0 <= i < n ==> RecordMade(w, w', request, script, 1, i))
  }

  /** Settling changes neither the ledger nor the client's log. */
  lemma SettleFrame(
      w: World, key: string, request: PublishRequest, policy: RetryPolicy, n: nat, id: string, last: AcpOutcome)
    ensures Settle(w, key, request, policy, n, id, last).0.ledger == w.ledger
    ensures Settle(w, key, request, policy, n, id, last).0.sent == w.sent
  {
    hide ReceiptResultPayload, Decision, Decimal;
  }

  /** A publish call that wins the claim makes `n` sends and `n` ledger records, where `n` is read off the
      client's outcome stream: all sends before the last were answered retryably, and `n` is at most the
      configured maximum, or one. */
  lemma WinningPublishIsFold(w: World, request: PublishRequest, policy: RetryPolicy, script: Script)
    requires Wellformed(w.ledger) && DeliveryKey(request) !in w.store
    ensures var n := LastAttempt(script, |w.sent|, policy.maxAttempts, 1);
      && 1 <= n && (n == 1 || n <= policy.maxAttempts)
      && (forall i :: |w.sent| <= i < |w.sent| + n - 1 ==> Retryable(script(i)))
      && (Retryable(script(|w.sent| + n - 1)) ==> n >= policy.maxAttempts)
      && DeliveredBy(w, Publish(w, request, policy, script).0, request, script, n)
  {
    hide *;
    var key := DeliveryKey(request);
    var w0 := w.(store := AfterClaim(w.store, key, request));
    PublishNew(w, request, policy, script);
    var n := LastAttempt(script, |w.sent|, policy.maxAttempts, 1);
    AttemptsShape(w0, key, request, script, 1, n);
    AttemptsRecords(w0, key, request, script, 1, n);
    SettleFrame(AfterAttempts(w0, key, request, script, 1, n), key, request, policy, n,
                FreshId(|w.ledger.order| + (n - 1)), script(|w.sent| + (n - 1)));
    DeliveredFrame(w, w0, AfterAttempts(w0, key, request, script, 1, n), Publish(w, request, policy, script).0, request, script, n);
  }

  lemma DeliveredFrame(w: World, w0: World, w1: World, w': World, request: PublishRequest, script: Script, n: nat)
    requires w0.ledger == w.ledger && w0.sent == w.sent && w1.ledger == w'.ledger && w1.sent == w'.sent
    requires w0.sent <= w1.sent && |w1.sent| == |w0.sent| + n
    requires forall i :: |w0.sent| <= i < |w1.sent| ==> w1.sent[i] == SendRequest(request.dispatch, request.args)
    requires w0.ledger.order <= w1.ledger.order && |w1.ledger.order| == |w0.ledger.order| + n
    requires Wellformed(w1.ledger) && RecordsKept(w0, w1)
    requires forall i :: 0 <= i < n ==> RecordMade(w0, w1, request, script, 1, i)
    ensures DeliveredBy(w, w', request, script, n)
  {
    hide Wellformed, SettledRecord;
    forall i | 0 <= i < n ensures RecordMade(w, w', request, script, 1, i) {
      assert RecordMade(w0, w1, request, script, 1, i);
    }
  }

  /** The winning call, unfolded to the fold. */
  lemma PublishNew(w: World, request: PublishRequest, policy: RetryPolicy, script: Script)
    requires DeliveryKey(request) !in w.store
    ensures var key := DeliveryKey(request);
      var w0 := w.(store := AfterClaim(w.store, key, request));
      var n := LastAttempt(script, |w.sent|, policy.maxAttempts, 1);
      && w0.ledger == w.ledger && w0.sent == w.sent && w0.dead == w.dead && key in w0.store
      && w0.store == w.store[key := IdempotencyRecord(request, false, 0, None)]
      && Publish(w, request, policy, script) ==
           Settle(AfterAttempts(w0, key, request, script, 1, n), key, request, policy, n,
                  FreshId(|w.ledger.order| + (n - 1)), script(|w.sent| + (n - 1)))
  {
    hide DeliveryKey, Settle, AfterAttempts, FreshId, Deliver, LastAttempt;
    var key := DeliveryKey(request);
    var w0 := w.(store := AfterClaim(w.store, key, request));
    DeliverIsFold(w0, key, request, policy, script, 1);
  }

  /** The ledger records of a winning call: attempts 1, 2, ..., all but the last nacked retryable. */
  lemma WinningRecords(w: World, request: PublishRequest, policy: RetryPolicy, script: Script, i: nat)
    requires Wellformed(w.ledger) && DeliveryKey(request) !in w.store
    requires i < LastAttempt(script, |w.sent|, policy.maxAttempts, 1)
    ensures var n := LastAttempt(script, |w.sent|, policy.maxAttempts, 1);
      var ledger := Publish(w, request, policy, script).0.ledger;
      var id := FreshId(|w.ledger.order| + i);
      && id in ledger.records
      && ledger.records[id].dispatch == request.dispatch && ledger.records[id].attempt == i + 1
      && (i < n - 1 ==> ledger.records[id].state.Nacked? && ledger.records[id].retryable == Some(true))
      && (i == n - 1 ==>
            (Terminal(ledger.records[id].state) <==> !script(|w.sent| + i).Crashed?)
            && (ledger.records[id].state.Acked? <==> Acknowledged(script(|w.sent| + i))))
      && (script(|w.sent| + i).Answered? ==>
            && ledger.records[id].dispatchId == Some(script(|w.sent| + i).receipt.dispatchId)
            && ledger.records[id].deliveryId == Some(script(|w.sent| + i).receipt.deliveryId)
            && (!script(|w.sent| + i).receipt.acked ==> ledger.records[id].errorCode == Some(script(|w.sent| + i).receipt.code)))
      && (script(|w.sent| + i).ClientError? ==> ledger.records[id].errorCode == Some(script(|w.sent| + i).code))
  {
    hide DeliveryKey, FreshId, Publish, LastAttempt, Wellformed;
    WinningPublishIsFold(w, request, policy, script);
    var w' := Publish(w, request, policy, script).0;
    assert RecordMade(w, w', request, script, 1, i);
  }

  predicate Acknowledged(outcome: AcpOutcome) {
    outcome.Answered? && outcome.receipt.acked
  }

  lemma SettleStore(
      w: World, key: string, request: PublishRequest, policy: RetryPolicy, n: nat, id: string, last: AcpOutcome)
    requires key in w.store
    ensures var (w', outcome) := Settle(w, key, request, policy, n, id, last);
      && (last.Crashed? ==> outcome == ClientRaised && w'.store == w.store)
      && (!last.Crashed? ==>
            && outcome.Returned?
            && (outcome.receipt.accepted <==> Acknowledged(last))
            && w'.store == w.store[key := w.store[key].(
                 completed := true, result := Some(ReceiptResultPayload(outcome.receipt, n)))])
  {
    hide ReceiptResultPayload, Decimal, Decision;
  }

  function FailureCode(outcome: AcpOutcome): string {
    match outcome
    case Answered(receipt) => receipt.code
    case ClientError(code, _, _) => code
    case Crashed => ""
  }

  lemma SettleDeadLetters(
      w: World, key: string, request: PublishRequest, policy: RetryPolicy, n: nat, id: string, last: AcpOutcome)
    requires Retryable(last) ==> n >= policy.maxAttempts
    ensures var (w', outcome) := Settle(w, key, request, policy, n, id, last);
      && (!Retryable(last) ==>
            w'.dead == w.dead && (outcome.Returned? ==> outcome.receipt.deadLetterId == None))
      && (Retryable(last) ==>
            && outcome.Returned? && !outcome.receipt.accepted && !outcome.receipt.retryable
            && outcome.receipt.errorCode == Some("communication_retry_exhausted")
            && outcome.receipt.ledgerId == Some(id)
            && w'.dead == w.dead + [NewDeadLetter(|w.dead|, request, "communication_retry_exhausted",
                 w'.dead[|w.dead|].errorMessage, n, Some(id))]
            && outcome.receipt.deadLetterId == Some(w'.dead[|w.dead|].deadLetterId)
            && w'.dead[|w.dead|].errorMessage ==
                 "retry exhausted after " + Decimal(n) + " attempts" + "; last_error=" + (if FailureCode(last) == "" then "unknown" else FailureCode(last)))
  {
    hide ReceiptResultPayload, Decimal, FreshId, AfterComplete;
  }

  lemma DoubleUpdate(store: Store, key: string, a: IdempotencyRecord, b: IdempotencyRecord)
    ensures store[key := a][key := b] == store[key := b]
  {
  }

  /** The idempotency record and the receipt of a winning call: the attempt count is the number of sends, a
      crash leaves the key in progress, any other ending completes it with the returned receipt, which is
      accepted exactly when the last send was acknowledged. */
  lemma WinningClaim(w: World, request: PublishRequest, policy: RetryPolicy, script: Script)
    requires DeliveryKey(request) !in w.store
    ensures var n := LastAttempt(script, |w.sent|, policy.maxAttempts, 1);
      var last := script(|w.sent| + (n - 1));
      var key := DeliveryKey(request);
      var (w', outcome) := Publish(w, request, policy, script);
      && (last.Crashed? ==>
            outcome == ClientRaised && w'.store == w.store[key := IdempotencyRecord(request, false, n, None)])
      && (!last.Crashed? ==>
            && outcome.Returned?
            && (outcome.receipt.accepted <==> Acknowledged(last))
            && w'.store == w.store[key :=
                 IdempotencyRecord(request, true, n, Some(ReceiptResultPayload(outcome.receipt, n)))])
  {
    hide *;
    PublishNew(w, request, policy, script);
    var key := DeliveryKey(request);
    var w0 := w.(store := AfterClaim(w.store, key, request));
    var n := LastAttempt(script, |w.sent|, policy.maxAttempts, 1);
    AttemptsCounted(w0, key, request, script, 1, n);
    var w1 := AfterAttempts(w0, key, request, script, 1, n);
    SettleStore(w1, key, request, policy, n, FreshId(|w.ledger.order| + (n - 1)), script(|w.sent| + (n - 1)));
    DoubleUpdate(w.store, key, IdempotencyRecord(request, false, 0, None), w1.store[key]);
  }

  /** Dead letters of a winning call: one exactly when the last send failed retryably (so the attempts are
      exhausted); it names the last ledger record and the attempt count, and the receipt carries its id. An
      accepted delivery has none. */
  lemma WinningDeadLetter(w: World, request: PublishRequest, policy: RetryPolicy, script: Script)
    requires DeliveryKey(request) !in w.store
    ensures var n := LastAttempt(script, |w.sent|, policy.maxAttempts, 1);
      var last := script(|w.sent| + (n - 1));
      var (w', outcome) := Publish(w, request, policy, script);
      && (!Retryable(last) ==>
            w'.dead == w.dead && (outcome.Returned? ==> outcome.receipt.deadLetterId == None))
      && (Retryable(last) ==>
            && n >= policy.maxAttempts
            && outcome.Returned? && !outcome.receipt.accepted && !outcome.receipt.retryable
            && outcome.receipt.errorCode == Some("communication_retry_exhausted")
            && outcome.receipt.ledgerId == Some(FreshId(|w.ledger.order| + (n - 1)))
            && |w'.dead| == |w.dead| + 1
            && w'.dead == w.dead + [NewDeadLetter(|w.dead|, request, "communication_retry_exhausted",
                 w'.dead[|w.dead|].errorMessage, n, Some(FreshId(|w.ledger.order| + (n - 1))))]
            && outcome.receipt.deadLetterId == Some(w'.dead[|w.dead|].deadLetterId)
            && var letter := w'.dead[|w.dead|];
            && letter.dispatch == request.dispatch && letter.principalId == request.principalId
            && letter.idempotencyKey == request.idempotencyKey && letter.attempts == n
            && letter.errorMessage ==
                 "retry exhausted after " + Decimal(n) + " attempts" + "; last_error=" + (if FailureCode(last) == "" then "unknown" else FailureCode(last)))
  {
    hide *;
    LetterNames(|w.dead|, request);
    PublishNew(w, request, policy, script);
    var key := DeliveryKey(request);
    var w0 := w.(store := AfterClaim(w.store, key, request));
    var n := LastAttempt(script, |w.sent|, policy.maxAttempts, 1);
    AttemptsShape(w0, key, request, script, 1, n);
    var w1 := AfterAttempts(w0, key, request, script, 1, n);
    SettleDeadLetters(w1, key, request, policy, n, FreshId(|w.ledger.order| + (n - 1)), script(|w.sent| + (n - 1)));
  }

  lemma LetterNames(count: nat, request: PublishRequest)
    ensures forall code, message, attempts, ledgerId ::
      var letter := NewDeadLetter(count, request, code, message, attempts, ledgerId);
      && letter.dispatch == request.dispatch && letter.principalId == request.principalId
      && letter.idempotencyKey == request.idempotencyKey && letter.attempts == attempts
  {
  }

  /** What the caller of a winning call is told when no dead letter is written: the client's own last word. */
  lemma WinningReceipt(w: World, request: PublishRequest, policy: RetryPolicy, script: Script)
    requires DeliveryKey(request) !in w.store
    ensures var n := LastAttempt(script, |w.sent|, policy.maxAttempts, 1);
      var last, id := script(|w.sent| + (n - 1)), Some(FreshId(|w.ledger.order| + (n - 1)));
      var outcome := Publish(w, request, policy, script).1;
      !Retryable(last) ==>
        match last
        case Crashed => outcome == ClientRaised
        case ClientError(code, message, _) =>
          outcome == Returned(PublishReceipt(false, None, Some(code), message, false, request.dispatch.routeKey, id, None))
        case Answered(r) =>
          outcome == Returned(
            if r.acked then PublishReceipt(true, Some(r.dispatchId), None, r.message, false, request.dispatch.routeKey, id, None)
            else PublishReceipt(false, None, Some(r.code), r.message, false, request.dispatch.routeKey, id, None))
  {
    hide *;
    PublishNew(w, request, policy, script);
    var key := DeliveryKey(request);
    var w0 := w.(store := AfterClaim(w.store, key, request));
    var n := LastAttempt(script, |w.sent|, policy.maxAttempts, 1);
    if !Retryable(script(|w.sent| + (n - 1))) {
      SettleReceipt(AfterAttempts(w0, key, request, script, 1, n), key, request, policy, n, FreshId(|w.ledger.order| + (n - 1)),
                    script(|w.sent| + (n - 1)));
    }
  }

  lemma SettleReceipt(
      w: World, key: string, request: PublishRequest, policy: RetryPolicy, n: nat, id: string, last: AcpOutcome)
    requires !Retryable(last)
    ensures var outcome := Settle(w, key, request, policy, n, id, last).1;
      match last
      case Crashed => outcome == ClientRaised
      case ClientError(code, message, _) =>
        outcome == Returned(PublishReceipt(false, None, Some(code), message, false, request.dispatch.routeKey, Some(id), None))
      case Answered(r) =>
        outcome == Returned(
          if r.acked then PublishReceipt(true, Some(r.dispatchId), None, r.message, false, request.dispatch.routeKey, Some(id), None)
          else PublishReceipt(false, None, Some(r.code), r.message, false, request.dispatch.routeKey, Some(id), None))
  {
    hide ReceiptResultPayload, Decimal, FreshId, AfterComplete;
  }

  // ------------------------------------------------------------------------- runs of publish calls

  /** The world before the i-th of a sequence of calls, starting with nothing stored. */
  function WorldAt(policy: RetryPolicy, script: Script, calls: seq<PublishRequest>, i: nat): World
    requires i <= |calls|
  {
    if i == 0 then EMPTY_WORLD else Publish(WorldAt(policy, script, calls, i - 1), calls[i - 1], policy, script).0
  }

  function OutcomeAt(policy: RetryPolicy, script: Script, calls: seq<PublishRequest>, i: nat): PublishOutcome
    requires i < |calls|
  {
    Publish(WorldAt(policy, script, calls, i), calls[i], policy, script).1
  }

  lemma {:induction false} RunKeepsLedgerWellformed(policy: RetryPolicy, script: Script, calls: seq<PublishRequest>, i: nat)
    requires i <= |calls|
    ensures Wellformed(WorldAt(policy, script, calls, i).ledger)
  {
    hide Wellformed, Publish, DeliveryKey, LastAttempt;
    EmptyLedgerWellformed();
    if i > 0 {
      RunKeepsLedgerWellformed(policy, script, calls, i - 1);
      var w := WorldAt(policy, script, calls, i - 1);
      if DeliveryKey(calls[i - 1]) in w.store {
        LaterCallIsInert(w, calls[i - 1], policy, script);
      } else {
        WinningPublishIsFold(w, calls[i - 1], policy, script);
      }
    }
  }

  /** A call whose key has been claimed before changes nothing at all. */
  lemma LaterCallIsInert(w: World, request: PublishRequest, policy: RetryPolicy, script: Script)
    requires DeliveryKey(request) in w.store
    ensures Publish(w, request, policy, script).0 == w
    ensures var record := w.store[DeliveryKey(request)];
      Publish(w, request, policy, script).1 == Returned(
        if !record.completed then InProgressReceipt(request)
        else if record.payload != request then ConflictReceipt(request)
        else CachedResultToReceipt(record.result, request.dispatch.routeKey))
  {
    hide DeliveryKey, Deliver;
  }

  /** One call touches the idempotency record of its own key only, and only to claim it. */
  lemma StoreFrame(w: World, request: PublishRequest, policy: RetryPolicy, script: Script, key: string)
    ensures key in w.store ==>
      key in Publish(w, request, policy, script).0.store && Publish(w, request, policy, script).0.store[key] == w.store[key]
    ensures key in Publish(w, request, policy, script).0.store <==> key in w.store || key == DeliveryKey(request)
  {
    hide Publish, DeliveryKey, LastAttempt;
    if DeliveryKey(request) in w.store {
      LaterCallIsInert(w, request, policy, script);
    } else {
      WinningClaim(w, request, policy, script);
    }
  }

  lemma {:induction false} ClaimedKeyStays(
      policy: RetryPolicy, script: Script, calls: seq<PublishRequest>, j: nat, i: nat, key: string)
    requires j <= i <= |calls| && key in WorldAt(policy, script, calls, j).store
    ensures key in WorldAt(policy, script, calls, i).store
    ensures WorldAt(policy, script, calls, i).store[key] == WorldAt(policy, script, calls, j).store[key]
    decreases i
  {
    hide Publish;
    if j < i {
      ClaimedKeyStays(policy, script, calls, j, i - 1, key);
      StoreFrame(WorldAt(policy, script, calls, i - 1), calls[i - 1], policy, script, key);
    }
  }

  /** A key is in the store exactly when an earlier call used it. */
  lemma {:induction false} KeysAreThoseUsed(policy: RetryPolicy, script: Script, calls: seq<PublishRequest>, i: nat, key: string)
    requires i <= |calls|
    ensures key in WorldAt(policy, script, calls, i).store <==> exists j :: 0 <= j < i && DeliveryKey(calls[j]) == key
  {
    hide Publish, DeliveryKey;
    if i > 0 {
      KeysAreThoseUsed(policy, script, calls, i - 1, key);
      StoreFrame(WorldAt(policy, script, calls, i - 1), calls[i - 1], policy, script, key);
    }
  }

  ghost predicate FirstOfItsKey(calls: seq<PublishRequest>, j: nat)
    requires j < |calls|
  {
    forall k :: 0 <= k < j ==> DeliveryKey(calls[k]) != DeliveryKey(calls[j])
  }

  /** Not accepted, with this code, and neither a ledger record nor a dead letter to point to. */
  predicate IsRefusal(outcome: PublishOutcome, code: string, retryable: bool) {
    && outcome.Returned? && !outcome.receipt.accepted && outcome.receipt.errorCode == Some(code)
    && outcome.receipt.retryable == retryable && outcome.receipt.dispatchId == None
    && outcome.receipt.ledgerId == None && outcome.receipt.deadLetterId == None
  }

  /** Effectively once: in every run, only the first call for a delivery key sends anything or changes any
      stored state. If it returned, a later call with the same payload gets the same receipt (up to empty
      identifiers) and one with another payload a conflict; if it crashed, the key stays in progress. */
  lemma EffectivelyOnce(policy: RetryPolicy, script: Script, calls: seq<PublishRequest>, j: nat, i: nat)
    requires j < i < |calls| && FirstOfItsKey(calls, j) && DeliveryKey(calls[i]) == DeliveryKey(calls[j])
    ensures WorldAt(policy, script, calls, i + 1) == WorldAt(policy, script, calls, i)
    ensures match OutcomeAt(policy, script, calls, j)
      case Returned(receipt) =>
        OutcomeAt(policy, script, calls, i) ==
          Returned(if calls[i] == calls[j] then Normalized(receipt) else ConflictReceipt(calls[i]))
      case ClientRaised => OutcomeAt(policy, script, calls, i) == Returned(InProgressReceipt(calls[i]))
      case LedgerRaised(_) => false
    ensures OutcomeAt(policy, script, calls, j).Returned? && calls[i] != calls[j] ==>
      IsRefusal(OutcomeAt(policy, script, calls, i), "communication_idempotency_conflict", false)
    ensures OutcomeAt(policy, script, calls, j).ClientRaised? ==>
      IsRefusal(OutcomeAt(policy, script, calls, i), "communication_idempotency_in_progress", true)
  {
    hide Publish, DeliveryKey, LastAttempt, Normalized, ReceiptResultPayload, CachedResultToReceipt;
    var key := DeliveryKey(calls[j]);
    var w := WorldAt(policy, script, calls, j);
    KeysAreThoseUsed(policy, script, calls, j, key);
    WinningClaim(w, calls[j], policy, script);
    ClaimedKeyStays(policy, script, calls, j + 1, i, key);
    LaterCallIsInert(WorldAt(policy, script, calls, i), calls[i], policy, script);
    var n := LastAttempt(script, |w.sent|, policy.maxAttempts, 1);
    if OutcomeAt(policy, script, calls, j).Returned? {
      CacheRoundTrip(OutcomeAt(policy, script, calls, j).receipt, n, calls[i].dispatch.routeKey);
    }
  }

  /** Dead-letter conservation: a call adds a dead letter exactly when it is the first of its key and the
      client's last answer to it was a retryable failure, and then it adds one. */
  lemma DeadLetterExactlyOnExhaustion(policy: RetryPolicy, script: Script, calls: seq<PublishRequest>, i: nat)
    requires i < |calls|
    ensures var w, w' := WorldAt(policy, script, calls, i), WorldAt(policy, script, calls, i + 1);
      var n := LastAttempt(script, |w.sent|, policy.maxAttempts, 1);
      && w.dead <= w'.dead
      && |w'.dead| == |w.dead| +
           if FirstOfItsKey(calls, i) && Retryable(script(|w.sent| + (n - 1))) then 1 else 0
  {
    hide Publish, DeliveryKey, LastAttempt, Retryable;
    var w := WorldAt(policy, script, calls, i);
    KeysAreThoseUsed(policy, script, calls, i, DeliveryKey(calls[i]));
    if DeliveryKey(calls[i]) in w.store {
      LaterCallIsInert(w, calls[i], policy, script);
    } else {
      WinningDeadLetter(w, calls[i], policy, script);
    }
  }

  /** Two dead letters of a run never belong to the same delivery key. */
  lemma AtMostOneDeadLetterPerKey(policy: RetryPolicy, script: Script, calls: seq<PublishRequest>, j: nat, i: nat)
    requires j < i < |calls|
    requires WorldAt(policy, script, calls, j + 1).dead != WorldAt(policy, script, calls, j).dead
    requires WorldAt(policy, script, calls, i + 1).dead != WorldAt(policy, script, calls, i).dead
    ensures DeliveryKey(calls[j]) != DeliveryKey(calls[i])
  {
    hide Publish, WorldAt, DeliveryKey, LastAttempt, Retryable;
    DeadLetterExactlyOnExhaustion(policy, script, calls, i);
  }

  ghost predicate AllTerminal(ledger: Ledger) {
    forall id :: id in ledger.records ==> Terminal(ledger.records[id].state)
  }

  /** A call that returns leaves no record open that it did not find open. */
  lemma ReturnClosesRecords(w: World, request: PublishRequest, policy: RetryPolicy, script: Script)
    requires Wellformed(w.ledger) && AllTerminal(w.ledger)
    requires Publish(w, request, policy, script).1.Returned?
    ensures AllTerminal(Publish(w, request, policy, script).0.ledger)
  {
    hide Publish, DeliveryKey, LastAttempt, Retryable, SettledRecord;
    if DeliveryKey(request) in w.store {
      LaterCallIsInert(w, request, policy, script);
    } else {
      WinningPublishIsFold(w, request, policy, script);
      WinningClaim(w, request, policy, script);
      var w' := Publish(w, request, policy, script).0;
      forall id | id in w'.ledger.records ensures Terminal(w'.ledger.records[id].state) {
        var k :| 0 <= k < |w'.ledger.order| && w'.ledger.order[k] == id;
        if k < |w.ledger.order| {
          assert w.ledger.order[k] == id && id in w.ledger.records;
        } else {
          WinningRecords(w, request, policy, script, k - |w.ledger.order|);
        }
      }
    }
  }

  /** In a run in which no call raised, every ledger record is terminal between calls. */
  lemma {:induction false} NoRecordLeftOpen(policy: RetryPolicy, script: Script, calls: seq<PublishRequest>, i: nat)
    requires i <= |calls| && forall k :: 0 <= k < i ==> OutcomeAt(policy, script, calls, k).Returned?
    ensures AllTerminal(WorldAt(policy, script, calls, i).ledger)
  {
    hide Publish, Wellformed;
    if i > 0 {
      NoRecordLeftOpen(policy, script, calls, i - 1);
      RunKeepsLedgerWellformed(policy, script, calls, i - 1);
      assert OutcomeAt(policy, script, calls, i - 1).Returned?;
      ReturnClosesRecords(WorldAt(policy, script, calls, i - 1), calls[i - 1], policy, script);
    }
  }
}
