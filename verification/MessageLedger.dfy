/** The message ledger: one record per delivery attempt, driven through a small state machine
    (communication_gateway/storage/message_ledger.py). */
module MessageLedger {
  import opened PyText

  datatype LedgerState = Prepared | Sent | Acked | Nacked

  datatype Transition = Transition(state: LedgerState, reasonCode: string, message: string, retryable: Option<bool>)

  /** What a dispatch names, shared by every attempt. */
  datatype Dispatch = Dispatch(
    taskId: string, traceId: string, messageId: string, externalMessageId: string, connector: string,
    command: string, target: string, routeKey: string, endpoint: string)

  /** `CommunicationMessageRecord` without its timestamps. */
  datatype MessageRecord = MessageRecord(
    ledgerId: string, dispatch: Dispatch, attempt: int, state: LedgerState,
    dispatchId: Option<string>, deliveryId: Option<string>,
    errorCode: Option<string>, errorMessage: Option<string>, retryable: Option<bool>,
    transitions: seq<Transition>)

  datatype LedgerError = MissingRecord | InvalidTransition(current: LedgerState, next: LedgerState)

  datatype Result<+T> = Ok(value: T) | Err(error: LedgerError)

  /** The n-th identifier drawn from `uuid4`: never empty and never drawn twice. */
  function FreshId(n: nat): (id: string)
    ensures |id| == n + 1
  {
    seq(n + 1, _ => 'x')
  }

  /** The two dictionaries of the ledger; `order` is the insertion order of `_records`. */
  datatype Ledger = Ledger(records: map<string, MessageRecord>, order: seq<string>, byTask: map<string, seq<string>>)

  const EMPTY_LEDGER := Ledger(map[], [], map[])

  predicate Allowed(current: LedgerState, next: LedgerState) {
    match current
    case Prepared => next.Sent? || next.Nacked?
    case Sent => next.Acked? || next.Nacked?
    case Acked => false
    case Nacked => false
  }

  predicate Terminal(state: LedgerState) {
    state.Acked? || state.Nacked?
  }

  function NewRecord(id: string, dispatch: Dispatch, attempt: int): MessageRecord {
    MessageRecord(id, dispatch, attempt, Prepared, None, None, None, None, None,
                  [Transition(Prepared, "dispatch_started", "dispatch pipeline started", None)])
  }

  function ToSent(r: MessageRecord, dispatchId: string, deliveryId: string): MessageRecord {
    r.(state := Sent, dispatchId := Some(dispatchId), deliveryId := Some(deliveryId),
       transitions := r.transitions + [Transition(Sent, "acp_accepted", "ACP send accepted", None)])
  }

  function ToAcked(r: MessageRecord, reasonCode: string, message: string): MessageRecord {
    r.(state := Acked, retryable := Some(false),
       transitions := r.transitions + [Transition(Acked, reasonCode, message, Some(false))])
  }

  function ToNacked(r: MessageRecord, errorCode: string, message: string, retryable: bool): MessageRecord {
    r.(state := Nacked, errorCode := Some(errorCode), errorMessage := Some(message), retryable := Some(retryable),
       transitions := r.transitions + [Transition(Nacked, errorCode, message, Some(retryable))])
  }

  /** The ids listed for one task. */
  function TaskIds(ledger: Ledger, taskId: string): seq<string> {
    if taskId in ledger.byTask then ledger.byTask[taskId] else []
  }

  function Begin(ledger: Ledger, dispatch: Dispatch, attempt: int): Ledger {
    var id := FreshId(|ledger.order|);
    Ledger(ledger.records[id := NewRecord(id, dispatch, attempt)],
           ledger.order + [id],
           ledger.byTask[dispatch.taskId := TaskIds(ledger, dispatch.taskId) + [id]])
  }

  /** Whether a record may move to `next`; the error the ledger raises otherwise. */
  function CheckMove(ledger: Ledger, id: string, next: LedgerState): Result<MessageRecord> {
    if id !in ledger.records then Err(MissingRecord)
    else if Allowed(ledger.records[id].state, next) then Ok(ledger.records[id])
    else Err(InvalidTransition(ledger.records[id].state, next))
  }

  /** One ledger call. */
  datatype Op =
    | BeginDispatch(dispatch: Dispatch, attempt: int)
    | MarkSent(id: string, dispatchId: string, deliveryId: string)
    | MarkAcked(id: string, reasonCode: string, message: string)
    | MarkNacked(id: string, errorCode: string, message: string, retryable: bool)

  /** The ledger after one call; a rejected call changes nothing. */
  function Apply(ledger: Ledger, op: Op): Ledger {
    match op
    case BeginDispatch(dispatch, attempt) => Begin(ledger, dispatch, attempt)
    case MarkSent(id, dispatchId, deliveryId) =>
      (match CheckMove(ledger, id, Sent)
       case Ok(r) => ledger.(records := ledger.records[id := ToSent(r, dispatchId, deliveryId)])
       case Err(_) => ledger)
    case MarkAcked(id, reasonCode, message) =>
      (match CheckMove(ledger, id, Acked)
       case Ok(r) => ledger.(records := ledger.records[id := ToAcked(r, reasonCode, message)])
       case Err(_) => ledger)
    case MarkNacked(id, errorCode, message, retryable) =>
      (match CheckMove(ledger, id, Nacked)
       case Ok(r) => ledger.(records := ledger.records[id := ToNacked(r, errorCode, message, retryable)])
       case Err(_) => ledger)
  }

  class LocalMessageLedger {
    var records: map<string, MessageRecord>
    var order: seq<string>
    var byTask: map<string, seq<string>>

    constructor ()
      ensures Value() == EMPTY_LEDGER
    {
      records, order, byTask := map[], [], map[];
    }

    function Value(): Ledger
      reads this
    {
      Ledger(records, order, byTask)
    }

    method BeginDispatch(dispatch: Dispatch, attempt: int) returns (record: MessageRecord)
      modifies this
      ensures Value() == Apply(old(Value()), Op.BeginDispatch(dispatch, attempt))
      ensures record == NewRecord(FreshId(|old(order)|), dispatch, attempt)
      ensures records == old(records)[record.ledgerId := record]
    {
      var id := FreshId(|order|);
      record := NewRecord(id, dispatch, attempt);
      records := records[id := record];
      order := order + [id];
      if dispatch.taskId !in byTask {
        byTask := byTask[dispatch.taskId := []];
      }
      byTask := byTask[dispatch.taskId := byTask[dispatch.taskId] + [id]];
    }

    method RequireMove(id: string, next: LedgerState) returns (r: Result<MessageRecord>)
      ensures r == CheckMove(Value(), id, next)
    {
      if id !in records {
        return Err(MissingRecord);
      }
      var record := records[id];
      if !Allowed(record.state, next) {
        return Err(InvalidTransition(record.state, next));
      }
      return Ok(record);
    }

    method MarkSent(id: string, dispatchId: string, deliveryId: string) returns (r: Result<MessageRecord>)
      modifies this
      ensures Value() == Apply(old(Value()), Op.MarkSent(id, dispatchId, deliveryId))
      ensures order == old(order) && byTask == old(byTask)
      ensures match CheckMove(old(Value()), id, Sent)
              case Ok(record) =>
                r == Ok(ToSent(record, dispatchId, deliveryId)) && records == old(records)[id := ToSent(record, dispatchId, deliveryId)]
              case Err(error) => r == Err(error) && records == old(records)
    {
      r := RequireMove(id, Sent);
      if r.Ok? {
        r := Ok(ToSent(r.value, dispatchId, deliveryId));
        records := records[id := r.value];
      }
    }

    method MarkAcked(id: string, reasonCode: string, message: string) returns (r: Result<MessageRecord>)
      modifies this
      ensures Value() == Apply(old(Value()), Op.MarkAcked(id, reasonCode, message))
      ensures order == old(order) && byTask == old(byTask)
      ensures match CheckMove(old(Value()), id, Acked)
              case Ok(record) =>
                r == Ok(ToAcked(record, reasonCode, message)) && records == old(records)[id := ToAcked(record, reasonCode, message)]
              case Err(error) => r == Err(error) && records == old(records)
    {
      r := RequireMove(id, Acked);
      if r.Ok? {
        r := Ok(ToAcked(r.value, reasonCode, message));
        records := records[id := r.value];
      }
    }

    method MarkNacked(id: string, errorCode: string, message: string, retryable: bool) returns (r: Result<MessageRecord>)
      modifies this
      ensures Value() == Apply(old(Value()), Op.MarkNacked(id, errorCode, message, retryable))
      ensures order == old(order) && byTask == old(byTask)
      ensures match CheckMove(old(Value()), id, Nacked)
              case Ok(record) =>
                r == Ok(ToNacked(record, errorCode, message, retryable)) && records == old(records)[id := ToNacked(record, errorCode, message, retryable)]
              case Err(error) => r == Err(error) && records == old(records)
    {
      r := RequireMove(id, Nacked);
      if r.Ok? {
        r := Ok(ToNacked(r.value, errorCode, message, retryable));
        records := records[id := r.value];
      }
    }

    /** The task's records in the order of its index, skipping ids without a record. */
    method ListRecordsForTask(taskId: string) returns (listed: seq<MessageRecord>)
      ensures listed == Lookup(records, TaskIds(Value(), taskId))
      ensures Wellformed(Value()) ==> listed == RecordsOfTask(Value(), taskId)
    {
      var ids := if taskId in byTask then byTask[taskId] else [];
      listed := [];
      for i := 0 to |ids|
        invariant listed == Lookup(records, ids[..i])
      {
        LookupAppend(records, ids[..i], ids[i]);
        assert ids[..i + 1] == ids[..i] + [ids[i]];
        if ids[i] in records {
          listed := listed + [records[ids[i]]];
        }
      }
      assert ids[..|ids|] == ids;
      if Wellformed(Value()) {
        TaskListIsFilter(Value(), taskId);
      }
    }
  }

  function Lookup(records: map<string, MessageRecord>, ids: seq<string>): seq<MessageRecord> {
    if ids == [] then []
    else (if ids[0] in records then [records[ids[0]]] else []) + Lookup(records, ids[1..])
  }

  lemma {:induction false} LookupAppend(records: map<string, MessageRecord>, ids: seq<string>, id: string)
    ensures Lookup(records, ids + [id]) == Lookup(records, ids) + if id in records then [records[id]] else []
  {
    if ids != [] {
      assert (ids + [id])[1..] == ids[1..] + [id];
      LookupAppend(records, ids[1..], id);
    }
  }

  // ---------------------------------------------------------------------------------------------
  // Invariants of every reachable ledger.

  /** A path through the state machine that starts prepared. */
  predicate LegalHistory(history: seq<Transition>) {
    && history != [] && history[0].state.Prepared?
    && forall i :: 0 < i < |history| ==> Allowed(history[i - 1].state, history[i].state)
  }

  function States(history: seq<Transition>): seq<LedgerState> {
    seq(|history|, i requires 0 <= i < |history| => history[i].state)
  }

  const LEGAL_STATES := {
    [Prepared], [Prepared, Sent], [Prepared, Nacked], [Prepared, Sent, Acked], [Prepared, Sent, Nacked]}

  /** The legal histories are prepared -> [sent ->] acked or nacked and their beginnings; an
      acknowledgement always follows a send. */
  lemma LegalHistories(history: seq<Transition>)
    ensures LegalHistory(history) <==> States(history) in LEGAL_STATES
  {
    var states := States(history);
    assert |history| > 0 ==> states[0] == history[0].state;
    assert |history| > 1 ==> states[1] == history[1].state;
    assert |history| > 2 ==> states[2] == history[2].state;
    assert |history| > 3 && LegalHistory(history) ==>
      Allowed(states[0], states[1]) && Allowed(states[1], states[2]) && Allowed(states[2], history[3].state);
    if LegalHistory(history) {
      assert |history| == 1 ==> states == [Prepared];
      assert |history| == 2 ==> states == [Prepared, history[1].state];
      assert |history| == 3 ==> states == [Prepared, Sent, history[2].state];
    }
  }

  predicate WellformedRecord(id: string, r: MessageRecord) {
    && r.ledgerId == id
    && LegalHistory(r.transitions)
    && r.state == r.transitions[|r.transitions| - 1].state
    && r.retryable == r.transitions[|r.transitions| - 1].retryable
    && (r.retryable.Some? <==> Terminal(r.state))
  }

  /** The ids of the records of one task, in creation order. */
  function FilterTask(ledger: Ledger, order: seq<string>, taskId: string): seq<string> {
    if order == [] then []
    else
      var last := order[|order| - 1];
      FilterTask(ledger, order[..|order| - 1], taskId)
      + if last in ledger.records && ledger.records[last].dispatch.taskId == taskId then [last] else []
  }

  /** The task's records, by filtering all records in creation order. */
  function RecordsOfTask(ledger: Ledger, taskId: string): seq<MessageRecord> {
    Lookup(ledger.records, FilterTask(ledger, ledger.order, taskId))
  }

  ghost predicate Wellformed(ledger: Ledger) {
    && (forall i :: 0 <= i < |ledger.order| ==> ledger.order[i] == FreshId(i))
    && (forall id :: id in ledger.records <==> id in ledger.order)
    && (forall id :: id in ledger.records ==> WellformedRecord(id, ledger.records[id]))
    && (forall taskId :: TaskIds(ledger, taskId) == FilterTask(ledger, ledger.order, taskId))
  }

  lemma NextIdIsUnused(ledger: Ledger)
    requires Wellformed(ledger)
    ensures FreshId(|ledger.order|) !in ledger.records
  {
  }

  lemma TaskListIsFilter(ledger: Ledger, taskId: string)
    requires Wellformed(ledger)
    ensures Lookup(ledger.records, TaskIds(ledger, taskId)) == RecordsOfTask(ledger, taskId)
  {
  }

  /** The filter depends only on the task of each listed record. */
  lemma {:induction false} FilterTaskFrame(a: Ledger, b: Ledger, order: seq<string>, taskId: string)
    requires forall id :: id in order ==> id in a.records && id in b.records
    requires forall id :: id in order ==> a.records[id].dispatch == b.records[id].dispatch
    ensures FilterTask(a, order, taskId) == FilterTask(b, order, taskId)
  {
    if order != [] {
      var init := order[..|order| - 1];
      assert forall id :: id in init ==> id in order;
      FilterTaskFrame(a, b, init, taskId);
      assert order[|order| - 1] in order;
    }
  }

  lemma NewRecordWellformed(id: string, dispatch: Dispatch, attempt: int)
    ensures WellformedRecord(id, NewRecord(id, dispatch, attempt))
  {
  }

  lemma FilterTaskStep(ledger: Ledger, order: seq<string>, id: string, taskId: string)
    requires id in ledger.records
    ensures FilterTask(ledger, order + [id], taskId)
         == FilterTask(ledger, order, taskId) + if ledger.records[id].dispatch.taskId == taskId then [id] else []
  {
    assert (order + [id])[..|order|] == order;
  }

  /** The index of the new record's task grows by its id, every other index is unchanged. */
  lemma BeginTaskIndex(ledger: Ledger, dispatch: Dispatch, attempt: int, taskId: string)
    requires Wellformed(ledger)
    ensures var next := Begin(ledger, dispatch, attempt);
      TaskIds(next, taskId) == FilterTask(next, next.order, taskId)
  {
    NextIdIsUnused(ledger);
    hide WellformedRecord, FreshId, FilterTask;
    var next := Begin(ledger, dispatch, attempt);
    FilterTaskFrame(ledger, next, ledger.order, taskId);
    FilterTaskStep(next, ledger.order, FreshId(|ledger.order|), taskId);
  }

  lemma BeginKeepsWellformed(ledger: Ledger, dispatch: Dispatch, attempt: int)
    requires Wellformed(ledger)
    ensures Wellformed(Begin(ledger, dispatch, attempt))
  {
    hide WellformedRecord, FilterTask, FreshId, NewRecord;
    NewRecordWellformed(FreshId(|ledger.order|), dispatch, attempt);
    forall taskId
      ensures var next := Begin(ledger, dispatch, attempt);
        TaskIds(next, taskId) == FilterTask(next, next.order, taskId)
    {
      BeginTaskIndex(ledger, dispatch, attempt, taskId);
    }
  }

  /** Replacing one record by a later version of itself keeps the ledger well formed. */
  lemma ReplaceKeepsWellformed(ledger: Ledger, id: string, r: MessageRecord)
    requires Wellformed(ledger) && id in ledger.records
    requires WellformedRecord(id, r) && r.dispatch == ledger.records[id].dispatch
    ensures Wellformed(ledger.(records := ledger.records[id := r]))
  {
    hide WellformedRecord, FreshId;
    var next := ledger.(records := ledger.records[id := r]);
    forall taskId ensures TaskIds(next, taskId) == FilterTask(next, next.order, taskId) {
      FilterTaskFrame(ledger, next, ledger.order, taskId);
    }
  }

  /** Appending an allowed transition to a record keeps it well formed. */
  lemma MovedRecord(id: string, r: MessageRecord, moved: MessageRecord, t: Transition)
    requires WellformedRecord(id, r) && Allowed(r.state, t.state)
    requires moved.ledgerId == id && moved.transitions == r.transitions + [t]
    requires moved.state == t.state && moved.retryable == t.retryable
    requires t.retryable.Some? <==> Terminal(t.state)
    ensures WellformedRecord(id, moved)
  {
  }

  lemma MoveKeepsLedger(ledger: Ledger, id: string, moved: MessageRecord, t: Transition)
    requires Wellformed(ledger) && id in ledger.records && Allowed(ledger.records[id].state, t.state)
    requires moved.ledgerId == ledger.records[id].ledgerId && moved.dispatch == ledger.records[id].dispatch
    requires moved.transitions == ledger.records[id].transitions + [t]
    requires moved.state == t.state && moved.retryable == t.retryable
    requires t.retryable.Some? <==> Terminal(t.state)
    ensures Wellformed(ledger.(records := ledger.records[id := moved]))
  {
    assert WellformedRecord(id, ledger.records[id]);
    hide Wellformed, FilterTask;
    MovedRecord(id, ledger.records[id], moved, t);
    ReplaceKeepsWellformed(ledger, id, moved);
  }

  lemma SentKeepsLedger(ledger: Ledger, id: string, dispatchId: string, deliveryId: string)
    requires Wellformed(ledger) && id in ledger.records && Allowed(ledger.records[id].state, Sent)
    ensures Wellformed(ledger.(records := ledger.records[id := ToSent(ledger.records[id], dispatchId, deliveryId)]))
  {
    assert WellformedRecord(id, ledger.records[id]) && !Terminal(ledger.records[id].state);
    hide Wellformed, WellformedRecord;
    MoveKeepsLedger(ledger, id, ToSent(ledger.records[id], dispatchId, deliveryId),
                    Transition(Sent, "acp_accepted", "ACP send accepted", None));
  }

  lemma AckedKeepsLedger(ledger: Ledger, id: string, reasonCode: string, message: string)
    requires Wellformed(ledger) && id in ledger.records && Allowed(ledger.records[id].state, Acked)
    ensures Wellformed(ledger.(records := ledger.records[id := ToAcked(ledger.records[id], reasonCode, message)]))
  {
    assert WellformedRecord(id, ledger.records[id]);
    hide Wellformed, WellformedRecord;
    MoveKeepsLedger(ledger, id, ToAcked(ledger.records[id], reasonCode, message),
                    Transition(Acked, reasonCode, message, Some(false)));
  }

  lemma NackedKeepsLedger(ledger: Ledger, id: string, errorCode: string, message: string, retryable: bool)
    requires Wellformed(ledger) && id in ledger.records && Allowed(ledger.records[id].state, Nacked)
    ensures Wellformed(ledger.(records := ledger.records[id := ToNacked(ledger.records[id], errorCode, message, retryable)]))
  {
    assert WellformedRecord(id, ledger.records[id]);
    hide Wellformed, WellformedRecord;
    MoveKeepsLedger(ledger, id, ToNacked(ledger.records[id], errorCode, message, retryable),
                    Transition(Nacked, errorCode, message, Some(retryable)));
  }

  /** Every call keeps the ledger well formed. */
  lemma ApplyKeepsWellformed(ledger: Ledger, op: Op)
    requires Wellformed(ledger)
    ensures Wellformed(Apply(ledger, op))
  {
    hide Wellformed;
    match op
    case BeginDispatch(dispatch, attempt) =>
      BeginKeepsWellformed(ledger, dispatch, attempt);
    case MarkSent(id, dispatchId, deliveryId) =>
      if CheckMove(ledger, id, Sent).Ok? {
        SentKeepsLedger(ledger, id, dispatchId, deliveryId);
      }
    case MarkAcked(id, reasonCode, message) =>
      if CheckMove(ledger, id, Acked).Ok? {
        AckedKeepsLedger(ledger, id, reasonCode, message);
      }
    case MarkNacked(id, errorCode, message, retryable) =>
      if CheckMove(ledger, id, Nacked).Ok? {
        NackedKeepsLedger(ledger, id, errorCode, message, retryable);
      }
  }

  /** No call changes a terminal record. */
  lemma TerminalRecordsStay(ledger: Ledger, op: Op, id: string)
    requires Wellformed(ledger) && id in ledger.records && Terminal(ledger.records[id].state)
    ensures id in Apply(ledger, op).records && Apply(ledger, op).records[id] == ledger.records[id]
  {
    NextIdIsUnused(ledger);
  }

  /** The ledger after a sequence of calls. */
  function ApplyAll(ledger: Ledger, ops: seq<Op>): Ledger
    decreases |ops|
  {
    if ops == [] then ledger else ApplyAll(Apply(ledger, ops[0]), ops[1..])
  }

  /** In every reachable ledger, whatever calls were made and rejected on the way: each record's state
      is the end of a legal history, the task index is the filter of all records by task in creation
      order, and a record that became terminal never changed again. */
  lemma {:induction false} ReachableLedger(ledger: Ledger, ops: seq<Op>, id: string)
    requires Wellformed(ledger)
    ensures Wellformed(ApplyAll(ledger, ops))
    ensures id in ledger.records && Terminal(ledger.records[id].state) ==>
      id in ApplyAll(ledger, ops).records && ApplyAll(ledger, ops).records[id] == ledger.records[id]
    decreases |ops|
  {
    hide Wellformed, Apply;
    if ops != [] {
      ApplyKeepsWellformed(ledger, ops[0]);
      if id in ledger.records && Terminal(ledger.records[id].state) {
        TerminalRecordsStay(ledger, ops[0], id);
      }
      ReachableLedger(Apply(ledger, ops[0]), ops[1..], id);
    }
  }

  lemma EmptyLedgerWellformed()
    ensures Wellformed(EMPTY_LEDGER)
  {
  }
}
