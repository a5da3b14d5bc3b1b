/** GATE-003 when proposal flows interleave, read by read and write by write (agents/cwo/agent.py,
    agents/ceo/agent.py, agents/cso/agent.py). Review writes succeed and nothing is overridden. */
module Gate003Interleaved {
  import opened PyText
  import opened GovernanceLog
  import opened GovernanceAgents
  import opened Gate003

  /** What a flow has done last. */
  datatype Phase =
    | Drafted
    | ReviewWritten
    | OutcomeRead(outcome: string)
    | ReviewVerified(outcome: string)
    | ReviewsCounted(outcome: string, reviews: nat)
    | Cleared(outcome: string, count: nat)
    | Decided(outcome: string)
    | Stopped

  /** `own` is the outcome of the flow's own review once written, and `rank` the number of conflicting
      reviews of the proposal there were then, its own included. */
  datatype Flow = Flow(projectId: string, proposalId: string, own: ReviewOutcome, rank: nat, phase: Phase)

  datatype World = World(log: Log, flows: seq<Flow>)

  const START := World([], [])

  datatype Action =
    | Begin(projectId: string, proposalId: string)
    | WriteReview(f: nat, outcome: ReviewOutcome)
    | ReadOutcome(f: nat)
    | VerifyReview(f: nat)
    | CountReviews(f: nat)
    | ClearGate(f: nat)
    | Decide(f: nat, decision: CeoDecision)
    | Abandon(f: nat)
    | DirectReview(proposal: string, project: string, outcome: ReviewOutcome, writeFails: bool)
    | OtherDocument(record: Record, context: WriteContext, faulty: bool)

  function SetPhase(w: World, f: nat, phase: Phase): World
    requires f < |w.flows|
  {
    w.(flows := w.flows[f := w.flows[f].(phase := phase)])
  }

  /** The phase after a flow's next read, and after the gate. */
  function AfterRead(log: Log, flow: Flow): Phase {
    match flow.phase
    case ReviewWritten =>
      (match CsoReviewOutcome(log, flow.projectId, flow.proposalId)
       case None => Stopped
       case Some(outcome) => OutcomeRead(outcome))
    case OutcomeRead(outcome) =>
      if LastReview(DocumentsByType(log, CsoReview), Strip(flow.proposalId)).Some? then ReviewVerified(outcome) else Stopped
    case ReviewVerified(outcome) => ReviewsCounted(outcome, ConflictReviews(log, Strip(flow.proposalId)))
    case ReviewsCounted(outcome, reviews) =>
      var count := reviews + CountRevisions(DocumentsByType(log, CeoProposalDecision), Strip(flow.proposalId));
      if outcome == CONFLICT && count >= 3 then Stopped else Cleared(outcome, count)
    case _ => flow.phase
  }

  /** The flow's own record: its review, and its decision once the gate is cleared. */
  function ReviewOf(flow: Flow, outcome: ReviewOutcome): Record {
    ReviewRecord(flow.projectId, flow.proposalId, outcome)
  }

  function DecisionOf(flow: Flow, decision: CeoDecision): Record
    requires flow.phase.Cleared?
  {
    DecisionRecord(flow.projectId, flow.proposalId, decision, Some(flow.phase.outcome), flow.phase.count)
  }

  predicate InPhase(w: World, a: Action) {
    match a
    case WriteReview(f, _) => f < |w.flows| && w.flows[f].phase.Drafted?
    case ReadOutcome(f) => f < |w.flows| && w.flows[f].phase.ReviewWritten?
    case VerifyReview(f) => f < |w.flows| && w.flows[f].phase.OutcomeRead?
    case CountReviews(f) => f < |w.flows| && w.flows[f].phase.ReviewVerified?
    case ClearGate(f) => f < |w.flows| && w.flows[f].phase.ReviewsCounted?
    case Decide(f, _) => f < |w.flows| && w.flows[f].phase.Cleared?
    case Abandon(f) => f < |w.flows| && !w.flows[f].phase.Decided?
    case Begin(projectId, proposalId) => ValidProjectId(projectId) && Strip(proposalId) != ""
    case DirectReview(_, _, _, _) => true
    case OtherDocument(r, _, _) => !IsApprovalRecord(r.kind)
  }

  function Next(w: World, a: Action): World
    requires InPhase(w, a)
  {
    match a
    case Begin(projectId, proposalId) => w.(flows := w.flows + [Flow(projectId, proposalId, Aligned, 0, Drafted)])
    case WriteReview(f, outcome) =>
      var log := w.log + [ReviewOf(w.flows[f], outcome)];
      World(log, w.flows[f := w.flows[f].(own := outcome, rank := ConflictReviews(log, w.flows[f].proposalId), phase := ReviewWritten)])
    case ReadOutcome(f) => SetPhase(w, f, AfterRead(w.log, w.flows[f]))
    case VerifyReview(f) => SetPhase(w, f, AfterRead(w.log, w.flows[f]))
    case CountReviews(f) => SetPhase(w, f, AfterRead(w.log, w.flows[f]))
    case ClearGate(f) => SetPhase(w, f, AfterRead(w.log, w.flows[f]))
    case Decide(f, decision) =>
      SetPhase(w, f, Phase.Decided(w.flows[f].phase.outcome)).(log := w.log + [DecisionOf(w.flows[f], decision)])
    case Abandon(f) => SetPhase(w, f, Stopped)
    case DirectReview(proposal, project, outcome, fails) =>
      w.(log := CsoHandled(w.log, Some(proposal), Some(project), outcome, fails))
    case OtherDocument(r, context, faulty) => w.(log := Written(w.log, r, context, faulty))
  }

  /** An action out of its turn changes nothing. */
  function Step(w: World, a: Action): World {
    if InPhase(w, a) then Next(w, a) else w
  }

  function RunFrom(w: World, actions: seq<Action>): World {
    if actions == [] then w else Step(RunFrom(w, actions[..|actions| - 1]), actions[|actions| - 1])
  }

  /** One submission from beginning to end. */
  function LoneFlow(f: nat, projectId: string, proposalId: string, oracle: CwoOracle): seq<Action> {
    [Begin(projectId, proposalId), WriteReview(f, oracle.outcome), ReadOutcome(f), VerifyReview(f), CountReviews(f),
     ClearGate(f), Decide(f, oracle.ceo.decision)]
  }

  lemma SubmittedIdIsNotBlank(request: CwoRequest, projectId: string)
    requires ValidProjectId(projectId)
    ensures Strip(ProposalId(request, projectId)) != ""
  {
    OptionalStrIsStripped(request.proposalId);
    MadeUpIdIsStripped(projectId, request.traceId);
    hide Strip, RStrip;
  }

  /** With nothing in between, the steps of a flow are the handler's proposal flow. */
  lemma LoneFlowIsProposalFlow(w: World, request: CwoRequest, oracle: CwoOracle)
    requires OptionalStr(request.projectId).Some? && ValidProjectId(OptionalStr(request.projectId).value)
    requires !oracle.draftFails && !oracle.reviewWriteFails && !request.overrideFlag
    requires !oracle.ceo.modelFails && !oracle.ceo.writeFails
    ensures var project := OptionalStr(request.projectId).value;
      RunFrom(w, LoneFlow(|w.flows|, project, ProposalId(request, project), oracle)).log == ProposalFlow(w.log, request, oracle).0
  {
    hide *;
    var project := OptionalStr(request.projectId).value;
    var proposal := ProposalId(request, project);
    FlowIsSubmitted(w.log, request, oracle);
    ProjectIsOptional(request.projectId);
    SubmittedIdIsNotBlank(request, project);
    LoneFlowSteps(w, project, proposal, oracle);
    LoneFlowReads(w, project, proposal, oracle.outcome);
    var flow := Flow(project, proposal, oracle.outcome, ConflictReviews(AfterReview(w, project, proposal, oracle.outcome).log, proposal),
                     OutcomeRead(OutcomeText(oracle.outcome)));
    SubmittedIs(w, project, proposal, request, oracle);
    CeoPartIsReviewed(World(AfterReview(w, project, proposal, oracle.outcome).log, w.flows + [flow]), |w.flows|,
                      CeoRequestFor(request, project, OutcomeText(oracle.outcome)), oracle.ceo);
  }

  lemma ProjectIsOptional(value: Option<string>)
    requires OptionalStr(value).Some?
    ensures OptionalStr(OptionalStr(value)) == OptionalStr(value)
  {
    OptionalStrIsStripped(value);
    hide Strip;
  }

  function AfterReview(w: World, project: string, proposal: string, outcome: ReviewOutcome): World {
    Step(Step(w, Begin(project, proposal)), WriteReview(|w.flows|, outcome))
  }

  /** The CEO's reads, the gate and the decision. */
  function CeoPart(w: World, f: nat, decision: CeoDecision): World {
    Step(Step(Step(Step(w, VerifyReview(f)), CountReviews(f)), ClearGate(f)), Decide(f, decision))
  }

  lemma LoneFlowSteps(w: World, project: string, proposal: string, oracle: CwoOracle)
    ensures RunFrom(w, LoneFlow(|w.flows|, project, proposal, oracle)) ==
      CeoPart(Step(AfterReview(w, project, proposal, oracle.outcome), ReadOutcome(|w.flows|)), |w.flows|, oracle.ceo.decision)
  {
    hide Step, RunFrom;
    SevenSteps(w, LoneFlow(|w.flows|, project, proposal, oracle));
  }

  lemma LoneFlowReads(w: World, project: string, proposal: string, outcome: ReviewOutcome)
    requires ValidProjectId(project) && Strip(proposal) != ""
    ensures var w2 := AfterReview(w, project, proposal, outcome);
      && w2.log == w.log + [ReviewRecord(project, proposal, outcome)]
      && Step(w2, ReadOutcome(|w.flows|)) ==
           World(w2.log, w.flows + [Flow(project, proposal, outcome, ConflictReviews(w2.log, proposal), OutcomeRead(OutcomeText(outcome)))])
  {
    hide ValidProjectId, Strip, CsoReviewOutcome, ConflictReviews, ReviewRecord;
    FlowReadsOwnReview(w.log, project, proposal, outcome);
    var w1 := Step(w, Begin(project, proposal));
    assert w1 == World(w.log, w.flows + [Flow(project, proposal, Aligned, 0, Drafted)]);
    var w2 := Step(w1, WriteReview(|w.flows|, outcome));
    assert w2.flows == w.flows + [Flow(project, proposal, outcome, ConflictReviews(w2.log, proposal), ReviewWritten)];
  }

  /** The CEO's part of the steps is the CEO's review. */
  lemma CeoPartIsReviewed(w: World, f: nat, request: CeoRequest, oracle: CeoOracle)
    requires f < |w.flows| && request.csoReviewOutcome.Some? && w.flows[f].phase == OutcomeRead(request.csoReviewOutcome.value)
    requires request.csoReviewOutcome.value != "" && request.proposalId == Some(w.flows[f].proposalId)
    requires OptionalStr(request.projectId) == Some(w.flows[f].projectId) && ValidProjectId(w.flows[f].projectId)
    requires Strip(w.flows[f].proposalId) != "" && !request.overrideFlag && !oracle.modelFails && !oracle.writeFails
    ensures CeoPart(w, f, oracle.decision).log == Reviewed(w.log, request, oracle).0
  {
    hide OptionalStr, Strip, ValidProjectId, Accepts, LastReview, DocumentsByType, CountConflicts, CountRevisions, RevisionCycleCount;
    var p, outcome := Strip(w.flows[f].proposalId), request.csoReviewOutcome.value;
    CountIsSum(w.log, p);
    ContextAccepted(w.log, DecisionRecord(w.flows[f].projectId, w.flows[f].proposalId, oracle.decision, Some(outcome),
                                          RevisionCycleCount(w.log, p)), CEO_PROPOSED);
    if LastReview(DocumentsByType(w.log, CsoReview), p).Some? {
      var w3 := Step(Step(w, VerifyReview(f)), CountReviews(f));
      assert w3.log == w.log && w3.flows == w.flows[f := w.flows[f].(phase := ReviewsCounted(outcome, ConflictReviews(w.log, p)))];
    }
  }

  lemma SubmittedIs(w: World, project: string, proposal: string, request: CwoRequest, oracle: CwoOracle)
    requires proposal == ProposalId(request, project)
    ensures Submitted(w.log, project, proposal, request, oracle) ==
      Reviewed(w.log + [ReviewRecord(project, proposal, oracle.outcome)], CeoRequestFor(request, project, OutcomeText(oracle.outcome)), oracle.ceo).0
    ensures var ceo := CeoRequestFor(request, project, OutcomeText(oracle.outcome));
      && ceo.csoReviewOutcome == Some(OutcomeText(oracle.outcome)) && OutcomeText(oracle.outcome) != ""
      && ceo.proposalId == Some(proposal) && ceo.projectId == Some(project) && ceo.overrideFlag == request.overrideFlag
  {
    hide Reviewed, ProposalId;
    OutcomesDiffer(oracle.outcome);
  }

  lemma SevenSteps(w: World, a: seq<Action>)
    requires |a| == 7
    ensures RunFrom(w, a) == Step(Step(Step(Step(Step(Step(Step(w, a[0]), a[1]), a[2]), a[3]), a[4]), a[5]), a[6])
  {
    hide Step, RunFrom;
    FiveSteps(w, a[..5]);
    assert a[..5] + [a[5]] == a[..6] && a[..6] + [a[6]] == a;
    RunOneMore(w, a[..5], a[5]);
    RunOneMore(w, a[..6], a[6]);
  }

  // ----- the bound -----

  /** A flow that reads an outcome back reads its own. */
  predicate ReadsOwn(w: World, a: Action) {
    a.ReadOutcome? && InPhase(w, a) ==>
      CsoReviewOutcome(w.log, w.flows[a.f].projectId, w.flows[a.f].proposalId) == Some(OutcomeText(w.flows[a.f].own))
  }

  ghost predicate AllReadOwn(w: World, actions: seq<Action>) {
    forall n | 0 <= n < |actions| :: ReadsOwn(RunFrom(w, actions[..n]), actions[n])
  }

  predicate OnConflict(flow: Flow, d: string) {
    flow.proposalId == d && flow.own == StrategicConflict
  }

  /** The flow has decided on d in strategic conflict. */
  predicate DecidedConflict(flow: Flow, d: string) {
    flow.proposalId == d && flow.phase == Phase.Decided(CONFLICT)
  }

  function CountDecided(flows: seq<Flow>, d: string): nat {
    if flows == [] then 0 else
    CountDecided(flows[..|flows| - 1], d) + if DecidedConflict(flows[|flows| - 1], d) then 1 else 0
  }

  /** What a flow remembers agrees with its own review, and whoever passed the gate in conflict wrote the
      first or the second conflicting review. */
  predicate FlowSound(flow: Flow, reviews: nat, d: string) {
    && (flow.phase.OutcomeRead? || flow.phase.ReviewVerified? || flow.phase.ReviewsCounted? || flow.phase.Cleared? || flow.phase.Decided? ==>
          flow.phase.outcome == OutcomeText(flow.own))
    && (OnConflict(flow, d) ==> 1 <= flow.rank <= reviews)
    && (OnConflict(flow, d) && flow.phase.ReviewsCounted? ==> flow.rank <= flow.phase.reviews)
    && (OnConflict(flow, d) && (flow.phase.Cleared? || flow.phase.Decided?) ==> flow.rank <= 2)
  }

  ghost predicate Inv(w: World, d: string) {
    && (forall f | 0 <= f < |w.flows| :: FlowSound(w.flows[f], ConflictReviews(w.log, d), d))
    && (forall f, g | 0 <= f < g < |w.flows| && OnConflict(w.flows[f], d) && OnConflict(w.flows[g], d) ::
          w.flows[f].rank != w.flows[g].rank)
    && ConflictDecisions(w.log, d) == CountDecided(w.flows, d)
  }

  lemma {:induction false} CountOfUpdate(flows: seq<Flow>, f: nat, flow: Flow, d: string)
    requires f < |flows|
    ensures CountDecided(flows[f := flow], d) == CountDecided(flows, d)
      - (if DecidedConflict(flows[f], d) then 1 else 0) + (if DecidedConflict(flow, d) then 1 else 0)
  {
    hide DecidedConflict;
    var after := flows[f := flow];
    if f == |flows| - 1 {
      assert after[..f] == flows[..f];
    } else {
      CountOfUpdate(flows[..|flows| - 1], f, flow, d);
      assert after[..|flows| - 1] == flows[..|flows| - 1][f := flow];
    }
  }

  lemma CountOfBegin(flows: seq<Flow>, flow: Flow, d: string)
    ensures CountDecided(flows + [flow], d) == CountDecided(flows, d) + if DecidedConflict(flow, d) then 1 else 0
  {
    assert (flows + [flow])[..|flows|] == flows;
    hide DecidedConflict;
  }

  /** More reviews take nothing from what a flow knows. */
  lemma SoundLater(flow: Flow, before: nat, after: nat, d: string)
    requires FlowSound(flow, before, d) && before <= after
    ensures FlowSound(flow, after, d)
  {
  }

  /** A read step of one flow. */
  lemma ReadKeepsSound(w: World, a: Action, d: string)
    requires InPhase(w, a) && (a.ReadOutcome? || a.VerifyReview? || a.CountReviews? || a.ClearGate?)
    requires Strip(d) == d && ReadsOwn(w, a) && FlowSound(w.flows[a.f], ConflictReviews(w.log, d), d)
    ensures FlowSound(Next(w, a).flows[a.f], ConflictReviews(w.log, d), d)
    ensures !Next(w, a).flows[a.f].phase.Decided?
  {
    hide Strip, CsoReviewOutcome, ConflictReviews, LastReview, DocumentsByType, CountRevisions;
    OutcomesDiffer(w.flows[a.f].own);
  }

  /** Moving one flow on, without touching the log or deciding. */
  lemma MoveKeeps(w: World, f: nat, phase: Phase, d: string)
    requires Inv(w, d) && f < |w.flows| && !w.flows[f].phase.Decided? && !phase.Decided?
    requires FlowSound(w.flows[f].(phase := phase), ConflictReviews(w.log, d), d)
    ensures Inv(SetPhase(w, f, phase), d)
  {
    hide ConflictReviews, ConflictDecisions, CountDecided, FlowSound;
    CountOfUpdate(w.flows, f, w.flows[f].(phase := phase), d);
  }

  lemma ReadKeeps(w: World, a: Action, d: string)
    requires Inv(w, d) && InPhase(w, a) && (a.ReadOutcome? || a.VerifyReview? || a.CountReviews? || a.ClearGate?)
    requires Strip(d) == d && ReadsOwn(w, a)
    ensures Inv(Next(w, a), d)
  {
    hide Strip, ConflictReviews, ConflictDecisions, CountDecided, FlowSound, AfterRead, CsoReviewOutcome, Inv, ReadsOwn;
    SoundAt(w, a.f, d);
    ReadKeepsSound(w, a, d);
    MoveKeeps(w, a.f, AfterRead(w.log, w.flows[a.f]), d);
  }

  lemma SoundAt(w: World, f: nat, d: string)
    requires Inv(w, d) && f < |w.flows|
    ensures FlowSound(w.flows[f], ConflictReviews(w.log, d), d)
  {
    hide FlowSound;
  }

  lemma WriteKeeps(w: World, f: nat, outcome: ReviewOutcome, d: string)
    requires Inv(w, d) && InPhase(w, WriteReview(f, outcome))
    ensures Inv(Next(w, WriteReview(f, outcome)), d)
  {
    hide ConflictReviews, ConflictDecisions, CountDecided, AfterRead;
    var w' := Next(w, WriteReview(f, outcome));
    var review := ReviewOf(w.flows[f], outcome);
    ConflictsOfAppend(w.log, review, d);
    OutcomesDiffer(outcome);
    CountOfUpdate(w.flows, f, w'.flows[f], d);
    forall g | 0 <= g < |w'.flows|
      ensures FlowSound(w'.flows[g], ConflictReviews(w'.log, d), d)
    {
      if g != f {
        SoundLater(w.flows[g], ConflictReviews(w.log, d), ConflictReviews(w'.log, d), d);
      }
    }
  }

  lemma DecideKeeps(w: World, f: nat, decision: CeoDecision, d: string)
    requires Inv(w, d) && InPhase(w, Decide(f, decision))
    ensures Inv(Next(w, Decide(f, decision)), d)
  {
    hide ConflictReviews, ConflictDecisions, CountDecided, AfterRead;
    var w' := Next(w, Decide(f, decision));
    ConflictsOfAppend(w.log, DecisionOf(w.flows[f], decision), d);
    CountOfUpdate(w.flows, f, w'.flows[f], d);
    forall g | 0 <= g < |w'.flows|
      ensures FlowSound(w'.flows[g], ConflictReviews(w'.log, d), d)
    {
      assert FlowSound(w.flows[g], ConflictReviews(w.log, d), d);
    }
  }

  lemma FlowsKeep(w: World, a: Action, d: string)
    requires Inv(w, d) && InPhase(w, a) && (a.Begin? || a.Abandon?)
    ensures Inv(Next(w, a), d)
  {
    hide ConflictReviews, ConflictDecisions, CountDecided, AfterRead, ValidProjectId;
    var w' := Next(w, a);
    if a.Begin? {
      CountOfBegin(w.flows, w'.flows[|w.flows|], d);
    } else {
      CountOfUpdate(w.flows, a.f, w'.flows[a.f], d);
    }
    forall g | 0 <= g < |w'.flows|
      ensures FlowSound(w'.flows[g], ConflictReviews(w'.log, d), d)
    {
      assert g < |w.flows| ==> FlowSound(w.flows[g], ConflictReviews(w.log, d), d);
    }
  }

  lemma OthersKeep(w: World, a: Action, d: string)
    requires Inv(w, d) && InPhase(w, a) && (a.DirectReview? || a.OtherDocument?)
    ensures Inv(Next(w, a), d)
  {
    hide ConflictReviews, ConflictDecisions, CountDecided, FlowSound, Accepts, Strip;
    var w' := Next(w, a);
    if w'.log != w.log {
      ConflictsOfAppend(w.log, w'.log[|w.log|], d);
      assert w'.log == w.log + [w'.log[|w.log|]];
    }
    forall g | 0 <= g < |w'.flows|
      ensures FlowSound(w'.flows[g], ConflictReviews(w'.log, d), d)
    {
      SoundLater(w.flows[g], ConflictReviews(w.log, d), ConflictReviews(w'.log, d), d);
    }
  }

  lemma StepKeeps(w: World, a: Action, d: string)
    requires Inv(w, d) && Strip(d) == d && ReadsOwn(w, a)
    ensures Inv(Step(w, a), d)
  {
    hide Inv, Next, InPhase, Strip, ReadsOwn;
    if InPhase(w, a) {
      match a
      case WriteReview(f, outcome) => WriteKeeps(w, f, outcome, d);
      case Decide(f, decision) => DecideKeeps(w, f, decision, d);
      case Begin(_, _) => FlowsKeep(w, a, d);
      case Abandon(_) => FlowsKeep(w, a, d);
      case DirectReview(_, _, _, _) => OthersKeep(w, a, d);
      case OtherDocument(_, _, _) => OthersKeep(w, a, d);
      case _ => ReadKeeps(w, a, d);
    }
  }

  /** n counted flows are n different flows. */
  lemma {:induction false} SomeDecided(flows: seq<Flow>, d: string, n: nat) returns (found: seq<nat>)
    requires CountDecided(flows, d) >= n
    ensures |found| == n
    ensures forall i | 0 <= i < n :: found[i] < |flows| && DecidedConflict(flows[found[i]], d)
    ensures forall i, j | 0 <= i < j < n :: found[i] < found[j]
    decreases |flows|
  {
    hide DecidedConflict;
    if n == 0 {
      found := [];
    } else if DecidedConflict(flows[|flows| - 1], d) {
      found := SomeDecided(flows[..|flows| - 1], d, n - 1);
      found := found + [|flows| - 1];
    } else {
      found := SomeDecided(flows[..|flows| - 1], d, n);
    }
  }

  lemma RankOfDecided(w: World, f: nat, d: string)
    requires Inv(w, d) && f < |w.flows| && DecidedConflict(w.flows[f], d)
    ensures OnConflict(w.flows[f], d) && 1 <= w.flows[f].rank <= 2
  {
    hide ConflictReviews, ConflictDecisions, CountDecided;
    assert FlowSound(w.flows[f], ConflictReviews(w.log, d), d);
    OutcomesDiffer(w.flows[f].own);
  }

  lemma RanksDiffer(w: World, f: nat, g: nat, d: string)
    requires Inv(w, d) && f < g < |w.flows| && OnConflict(w.flows[f], d) && OnConflict(w.flows[g], d)
    ensures w.flows[f].rank != w.flows[g].rank
  {
    hide ConflictReviews, ConflictDecisions, CountDecided;
  }

  lemma InvMeansAtMostTwo(w: World, d: string)
    requires Inv(w, d)
    ensures ConflictDecisions(w.log, d) <= 2
  {
    hide Inv, ConflictReviews, ConflictDecisions, CountDecided, DecidedConflict;
    DecisionsAreCounted(w, d);
    if ConflictDecisions(w.log, d) >= 3 {
      var found := SomeDecided(w.flows, d, 3);
      RankOfDecided(w, found[0], d);
      RankOfDecided(w, found[1], d);
      RankOfDecided(w, found[2], d);
      RanksDiffer(w, found[0], found[1], d);
      RanksDiffer(w, found[1], found[2], d);
      RanksDiffer(w, found[0], found[2], d);
    }
  }

  lemma DecisionsAreCounted(w: World, d: string)
    requires Inv(w, d)
    ensures ConflictDecisions(w.log, d) == CountDecided(w.flows, d)
  {
    hide ConflictDecisions, CountDecided;
  }

  lemma NothingDecided(d: string)
    ensures Inv(START, d)
  {
  }

  lemma {:induction false} InvAlways(actions: seq<Action>, d: string)
    requires Strip(d) == d && AllReadOwn(START, actions)
    ensures Inv(RunFrom(START, actions), d)
    decreases |actions|
  {
    hide Inv, Step, Strip, ReadsOwn;
    if actions == [] {
      NothingDecided(d);
    } else {
      var init := actions[..|actions| - 1];
      forall n | 0 <= n < |init|
        ensures ReadsOwn(RunFrom(START, init[..n]), init[n])
      {
        assert init[..n] == actions[..n];
      }
      InvAlways(init, d);
      StepKeeps(RunFrom(START, init), actions[|actions| - 1], d);
    }
  }

  /** If every flow reads back the outcome of its own review, then in every interleaving of any number of
      flows at most two decisions in strategic conflict are recorded under an id without outer
      whitespace. */
  lemma AtMostTwoWhenReadingOwn(actions: seq<Action>, d: string)
    requires Strip(d) == d && AllReadOwn(START, actions)
    ensures ConflictDecisions(RunFrom(START, actions).log, d) <= 2
  {
    InvAlways(actions, d);
    InvMeansAtMostTwo(RunFrom(START, actions), d);
  }

  // ----- reading the log step by step -----

  /** A record that is no review of the pair does not change what is read back for it. */
  lemma OutcomeUndisturbed(log: Log, r: Record, projectId: string, proposalId: string)
    requires r.kind == CsoReview && r.projectId == projectId ==> r.proposalId != Some(proposalId)
    ensures CsoReviewOutcome(log + [r], projectId, proposalId) == CsoReviewOutcome(log, projectId, proposalId)
  {
    hide Documents, OptionalStr, LastReview;
    DocumentsOfAppend(log, r, projectId, CsoReview);
    var documents := Documents(log, projectId, CsoReview);
    assert documents + [] == documents;
    if r.proposalId != Some(proposalId) {
      LastReviewUndisturbed(documents, r, proposalId);
    }
  }

  lemma LastReviewUndisturbed(documents: Log, r: Record, proposalId: string)
    requires r.proposalId != Some(proposalId)
    ensures LastReview(documents + [r], proposalId) == LastReview(documents, proposalId)
  {
    hide IsReviewEvent;
    assert (documents + [r])[..|documents|] == documents;
  }

  lemma RunOneMore(w: World, actions: seq<Action>, a: Action)
    ensures RunFrom(w, actions + [a]) == Step(RunFrom(w, actions), a)
  {
    hide Step;
    assert (actions + [a])[..|actions|] == actions;
  }

  lemma {:induction false} RunInStages(w: World, first: seq<Action>, second: seq<Action>)
    ensures RunFrom(w, first + second) == RunFrom(RunFrom(w, first), second)
    decreases |second|
  {
    hide Step;
    if second == [] {
      assert first + second == first;
    } else {
      RunInStages(w, first, second[..|second| - 1]);
      assert (first + second)[..|first + second| - 1] == first + second[..|second| - 1];
    }
  }

  lemma RunOfNothing(w: World)
    ensures RunFrom(w, []) == w
  {
  }

  lemma FiveSteps(w: World, a: seq<Action>)
    requires |a| == 5
    ensures RunFrom(w, a) == Step(Step(Step(Step(Step(w, a[0]), a[1]), a[2]), a[3]), a[4])
  {
    hide Step, RunFrom;
    RunOfNothing(w);
    RunOneMore(w, [], a[0]);
    RunOneMore(w, [a[0]], a[1]);
    RunOneMore(w, [a[0], a[1]], a[2]);
    RunOneMore(w, [a[0], a[1], a[2]], a[3]);
    RunOneMore(w, [a[0], a[1], a[2], a[3]], a[4]);
    assert [] + [a[0]] == [a[0]] && [a[0]] + [a[1]] == [a[0], a[1]] && [a[0], a[1]] + [a[2]] == [a[0], a[1], a[2]];
    assert [a[0], a[1], a[2]] + [a[3]] == [a[0], a[1], a[2], a[3]] && [a[0], a[1], a[2], a[3]] + [a[4]] == a;
  }

  lemma CountIsSum(log: Log, d: string)
    ensures RevisionCycleCount(log, d) == ConflictReviews(log, d) + CountRevisions(DocumentsByType(log, CeoProposalDecision), d)
  {
  }
}
