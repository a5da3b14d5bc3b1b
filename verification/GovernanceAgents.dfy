/** The executive agents that append to and search the governance log (agents/cso/agent.py,
    agents/ceo/agent.py, agents/ceo/decision_writer.py, agents/cwo/agent.py,
    agents/cwo/workforce_initializer.py). What a language model answers is an oracle: any review
    outcome, any decision, or a failure. */
module GovernanceAgents {
  import opened PyText
  import opened GovernanceLog

  datatype ReviewOutcome = Aligned | NeedsRevision | StrategicConflict

  function OutcomeText(o: ReviewOutcome): string {
    match o
    case Aligned => "Aligned"
    case NeedsRevision => "Needs Revision"
    case StrategicConflict => CONFLICT
  }

  datatype CeoDecision = Approve | Deny | Revise

  function DecisionText(d: CeoDecision): string {
    match d
    case Approve => "approved"
    case Deny => "denied"
    case Revise => "needs_revision"
  }

  datatype Denial =
    | NoProject | InvalidProject | Gate003 | Gate005 | Gate006 | Orch005 | ChainIncomplete
    | NoCompletionReport | MissingContext | Unsupported | Failed

  datatype Response = Recorded | Decided(decision: CeoDecision) | NothingRecorded | Denied(reason: Denial)

  function ReviewRecord(projectId: string, proposalId: string, outcome: ReviewOutcome): Record {
    Record(projectId, CsoReview, Some(CSO_EVENT), Some(proposalId), Some(OutcomeText(outcome)), None, None, 0, None, Elsewhere)
  }

  function DecisionRecord(projectId: string, proposalId: string, decision: CeoDecision, outcome: Option<string>, count: nat): Record {
    Record(projectId, CeoProposalDecision, Some("ceo_proposal_decision"), Some(proposalId), None, Some(DecisionText(decision)),
           outcome, count, None, Elsewhere)
  }

  function CoapprovalRecord(projectId: string, kind: Kind, approvalType: string, origin: Origin): Record {
    Record(projectId, kind, Some(if kind.CeoCoapproval? then "ceo_coapproval" else "cwo_coapproval"), None, None, None, None, 0,
           Some(approvalType), origin)
  }

  /** A document whose contents nobody searches. */
  function PlainRecord(projectId: string, kind: Kind): Record {
    Record(projectId, kind, None, None, None, None, None, 0, None, Elsewhere)
  }

  function Written(log: Log, r: Record, context: WriteContext, faulty: bool): Log {
    if !faulty && Accepts(log, r, context) then log + [r] else log
  }

  predicate WriteFails(log: Log, r: Record, context: WriteContext, faulty: bool) {
    faulty || !Accepts(log, r, context)
  }

  predicate Given(value: Option<string>) {
    value.Some? && value.value != ""
  }

  // ----- CSO -----

  /** The review record is written when both ids are given; a failing write is swallowed. */
  function CsoHandled(log: Log, proposalId: Option<string>, projectId: Option<string>, outcome: ReviewOutcome, writeFails: bool): Log {
    if Given(proposalId) && Given(projectId)
    then Written(log, ReviewRecord(Strip(projectId.value), proposalId.value, outcome), CEO_ACTIVE, writeFails)
    else log
  }

  class CSOAgent {
    const repository: PostgresGovernanceArtifactRepository

    constructor (repository: PostgresGovernanceArtifactRepository)
      ensures this.repository == repository
    {
      this.repository := repository;
    }

    method Handle(proposalId: Option<string>, projectId: Option<string>, outcome: ReviewOutcome, writeFails: bool)
      modifies repository
      ensures repository.log == CsoHandled(old(repository.log), proposalId, projectId, outcome, writeFails)
    {
      hide Accepts;
      if Given(proposalId) {
        if Given(projectId) {
          var _ := repository.WriteProjectArtifact(
            ReviewRecord(Strip(projectId.value), proposalId.value, outcome), CEO_ACTIVE, writeFails);
        }
      }
    }
  }

  // ----- CEO -----

  /** The request fields that matter; context values are optional strings. */
  datatype CeoRequest = CeoRequest(
    intent: string, proposalId: Option<string>, csoReviewOutcome: Option<string>,
    projectId: Option<string>, approvalType: Option<string>, overrideFlag: bool)

  /** What happens around a CEO request: the model's decision, its failure, a failing write. */
  datatype CeoOracle = CeoOracle(decision: CeoDecision, modelFails: bool, writeFails: bool)

  function EffectiveOutcome(request: CeoRequest, review: Record): Option<string> {
    if Given(request.csoReviewOutcome) then request.csoReviewOutcome else OptionalStr(review.reviewOutcome)
  }

  function Reviewed(log: Log, request: CeoRequest, oracle: CeoOracle): (Log, Response) {
    if request.proposalId.None? || Strip(request.proposalId.value) == "" then (log, Denied(Gate005)) else
    var proposal := Strip(request.proposalId.value);
    var review := LastReview(DocumentsByType(log, CsoReview), proposal);
    if review.None? then (log, Denied(Gate005)) else
    var count, outcome := RevisionCycleCount(log, proposal), EffectiveOutcome(request, review.value);
    if outcome == Some(CONFLICT) && count >= 3 && !request.overrideFlag then (log, Denied(Gate003))
    else if oracle.modelFails || OptionalStr(request.projectId).None? then (log, Denied(Failed))
    else
      var r := DecisionRecord(OptionalStr(request.projectId).value, request.proposalId.value, oracle.decision, outcome, count);
      (Written(log, r, CEO_PROPOSED, oracle.writeFails),
       if WriteFails(log, r, CEO_PROPOSED, oracle.writeFails) then Denied(Failed) else Decided(oracle.decision))
  }

  function ApprovalType(value: Option<string>, default: string): string {
    if OptionalStr(value).Some? then OptionalStr(value).value else default
  }

  function CeoCoapproved(log: Log, request: CeoRequest, oracle: CeoOracle): (Log, Response) {
    var project := OptionalStr(request.projectId);
    if project.None? then (log, Denied(Orch005))
    else if !ValidProjectId(project.value) then (log, Denied(InvalidProject)) else
    var approvalType := ApprovalType(request.approvalType, "controlled_doc_edit");
    if !HasCoapproval(log, CwoCoapproval, project.value, approvalType) then (log, Denied(Orch005))
    else if oracle.modelFails then (log, Denied(Failed))
    else
      var r := CoapprovalRecord(project.value, CeoCoapproval, approvalType, CoapprovalRequest);
      (Written(log, r, CEO_ACTIVE, oracle.writeFails),
       if WriteFails(log, r, CEO_ACTIVE, oracle.writeFails) then Denied(Failed) else Recorded)
  }

  function CeoHandled(log: Log, request: CeoRequest, oracle: CeoOracle): (Log, Response) {
    var intent := Upper(Strip(request.intent));
    if intent == "DISCUSSION" || intent == "QUERY" then (log, NothingRecorded)
    else if intent == "MUTATION" && Given(request.proposalId) then Reviewed(log, request, oracle)
    else if intent == "MUTATION" then (log, NothingRecorded)
    else if intent == "ADMIN" then CeoCoapproved(log, request, oracle)
    else (log, Denied(Unsupported))
  }

  class CeoAgent {
    const repository: PostgresGovernanceArtifactRepository

    constructor (repository: PostgresGovernanceArtifactRepository)
      ensures this.repository == repository
    {
      this.repository := repository;
    }

    method HandleProposalReview(request: CeoRequest, oracle: CeoOracle) returns (response: Response)
      modifies repository
      ensures (repository.log, response) == Reviewed(old(repository.log), request, oracle)
    {
      hide Accepts, RevisionCycleCount, LastReview, DocumentsByType, Strip, HasReview;
      if request.proposalId.None? || Strip(request.proposalId.value) == "" {
        return Denied(Gate005);
      }
      var proposal := Strip(request.proposalId.value);
      var review := repository.VerifyCsoReviewRecord(proposal);
      if review.None? {
        return Denied(Gate005);
      }
      var count := repository.ReadRevisionCycleCount(proposal);
      var outcome := EffectiveOutcome(request, review.value);
      if outcome == Some(CONFLICT) && count >= 3 && !request.overrideFlag {
        return Denied(Gate003);
      }
      if oracle.modelFails {
        return Denied(Failed);
      }
      var project := OptionalStr(request.projectId);
      if project.None? {
        return Denied(Failed);
      }
      var ok := repository.WriteProjectArtifact(
        DecisionRecord(project.value, request.proposalId.value, oracle.decision, outcome, count), CEO_PROPOSED, oracle.writeFails);
      return if ok then Decided(oracle.decision) else Denied(Failed);
    }

    method HandleCoapproval(request: CeoRequest, oracle: CeoOracle) returns (response: Response)
      modifies repository
      ensures (repository.log, response) == CeoCoapproved(old(repository.log), request, oracle)
    {
      hide Accepts, HasCoapproval, OptionalStr;
      var project := OptionalStr(request.projectId);
      if project.None? {
        return Denied(Orch005);
      }
      if !ValidProjectId(project.value) {
        return Denied(InvalidProject);
      }
      var approvalType := ApprovalType(request.approvalType, "controlled_doc_edit");
      var found := repository.FindCoapproval(CwoCoapproval, project.value, approvalType);
      if !found {
        return Denied(Orch005);
      }
      if oracle.modelFails {
        return Denied(Failed);
      }
      var ok := repository.WriteProjectArtifact(
        CoapprovalRecord(project.value, CeoCoapproval, approvalType, CoapprovalRequest), CEO_ACTIVE, oracle.writeFails);
      return if ok then Recorded else Denied(Failed);
    }

    method Handle(request: CeoRequest, oracle: CeoOracle) returns (response: Response)
      modifies repository
      ensures (repository.log, response) == CeoHandled(old(repository.log), request, oracle)
    {
      hide Reviewed, CeoCoapproved, Strip, Upper;
      var intent := Upper(Strip(request.intent));
      if intent == "DISCUSSION" || intent == "QUERY" {
        return NothingRecorded;
      }
      if intent == "MUTATION" && Given(request.proposalId) {
        response := HandleProposalReview(request, oracle);
        return;
      }
      if intent == "MUTATION" {
        return NothingRecorded;
      }
      if intent == "ADMIN" {
        response := HandleCoapproval(request, oracle);
        return;
      }
      return Denied(Unsupported);
    }
  }

  // ----- CWO -----

  datatype CwoRequest = CwoRequest(
    intent: string, action: Option<string>, projectId: Option<string>, traceId: string,
    proposalId: Option<string>, approvalType: Option<string>, projectState: Option<string>,
    template: Option<string>, llmProfile: Option<string>, systemPromptPackage: Option<string>, overrideFlag: bool)

  /** Everything around a CWO request that can go one way or another. */
  datatype CwoOracle = CwoOracle(
    outcome: ReviewOutcome, draftFails: bool, reviewWriteFails: bool, ceo: CeoOracle,
    planFails: bool, bindFails: bool, charterFails: bool, coapprovalFails: bool)

  /** The id a proposal is submitted under: the given one, stripped, or project and trace joined as
      they are. */
  function ProposalId(request: CwoRequest, projectId: string): string {
    if OptionalStr(request.proposalId).Some? then OptionalStr(request.proposalId).value
    else projectId + "-" + request.traceId
  }

  function CeoRequestFor(request: CwoRequest, projectId: string, outcome: string): CeoRequest {
    CeoRequest("MUTATION", Some(ProposalId(request, projectId)), Some(outcome), Some(projectId), request.approvalType, request.overrideFlag)
  }

  function ProposalFlow(log: Log, request: CwoRequest, oracle: CwoOracle): (Log, Response) {
    var project := OptionalStr(request.projectId);
    if project.None? then (log, Denied(NoProject))
    else if oracle.draftFails then (log, Denied(Failed)) else
    var proposal := ProposalId(request, project.value);
    var log1 := CsoHandled(log, Some(proposal), project, oracle.outcome, oracle.reviewWriteFails);
    if !ValidProjectId(project.value) then (log1, Denied(InvalidProject)) else
    match CsoReviewOutcome(log1, project.value, proposal)
    case None => (log1, Denied(Gate006))
    case Some(outcome) => CeoHandled(log1, CeoRequestFor(request, project.value, outcome), oracle.ceo)
  }

  predicate ChainComplete(log: Log, projectId: string) {
    HasProjectReview(log, projectId) && HasCeoApproval(log, projectId)
  }

  /** The log after the initializer's own writes, and whether it got through. */
  function WorkforceInitialized(log: Log, projectId: string, oracle: CwoOracle): (Log, Response) {
    if !ChainComplete(log, projectId) then (log, Denied(ChainIncomplete)) else
    var plan, charter := PlainRecord(projectId, WorkforcePlan), PlainRecord(projectId, ProjectCharter);
    if WriteFails(log, plan, CWO_APPROVED, oracle.planFails) then (log, Denied(Failed)) else
    var log1 := log + [plan];
    if oracle.bindFails then (log1, Denied(Failed))
    else if exists r <- log1 :: r.kind == ProjectCharter && r.projectId == projectId then (log1, Recorded)
    else if WriteFails(log1, charter, CWO_APPROVED, oracle.charterFails) then (log1, Denied(Failed))
    else (log1 + [charter], Recorded)
  }

  function Initialized(log: Log, request: CwoRequest, oracle: CwoOracle): (Log, Response) {
    var project := OptionalStr(request.projectId);
    if project.None? then (log, Denied(NoProject))
    else if !ValidProjectId(project.value) then (log, Denied(InvalidProject))
    else if !HasCompletionReport(log, project.value) then (log, Denied(NoCompletionReport))
    else if OptionalStr(request.template).None? || OptionalStr(request.llmProfile).None? || OptionalStr(request.systemPromptPackage).None?
    then (log, Denied(MissingContext))
    else
      match WorkforceInitialized(log, project.value, oracle)
      case (log1, Denied(d)) => (log1, Denied(d))
      case (log1, _) =>
        CoapprovalWritten(log1, request, project.value, ApprovalType(request.approvalType, "project_completion"),
                          WorkforceInitialization, oracle)
  }

  function CoapprovalContext(request: CwoRequest): WriteContext {
    WriteContext("cwo", ApprovalType(request.projectState, "active"))
  }

  function CoapprovalWritten(log: Log, request: CwoRequest, projectId: string, approvalType: string, origin: Origin,
                             oracle: CwoOracle): (Log, Response) {
    var r, context := CoapprovalRecord(projectId, CwoCoapproval, approvalType, origin), CoapprovalContext(request);
    (Written(log, r, context, oracle.coapprovalFails),
     if WriteFails(log, r, context, oracle.coapprovalFails) then Denied(Failed) else Recorded)
  }

  function CwoCoapproved(log: Log, request: CwoRequest, oracle: CwoOracle): (Log, Response) {
    var project := OptionalStr(request.projectId);
    if project.None? then (log, Denied(NoProject))
    else if !ValidProjectId(project.value) then (log, Denied(InvalidProject)) else
    var approvalType := ApprovalType(request.approvalType, "controlled_doc_edit");
    if !HasCoapproval(log, CeoCoapproval, project.value, approvalType) then (log, Denied(Orch005))
    else CoapprovalWritten(log, request, project.value, approvalType, CoapprovalRequest, oracle)
  }

  function CwoHandled(log: Log, request: CwoRequest, oracle: CwoOracle): (Log, Response) {
    var intent, action := Upper(Strip(request.intent)), OptionalStr(request.action);
    if intent == "DISCUSSION" || intent == "QUERY" then (log, NothingRecorded)
    else if intent == "MUTATION" && action == Some("submit_proposal") then ProposalFlow(log, request, oracle)
    else if intent == "MUTATION" && action == Some("initialize_workforce") then Initialized(log, request, oracle)
    else if intent == "ADMIN" then CwoCoapproved(log, request, oracle)
    else (log, Denied(Unsupported))
  }

  class CwoAgent {
    const repository: PostgresGovernanceArtifactRepository
    const cso: CSOAgent
    const ceo: CeoAgent

    constructor (cso: CSOAgent, ceo: CeoAgent)
      requires cso.repository == ceo.repository
      ensures this.cso == cso && this.ceo == ceo && Valid()
    {
      this.repository, this.cso, this.ceo := cso.repository, cso, ceo;
    }

    /** All three agents work on one repository. */
    predicate Valid() {
      cso.repository == repository && ceo.repository == repository
    }

    method HandleProposalFlow(request: CwoRequest, oracle: CwoOracle) returns (response: Response)
      requires Valid()
      modifies repository
      ensures (repository.log, response) == ProposalFlow(old(repository.log), request, oracle)
    {
      hide CsoHandled, CsoReviewOutcome, CeoHandled, OptionalStr;
      var project := OptionalStr(request.projectId);
      if project.None? {
        return Denied(NoProject);
      }
      if oracle.draftFails {
        return Denied(Failed);
      }
      var proposal := ProposalId(request, project.value);
      cso.Handle(Some(proposal), project, oracle.outcome, oracle.reviewWriteFails);
      if !ValidProjectId(project.value) {
        return Denied(InvalidProject);
      }
      var outcome := repository.ReadCsoReviewOutcome(project.value, proposal);
      if outcome.None? {
        return Denied(Gate006);
      }
      response := ceo.Handle(CeoRequestFor(request, project.value, outcome.value), oracle.ceo);
    }

    /** `WorkforceInitializer.initialize`. The owner's co-approval is looked for, and its absence only
        noted. */
    method InitializeWorkforce(projectId: string, oracle: CwoOracle) returns (response: Response, proxyNoted: bool)
      modifies repository
      ensures proxyNoted <==> response != Denied(ChainIncomplete) && forall r <- old(repository.log) ::
        r.kind.DecisionLog? && r.projectId == projectId && r.eventType.Some? ==> Strip(r.eventType.value) != "owner_coapproval"
      ensures (repository.log, response) == WorkforceInitialized(old(repository.log), projectId, oracle)
    {
      hide Accepts, HasProjectReview, HasCeoApproval, Strip;
      proxyNoted := false;
      var reviewed := repository.FindProjectReview(projectId);
      var approved := repository.FindCeoApproval(projectId);
      if !reviewed || !approved {
        return Denied(ChainIncomplete), false;
      }
      var owned := repository.FindOwnerCoapproval(projectId);
      proxyNoted := !owned;
      var ok := repository.WriteProjectArtifact(PlainRecord(projectId, WorkforcePlan), CWO_APPROVED, oracle.planFails);
      if !ok || oracle.bindFails {
        return Denied(Failed), proxyNoted;
      }
      var chartered := repository.HasDocument(projectId, ProjectCharter);
      if !chartered {
        ok := repository.WriteProjectArtifact(PlainRecord(projectId, ProjectCharter), CWO_APPROVED, oracle.charterFails);
        if !ok {
          return Denied(Failed), proxyNoted;
        }
      }
      return Recorded, proxyNoted;
    }

    method WriteCoapproval(request: CwoRequest, projectId: string, approvalType: string, origin: Origin, oracle: CwoOracle)
      returns (response: Response)
      modifies repository
      ensures (repository.log, response) == CoapprovalWritten(old(repository.log), request, projectId, approvalType, origin, oracle)
    {
      hide Accepts, ApprovalType;
      var ok := repository.WriteProjectArtifact(
        CoapprovalRecord(projectId, CwoCoapproval, approvalType, origin), CoapprovalContext(request),
        oracle.coapprovalFails);
      return if ok then Recorded else Denied(Failed);
    }

    method HandleInitialization(request: CwoRequest, oracle: CwoOracle) returns (response: Response)
      modifies repository
      ensures (repository.log, response) == Initialized(old(repository.log), request, oracle)
    {
      hide WorkforceInitialized, CoapprovalWritten, OptionalStr, ApprovalType;
      var project := OptionalStr(request.projectId);
      if project.None? {
        return Denied(NoProject);
      }
      if !ValidProjectId(project.value) {
        return Denied(InvalidProject);
      }
      var reported := repository.HasDocument(project.value, CompletionReport);
      assert reported == HasCompletionReport(repository.log, project.value);
      if !reported {
        return Denied(NoCompletionReport);
      }
      if OptionalStr(request.template).None? || OptionalStr(request.llmProfile).None? || OptionalStr(request.systemPromptPackage).None? {
        return Denied(MissingContext);
      }
      var proxyNoted;
      response, proxyNoted := InitializeWorkforce(project.value, oracle);
      if response.Denied? {
        return;
      }
      response := WriteCoapproval(request, project.value, ApprovalType(request.approvalType, "project_completion"),
                                  WorkforceInitialization, oracle);
    }

    method HandleCoapproval(request: CwoRequest, oracle: CwoOracle) returns (response: Response)
      modifies repository
      ensures (repository.log, response) == CwoCoapproved(old(repository.log), request, oracle)
    {
      hide CoapprovalWritten, OptionalStr, HasCoapproval;
      var project := OptionalStr(request.projectId);
      if project.None? {
        return Denied(NoProject);
      }
      if !ValidProjectId(project.value) {
        return Denied(InvalidProject);
      }
      var approvalType := ApprovalType(request.approvalType, "controlled_doc_edit");
      var found := repository.FindCoapproval(CeoCoapproval, project.value, approvalType);
      if !found {
        return Denied(Orch005);
      }
      response := WriteCoapproval(request, project.value, approvalType, CoapprovalRequest, oracle);
    }

    method Handle(request: CwoRequest, oracle: CwoOracle) returns (response: Response)
      requires Valid()
      modifies repository
      ensures (repository.log, response) == CwoHandled(old(repository.log), request, oracle)
    {
      hide ProposalFlow, Initialized, CwoCoapproved, Strip, Upper, OptionalStr;
      var intent, action := Upper(Strip(request.intent)), OptionalStr(request.action);
      if intent == "DISCUSSION" || intent == "QUERY" {
        return NothingRecorded;
      }
      if intent == "MUTATION" && action == Some("submit_proposal") {
        response := HandleProposalFlow(request, oracle);
        return;
      }
      if intent == "MUTATION" && action == Some("initialize_workforce") {
        response := HandleInitialization(request, oracle);
        return;
      }
      if intent == "ADMIN" {
        response := HandleCoapproval(request, oracle);
        return;
      }
      return Denied(Unsupported);
    }
  }
}
