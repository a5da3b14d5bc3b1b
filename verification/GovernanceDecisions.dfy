/** What the CEO's decisions leave in the log, and what only an approval makes possible
    (agents/ceo/agent.py, agents/ceo/decision_writer.py, agents/cwo/workforce_initializer.py). */
module GovernanceDecisions {
  import opened PyText
  import opened GovernanceLog
  import opened GovernanceAgents
  import opened GovernanceRuns
  import opened Gate003

  /** A decision that is answered is recorded, once, as what it is; one that is refused leaves nothing. */
  lemma DecisionIsRecorded(log: Log, request: CeoRequest, oracle: CeoOracle)
    ensures var (after, response) := Reviewed(log, request, oracle);
      if response.Decided? then
        && response.decision == oracle.decision
        && |after| == |log| + 1 && after[..|log|] == log
        && var r := after[|log|];
        && r.kind == CeoProposalDecision && Some(r.projectId) == OptionalStr(request.projectId) && r.proposalId == request.proposalId
        && (r.decision == Some("approved") <==> response.decision == Approve)
        && (r.decision == Some("denied") <==> response.decision == Deny)
        && (r.decision == Some("needs_revision") <==> response.decision == Revise)
        && request.proposalId.Some? && r.revisionCycleCount == RevisionCycleCount(log, Strip(request.proposalId.value))
        && (request.csoReviewOutcome !in {None, Some("")} ==> r.csoReviewOutcome == request.csoReviewOutcome)
      else
        response.Denied? && after == log
  {
    hide Strip, OptionalStr, LastReview, DocumentsByType, RevisionCycleCount, Accepts;
    assert |"approved"| == 8 && |"denied"| == 6 && |"needs_revision"| == 14;
  }

  /** A review whose write succeeds is recorded as what it is. */
  lemma ReviewIsRecorded(log: Log, proposalId: string, projectId: string, outcome: ReviewOutcome)
    requires proposalId != "" && ValidProjectId(Strip(projectId)) && projectId != ""
    ensures var after := CsoHandled(log, Some(proposalId), Some(projectId), outcome, false);
      && |after| == |log| + 1 && after[..|log|] == log
      && var r := after[|log|];
      && r.kind == CsoReview && r.projectId == Strip(projectId) && r.proposalId == Some(proposalId) && IsReviewOf(r, proposalId)
      && (r.reviewOutcome == Some("Aligned") <==> outcome == Aligned)
      && (r.reviewOutcome == Some("Needs Revision") <==> outcome == NeedsRevision)
      && (r.reviewOutcome == Some("Strategic Conflict") <==> outcome == StrategicConflict)
  {
    hide Strip, Accepts, ValidProjectId, OptionalStr;
    ContextAccepted(log, ReviewRecord(Strip(projectId), proposalId, outcome), CEO_ACTIVE);
    ReviewIsReview(Strip(projectId), proposalId, outcome);
    assert |"Aligned"| == 7 && |"Needs Revision"| == 14 && |"Strategic Conflict"| == 18;
  }

  // ----- the CEO's gates, by what the log holds -----

  /** A review of the proposal that counts: its event type is absent, blank or the right one. */
  predicate Counts(r: Record, proposal: string) {
    && r.kind.CsoReview? && r.proposalId == Some(proposal)
    && (r.eventType.None? || Strip(r.eventType.value) in {"", "cso_review_outcome"})
  }

  lemma CountsIsReview(r: Record, proposal: string)
    ensures IsReviewOf(r, proposal) <==> Counts(r, proposal)
  {
    hide Strip;
  }

  /** The i-th record is the youngest review of the proposal, in whichever project. */
  ghost predicate YoungestReview(log: Log, i: nat, proposal: string) {
    i < |log| && Counts(log[i], proposal) && forall j | i < j < |log| :: !Counts(log[j], proposal)
  }

  lemma {:induction false} YoungestIsLast(log: Log, proposal: string)
    ensures var last := LastReview(DocumentsByType(log, CsoReview), proposal);
      && (last.None? <==> forall r <- log :: !Counts(r, proposal))
      && (last.Some? ==> exists i: nat :: YoungestReview(log, i, proposal) && log[i] == last.value)
  {
    hide Counts, IsReviewEvent;
    if log != [] {
      var init, r := log[..|log| - 1], log[|log| - 1];
      assert log == init + [r];
      YoungestIsLast(init, proposal);
      DocumentsOfAppend(init, r, "", CsoReview);
      CountsIsReview(r, proposal);
      LastOfAppend(DocumentsByType(init, CsoReview), r, proposal);
      if Counts(r, proposal) {
        assert YoungestReview(log, |log| - 1, proposal);
      } else if LastReview(DocumentsByType(init, CsoReview), proposal).Some? {
        var i: nat :| YoungestReview(init, i, proposal) && init[i] == LastReview(DocumentsByType(init, CsoReview), proposal).value;
        assert YoungestReview(log, i, proposal);
      }
    }
  }

  lemma LastOfAppend(documents: Log, r: Record, proposal: string)
    ensures LastReview(documents + [r], proposal) ==
      if r.proposalId == Some(proposal) && IsReviewEvent(r) then Some(r) else LastReview(documents, proposal)
  {
    hide IsReviewEvent;
    assert (documents + [r])[..|documents|] == documents;
  }

  /** GATE-005: refused exactly without any review of the proposal. */
  lemma Gate005Iff(log: Log, request: CeoRequest, oracle: CeoOracle)
    ensures Reviewed(log, request, oracle).1 == Denied(Gate005) <==>
      request.proposalId.None? || Strip(request.proposalId.value) == ""
      || forall r <- log :: !Counts(r, Strip(request.proposalId.value))
  {
    hide Strip, OptionalStr, LastReview, DocumentsByType, RevisionCycleCount, Accepts, Counts;
    if request.proposalId.Some? {
      YoungestIsLast(log, Strip(request.proposalId.value));
    }
  }

  /** GATE-003: refused exactly when nothing overrides, three cycles have gone by, and the outcome is a
      strategic conflict: the one the request names, or, if it names none, that of the youngest review. */
  lemma Gate003Iff(log: Log, request: CeoRequest, oracle: CeoOracle)
    requires request.proposalId.Some? && Strip(request.proposalId.value) != ""
    ensures var proposal := Strip(request.proposalId.value);
      Reviewed(log, request, oracle).1 == Denied(Gate003) <==>
        && !request.overrideFlag && RevisionCycleCount(log, proposal) >= 3
        && exists i: nat :: YoungestReview(log, i, proposal) &&
             (if request.csoReviewOutcome in {None, Some("")}
              then log[i].reviewOutcome.Some? && Strip(log[i].reviewOutcome.value) == "Strategic Conflict"
              else request.csoReviewOutcome == Some("Strategic Conflict"))
  {
    hide Strip, LastReview, DocumentsByType, RevisionCycleCount, Accepts, Counts;
    var proposal := Strip(request.proposalId.value);
    YoungestIsLast(log, proposal);
    forall i: nat, j: nat | YoungestReview(log, i, proposal) && YoungestReview(log, j, proposal)
      ensures i == j
    {
    }
  }

  /** Talk changes nothing: the CEO's records are written on a mutation that names a proposal or on an admin
      request, the CWO's on a submission, an initialization or an admin request. */
  lemma TalkRecordsNothing(log: Log, ceoRequest: CeoRequest, ceoOracle: CeoOracle, cwoRequest: CwoRequest, cwoOracle: CwoOracle)
    ensures var intent := Upper(Strip(ceoRequest.intent));
      CeoHandled(log, ceoRequest, ceoOracle).0 != log ==>
        (intent == "MUTATION" && ceoRequest.proposalId !in {None, Some("")}) || intent == "ADMIN"
    ensures var intent := Upper(Strip(cwoRequest.intent));
      CwoHandled(log, cwoRequest, cwoOracle).0 != log ==>
        || (intent == "MUTATION" && cwoRequest.action.Some? && Strip(cwoRequest.action.value) in {"submit_proposal", "initialize_workforce"})
        || intent == "ADMIN"
  {
    hide Upper, Strip, Reviewed, CeoCoapproved, ProposalFlow, Initialized, CwoCoapproved;
  }

  // ----- only an approval approves -----

  /** What a request is answered. */
  function Answer(log: Log, request: Request): Response {
    match request
    case ToCeo(r, oracle) => CeoHandled(log, r, oracle).1
    case ToCwo(r, oracle) => CwoHandled(log, r, oracle).1
    case _ => NothingRecorded
  }

  predicate Concerns(request: Request, projectId: string) {
    || (request.ToCeo? && OptionalStr(request.ceoRequest.projectId) == Some(projectId))
    || (request.ToCwo? && OptionalStr(request.cwoRequest.projectId) == Some(projectId))
  }

  /** The n-th request of the session is one for this project that the CEO answers with an approval. */
  predicate ApprovedBy(requests: seq<Request>, n: nat, projectId: string) {
    n < |requests| && Concerns(requests[n], projectId) && Answer(Session(requests[..n]), requests[n]) == Decided(Approve)
  }

  lemma ApprovalOfAppend(log: Log, r: Record, projectId: string)
    ensures HasCeoApproval(log + [r], projectId) <==>
      HasCeoApproval(log, projectId) || (r.kind.CeoProposalDecision? && r.projectId == projectId && r.decision == Some("approved"))
  {
    assert forall x :: x in log + [r] <==> x in log || x == r;
  }

  lemma WrittenApproval(log: Log, r: Record, context: WriteContext, faulty: bool, projectId: string)
    requires !r.kind.CeoProposalDecision?
    ensures HasCeoApproval(Written(log, r, context, faulty), projectId) == HasCeoApproval(log, projectId)
  {
    hide HasCeoApproval, Accepts;
    ApprovalOfAppend(log, r, projectId);
  }

  lemma CsoApprovesNothing(log: Log, proposalId: Option<string>, project: Option<string>, outcome: ReviewOutcome, fails: bool, projectId: string)
    ensures HasCeoApproval(CsoHandled(log, proposalId, project, outcome, fails), projectId) == HasCeoApproval(log, projectId)
  {
    hide HasCeoApproval, Accepts, Strip;
    if Given(proposalId) && Given(project) {
      WrittenApproval(log, ReviewRecord(Strip(project.value), proposalId.value, outcome), CEO_ACTIVE, fails, projectId);
    }
  }

  lemma ReviewedApproves(log: Log, request: CeoRequest, oracle: CeoOracle, projectId: string)
    ensures var (after, response) := Reviewed(log, request, oracle);
      HasCeoApproval(after, projectId) <==>
        HasCeoApproval(log, projectId) || (OptionalStr(request.projectId) == Some(projectId) && response == Decided(Approve))
  {
    hide HasCeoApproval, Reviewed, OptionalStr;
    DecisionIsRecorded(log, request, oracle);
    var (after, response) := Reviewed(log, request, oracle);
    if response.Decided? {
      assert after == log + [after[|log|]];
      ApprovalOfAppend(log, after[|log|], projectId);
    }
  }

  lemma CeoApproves(log: Log, request: CeoRequest, oracle: CeoOracle, projectId: string)
    ensures var (after, response) := CeoHandled(log, request, oracle);
      HasCeoApproval(after, projectId) <==>
        HasCeoApproval(log, projectId) || (OptionalStr(request.projectId) == Some(projectId) && response == Decided(Approve))
  {
    hide HasCeoApproval, Reviewed, OptionalStr, HasCoapproval, Accepts, Upper, Strip, ValidProjectId;
    ReviewedApproves(log, request, oracle, projectId);
    if OptionalStr(request.projectId).Some? {
      WrittenApproval(log, CoapprovalRecord(OptionalStr(request.projectId).value, CeoCoapproval,
                                            ApprovalType(request.approvalType, "controlled_doc_edit"), CoapprovalRequest),
                      CEO_ACTIVE, oracle.writeFails, projectId);
    }
  }

  lemma FlowApproves(log: Log, request: CwoRequest, oracle: CwoOracle, projectId: string)
    ensures var (after, response) := ProposalFlow(log, request, oracle);
      HasCeoApproval(after, projectId) <==>
        HasCeoApproval(log, projectId) || (OptionalStr(request.projectId) == Some(projectId) && response == Decided(Approve))
  {
    hide HasCeoApproval, OptionalStr, CsoHandled, CeoHandled, CsoReviewOutcome, ValidProjectId, ProposalId;
    if OptionalStr(request.projectId).Some? {
      var project := OptionalStr(request.projectId).value;
      var proposal := ProposalId(request, project);
      CsoApprovesNothing(log, Some(proposal), Some(project), oracle.outcome, oracle.reviewWriteFails, projectId);
      var log1 := CsoHandled(log, Some(proposal), Some(project), oracle.outcome, oracle.reviewWriteFails);
      if CsoReviewOutcome(log1, project, proposal).Some? {
        StrippedStays(request.projectId);
        CeoApproves(log1, CeoRequestFor(request, project, CsoReviewOutcome(log1, project, proposal).value), oracle.ceo, projectId);
      }
    }
  }

  lemma StrippedStays(value: Option<string>)
    ensures OptionalStr(OptionalStr(value)) == OptionalStr(value)
  {
    OptionalStrIsStripped(value);
    hide Strip;
  }

  lemma InitializationApprovesNothing(log: Log, request: CwoRequest, oracle: CwoOracle, projectId: string)
    ensures HasCeoApproval(Initialized(log, request, oracle).0, projectId) == HasCeoApproval(log, projectId)
    ensures !Initialized(log, request, oracle).1.Decided?
  {
    hide HasCeoApproval, OptionalStr, Accepts, ValidProjectId, HasCompletionReport, HasProjectReview, Strip;
    if OptionalStr(request.projectId).Some? {
      var project := OptionalStr(request.projectId).value;
      var plan, charter := PlainRecord(project, WorkforcePlan), PlainRecord(project, ProjectCharter);
      ApprovalOfAppend(log, plan, projectId);
      ApprovalOfAppend(log + [plan], charter, projectId);
      var r := CoapprovalRecord(project, CwoCoapproval, ApprovalType(request.approvalType, "project_completion"), WorkforceInitialization);
      WrittenApproval(log + [plan], r, CoapprovalContext(request), oracle.coapprovalFails, projectId);
      WrittenApproval(log + [plan] + [charter], r, CoapprovalContext(request), oracle.coapprovalFails, projectId);
    }
  }

  lemma CwoApproves(log: Log, request: CwoRequest, oracle: CwoOracle, projectId: string)
    ensures var (after, response) := CwoHandled(log, request, oracle);
      HasCeoApproval(after, projectId) <==>
        HasCeoApproval(log, projectId) || (OptionalStr(request.projectId) == Some(projectId) && response == Decided(Approve))
  {
    hide HasCeoApproval, OptionalStr, ProposalFlow, Initialized, HasCoapproval, Accepts, Upper, Strip, ValidProjectId;
    FlowApproves(log, request, oracle, projectId);
    InitializationApprovesNothing(log, request, oracle, projectId);
    if OptionalStr(request.projectId).Some? {
      WrittenApproval(log, CoapprovalRecord(OptionalStr(request.projectId).value, CwoCoapproval,
                                            ApprovalType(request.approvalType, "controlled_doc_edit"), CoapprovalRequest),
                      CoapprovalContext(request), oracle.coapprovalFails, projectId);
    }
  }

  lemma RequestApproves(log: Log, request: Request, projectId: string)
    ensures HasCeoApproval(Handled(log, request), projectId) <==>
      HasCeoApproval(log, projectId) || (Concerns(request, projectId) && Answer(log, request) == Decided(Approve))
  {
    hide HasCeoApproval, OptionalStr, CsoHandled, CeoHandled, CwoHandled, Written;
    match request
    case ToCso(proposalId, project, outcome, fails) => CsoApprovesNothing(log, proposalId, project, outcome, fails, projectId);
    case ToCeo(r, oracle) => CeoApproves(log, r, oracle, projectId);
    case ToCwo(r, oracle) => CwoApproves(log, r, oracle, projectId);
    case OtherDocument(r, context, faulty) =>
      if !IsApprovalRecord(r.kind) {
        WrittenApproval(log, r, context, faulty, projectId);
      }
  }

  /** The log of a session holds a CEO approval of a project exactly if the CEO answered some request
      for that project with an approval. A denial or a request for revision never counts as one. */
  lemma {:induction false} ApprovalIff(requests: seq<Request>, projectId: string)
    ensures HasCeoApproval(Session(requests), projectId) <==> exists n: nat :: ApprovedBy(requests, n, projectId)
  {
    hide HasCeoApproval, Concerns, Answer, Handled;
    if requests == [] {
      NothingApproved(projectId);
    } else {
      var last := |requests| - 1;
      var init := requests[..last];
      ApprovalIff(init, projectId);
      RequestApproves(Session(init), requests[last], projectId);
      assert ApprovedBy(requests, last, projectId) <==>
        Concerns(requests[last], projectId) && Answer(Session(init), requests[last]) == Decided(Approve);
      assert forall n: nat | n < last :: requests[..n] == init[..n];
      assert forall n: nat | n < last :: ApprovedBy(requests, n, projectId) <==> ApprovedBy(init, n, projectId);
      if HasCeoApproval(Session(init), projectId) {
        var n: nat :| ApprovedBy(init, n, projectId);
        assert ApprovedBy(requests, n, projectId);
      }
    }
  }

  lemma NothingApproved(projectId: string)
    ensures !HasCeoApproval([], projectId)
  {
  }

  /** And so every co-approval of a project, whoever gives it and for whatever, has such an answer
      behind it. */
  lemma CoapprovalsNeedApproval(requests: seq<Request>, i: nat)
    requires i < |Session(requests)|
    requires Session(requests)[i].kind == CeoCoapproval || Session(requests)[i].kind == CwoCoapproval
    ensures exists n: nat :: ApprovedBy(requests, n, Session(requests)[i].projectId)
  {
    hide Session, ReviewedBefore, ApprovedBy;
    var log := Session(requests);
    ProvenanceInEverySession(requests, i);
    var j :| j <= i && Founded(log, j, log[i].projectId, log[i].approvalType.value);
    var c :| 0 <= c < j && ApprovedDecision(log, c, log[i].projectId);
    assert log[c] in log;
    ApprovalIff(requests, log[i].projectId);
  }

  // ----- and with one, the whole chain can be walked -----

  const CALM := CwoOracle(Aligned, false, false, CeoOracle(Approve, false, false), false, false, false, false)

  function FromCwo(intent: string, action: Option<string>, projectId: string, approvalType: Option<string>): Request {
    ToCwo(CwoRequest(intent, action, Some(projectId), "t", None, approvalType, None, Some("template"), Some("profile"), Some("package"), false),
          CALM)
  }

  function FromCeo(projectId: string, approvalType: Option<string>): Request {
    ToCeo(CeoRequest("ADMIN", None, None, Some(projectId), approvalType, false), CALM.ceo)
  }

  /** A completion report, a proposal, the initialization, and the two co-approvals. */
  function Walk(projectId: string): seq<Request> {
    [OtherDocument(PlainRecord(projectId, CompletionReport), CEO_ACTIVE, false),
     FromCwo("MUTATION", Some("submit_proposal"), projectId, None),
     FromCwo("MUTATION", Some("initialize_workforce"), projectId, None),
     FromCeo(projectId, Some("project_completion")),
     FromCwo("ADMIN", None, projectId, Some("project_completion"))]
  }

  lemma WordsStay(word: string)
    requires word != "" && IsLetter(word[0]) && IsLetter(word[|word| - 1])
    ensures OptionalStr(Some(word)) == Some(word)
  {
    StripOfWord(word);
    hide Strip;
  }

  lemma CapitalsStay(word: string)
    requires word != "" && forall i | 0 <= i < |word| :: 'A' <= word[i] <= 'Z'
    ensures Upper(Strip(word)) == word
  {
    StripOfWord(word);
    UpperOfCapitals(word);
    hide Strip, Upper;
  }

  lemma Intents()
    ensures Upper(Strip("MUTATION")) == "MUTATION" && Upper(Strip("ADMIN")) == "ADMIN"
    ensures "MUTATION" !in {"DISCUSSION", "QUERY"} && "ADMIN" !in {"DISCUSSION", "QUERY", "MUTATION"}
  {
    hide Strip, Upper;
    CapitalsStay("MUTATION");
    CapitalsStay("ADMIN");
    assert |"MUTATION"| == 8 && |"ADMIN"| == 5 && |"DISCUSSION"| == 10 && |"QUERY"| == 5 && "ADMIN"[0] != "QUERY"[0];
  }

  lemma ProjectStays(projectId: string)
    requires ValidProjectId(projectId)
    ensures OptionalStr(Some(projectId)) == Some(projectId)
  {
    ProjectIdIsStripped(projectId);
    hide Strip, ValidProjectId;
  }

  /** A co-approval is asked of the CEO in vain only for lack of the CWO's, or because model or store fail.
      Without a type given it is for controlled documents. */
  lemma CeoCoapprovalIff(log: Log, intent: string, projectId: string, approvalType: Option<string>, oracle: CeoOracle)
    requires ValidProjectId(projectId) && Upper(Strip(intent)) == "ADMIN"
    ensures var kind := if OptionalStr(approvalType).Some? then OptionalStr(approvalType).value else "controlled_doc_edit";
      var (after, response) := CeoHandled(log, CeoRequest(intent, None, None, Some(projectId), approvalType, false), oracle);
      if HasCoapproval(log, CwoCoapproval, projectId, kind) && !oracle.modelFails && !oracle.writeFails
      then response == Recorded && after == log + [CoapprovalRecord(projectId, CeoCoapproval, kind, CoapprovalRequest)]
      else response.Denied? && after == log
  {
    hide Strip, Upper, OptionalStr, HasCoapproval, ValidProjectId, Accepts;
    Intents();
    ProjectStays(projectId);
    ContextAccepted(log, CoapprovalRecord(projectId, CeoCoapproval, ApprovalType(approvalType, "controlled_doc_edit"), CoapprovalRequest),
                    CEO_ACTIVE);
  }

  lemma CwoMayWrite(log: Log, projectId: string, approvalType: string, origin: Origin)
    requires ValidProjectId(projectId)
    ensures Accepts(log, CoapprovalRecord(projectId, CwoCoapproval, approvalType, origin), WriteContext("cwo", "active"))
  {
    hide Strip, Lower, ValidProjectId;
    StripOfWord("cwo");
    StripOfWord("active");
    LowerOfSmall("cwo");
    LowerOfSmall("active");
    assert |"cwo"| != |"project_manager"|;
  }

  /** The same of the CWO, for a project that is active. */
  lemma CwoCoapprovalIff(log: Log, intent: string, projectId: string, approvalType: Option<string>)
    requires ValidProjectId(projectId) && Upper(Strip(intent)) == "ADMIN"
    ensures var kind := if OptionalStr(approvalType).Some? then OptionalStr(approvalType).value else "controlled_doc_edit";
      var (after, response) := CwoHandled(log, FromCwo(intent, None, projectId, approvalType).cwoRequest, CALM);
      if HasCoapproval(log, CeoCoapproval, projectId, kind)
      then response == Recorded && after == log + [CoapprovalRecord(projectId, CwoCoapproval, kind, CoapprovalRequest)]
      else response == Denied(Orch005) && after == log
  {
    hide Strip, Upper, OptionalStr, HasCoapproval, ValidProjectId, Accepts;
    Intents();
    ProjectStays(projectId);
    NothingGiven();
    CwoMayWrite(log, projectId, ApprovalType(approvalType, "controlled_doc_edit"), CoapprovalRequest);
  }

  lemma NothingGiven()
    ensures OptionalStr(None) == None
  {
  }

  function Proposal(projectId: string): string {
    projectId + "-" + "t"
  }

  function Decision(log: Log, projectId: string): Record {
    DecisionRecord(projectId, Proposal(projectId), Approve, Some("Aligned"),
                   RevisionCycleCount(log + [ReviewRecord(projectId, Proposal(projectId), Aligned)], Proposal(projectId)))
  }

  /** A proposal whose review is harmless, or whose conflict is overridden, gets as far as the model's
      decision, however often it has been revised. */
  lemma FlowIsDecided(log: Log, request: CwoRequest, oracle: CwoOracle)
    requires OptionalStr(request.projectId).Some? && ValidProjectId(OptionalStr(request.projectId).value)
    requires !oracle.draftFails && !oracle.reviewWriteFails && !oracle.ceo.modelFails && !oracle.ceo.writeFails
    requires oracle.outcome != StrategicConflict || request.overrideFlag
    requires var d := ProposalId(request, OptionalStr(request.projectId).value); Strip(d) == d
    ensures var project := OptionalStr(request.projectId).value;
      var d := ProposalId(request, project);
      var log1 := log + [ReviewRecord(project, d, oracle.outcome)];
      ProposalFlow(log, request, oracle) ==
        (log1 + [DecisionRecord(project, d, oracle.ceo.decision, Some(OutcomeText(oracle.outcome)), RevisionCycleCount(log1, d))],
         Decided(oracle.ceo.decision))
  {
    hide Strip, RStrip, Upper, OptionalStr, ValidProjectId, Accepts, ProposalFlow, HasReview, LastReview, DocumentsByType,
         RevisionCycleCount, ProposalId;
    var project := OptionalStr(request.projectId).value;
    var d := ProposalId(request, project);
    var log1 := log + [ReviewRecord(project, d, oracle.outcome)];
    StrippedStays(request.projectId);
    ProposalIdGiven(request, project);
    FlowIsSubmitted(log, request, oracle);
    ReviewIsReview(project, d, oracle.outcome);
    HasReviewOf(log1, |log|, d);
    ReviewIsFound(log1, d);
    OutcomesDiffer(oracle.outcome);
    ContextAccepted(log1, DecisionRecord(project, d, oracle.ceo.decision, Some(OutcomeText(oracle.outcome)), RevisionCycleCount(log1, d)),
                    CEO_PROPOSED);
  }

  /** GATE-006: without a review to read back the CEO is not asked, and nothing is recorded. */
  lemma UnreviewedIsDenied(log: Log, request: CwoRequest, oracle: CwoOracle)
    requires OptionalStr(request.projectId).Some? && ValidProjectId(OptionalStr(request.projectId).value)
    requires !oracle.draftFails && oracle.reviewWriteFails
    requires var project := OptionalStr(request.projectId).value;
      forall r <- log :: r.projectId == project ==> !Counts(r, ProposalId(request, project))
    ensures ProposalFlow(log, request, oracle) == (log, Denied(Gate006))
  {
    hide Strip, OptionalStr, ValidProjectId, Accepts, Documents, Counts, CeoHandled, ProposalId;
    var project := OptionalStr(request.projectId).value;
    var d := ProposalId(request, project);
    DocumentsMembers(log, project, CsoReview);
    forall r | r in Documents(log, project, CsoReview)
      ensures !IsReviewOf(r, d)
    {
      CountsIsReview(r, d);
    }
  }

  /** What an initialization is refused for: first the completion report, then template, model profile and
      prompt package, then a review and an approved decision of the project. */
  lemma InitializationRefusals(log: Log, request: CwoRequest, oracle: CwoOracle, projectId: string)
    requires OptionalStr(request.projectId) == Some(projectId) && ValidProjectId(projectId)
    ensures var (after, response) := Initialized(log, request, oracle);
      var reported := exists r <- log :: r.kind.CompletionReport? && r.projectId == projectId;
      var bare := OptionalStr(request.template).None? || OptionalStr(request.llmProfile).None? || OptionalStr(request.systemPromptPackage).None?;
      var chained :=
        && (exists r <- log :: r.projectId == projectId && r.kind.CsoReview? && IsReviewEvent(r))
        && (exists r <- log :: r.projectId == projectId && r.kind.CeoProposalDecision? && r.decision == Some("approved"));
      && (response == Denied(NoCompletionReport) <==> !reported)
      && (response == Denied(MissingContext) <==> reported && bare)
      && (response == Denied(ChainIncomplete) <==> reported && !bare && !chained)
      && (!reported || bare || !chained ==> after == log)
  {
    hide OptionalStr, ValidProjectId, Accepts, IsReviewEvent;
  }

  lemma AlignedIsDecided(log: Log, projectId: string)
    requires ValidProjectId(projectId)
    ensures CwoHandled(log, FromCwo("MUTATION", Some("submit_proposal"), projectId, None).cwoRequest, CALM)
         == (log + [ReviewRecord(projectId, Proposal(projectId), Aligned)] + [Decision(log, projectId)], Decided(Approve))
  {
    hide Strip, RStrip, Upper, OptionalStr, ValidProjectId, Accepts, ProposalFlow, RevisionCycleCount;
    Intents();
    ProjectStays(projectId);
    NothingGiven();
    WordsStay("submit_proposal");
    OneLetterStays();
    MadeUpIdIsStripped(projectId, "t");
    FlowIsDecided(log, FromCwo("MUTATION", Some("submit_proposal"), projectId, None).cwoRequest, CALM);
  }

  lemma OneLetterStays()
    ensures RStrip("t") == "t"
  {
  }

  lemma HasReviewOf(log: Log, i: nat, proposal: string)
    requires i < |log| && IsReviewOf(log[i], proposal)
    ensures HasReview(log, proposal)
  {
    hide IsReviewOf;
  }

  /** The initialization goes through wherever the chain is complete and two places are left. */
  lemma CompleteChainInitializes(log: Log, projectId: string)
    requires ValidProjectId(projectId) && HasCompletionReport(log, projectId) && ChainComplete(log, projectId)
    requires CountOf(log, projectId) <= 18
    requires Documents(log, projectId, WorkforcePlan) == [] && Documents(log, projectId, ProjectCharter) == []
    ensures CwoHandled(log, FromCwo("MUTATION", Some("initialize_workforce"), projectId, None).cwoRequest, CALM)
         == (log + [PlainRecord(projectId, WorkforcePlan)] + [PlainRecord(projectId, ProjectCharter)]
             + [CoapprovalRecord(projectId, CwoCoapproval, "project_completion", WorkforceInitialization)], Recorded)
  {
    hide Strip, Upper, OptionalStr, ValidProjectId, Accepts, HasCompletionReport, ChainComplete, CountOf, Documents;
    var plan, charter := PlainRecord(projectId, WorkforcePlan), PlainRecord(projectId, ProjectCharter);
    Intents();
    ProjectStays(projectId);
    NothingGiven();
    WordsStay("initialize_workforce");
    WordsStay("template");
    WordsStay("profile");
    WordsStay("package");
    assert |"submit_proposal"| != |"initialize_workforce"|;
    RoomDecides(log, plan);
    PlanTakesPlace(log, projectId);
    RoomDecides(log + [plan], charter);
    CwoMayWrite(log + [plan] + [charter], projectId, "project_completion", WorkforceInitialization);
  }

  lemma ReportIsTaken(projectId: string)
    requires ValidProjectId(projectId)
    ensures Handled([], Walk(projectId)[0]) == [PlainRecord(projectId, CompletionReport)]
  {
    hide ValidProjectId, Strip, Lower;
    StripOfWord("ceo");
    StripOfWord("active");
    LowerOfSmall("ceo");
    LowerOfSmall("active");
    assert |"ceo"| != |"project_manager"|;
  }

  lemma ProposalCompletesChain(projectId: string)
    ensures var report := PlainRecord(projectId, CompletionReport);
      var log := [report] + [ReviewRecord(projectId, Proposal(projectId), Aligned)] + [Decision([report], projectId)];
      && HasCompletionReport(log, projectId) && ChainComplete(log, projectId) && CountOf(log, projectId) == 3
      && Documents(log, projectId, WorkforcePlan) == [] && Documents(log, projectId, ProjectCharter) == []
  {
    hide OptionalStr, RevisionCycleCount;
    var report := PlainRecord(projectId, CompletionReport);
    var review, decision := ReviewRecord(projectId, Proposal(projectId), Aligned), Decision([report], projectId);
    var log := [report] + [review] + [decision];
    ReviewIsReview(projectId, Proposal(projectId), Aligned);
    assert log[0] == report && log[1] == review && log[2] == decision;
    CountOfConcat([report] + [review], [decision], projectId);
    CountOfConcat([report], [review], projectId);
    CountOfOne(report, projectId);
    CountOfOne(review, projectId);
    CountOfOne(decision, projectId);
    hide CountOf, Documents;
    NoDocuments(log, projectId, WorkforcePlan);
    NoDocuments(log, projectId, ProjectCharter);
  }

  lemma {:induction false} NoDocuments(log: Log, projectId: string, kind: Kind)
    requires forall r <- log :: r.kind != kind
    ensures Documents(log, projectId, kind) == []
  {
    if log != [] {
      NoDocuments(log[..|log| - 1], projectId, kind);
    }
  }

  /** From an empty log the walk goes through to the end, for every project. */
  lemma ChainCanBeWalked(projectId: string)
    requires ValidProjectId(projectId)
    ensures var walk := Walk(projectId);
      && Answer(Session(walk[..1]), walk[1]) == Decided(Approve)
      && Answer(Session(walk[..2]), walk[2]) == Recorded
      && Answer(Session(walk[..3]), walk[3]) == Recorded
      && Answer(Session(walk[..4]), walk[4]) == Recorded
  {
    hide *;
    var walk := Walk(projectId);
    WalkOneMore(projectId, 0);
    WalkOneMore(projectId, 1);
    WalkOneMore(projectId, 2);
    WalkOneMore(projectId, 3);
    WalkIs(projectId);
    ReportIsTaken(projectId);
    AlignedIsDecided([PlainRecord(projectId, CompletionReport)], projectId);
    ProposalCompletesChain(projectId);
    CompleteChainInitializes(Session(walk[..2]), projectId);
    TypeStays();
    CoapprovalIsThere(Session(walk[..3]), CwoCoapproval, projectId, WorkforceInitialization);
    Intents();
    CeoCoapprovalIff(Session(walk[..3]), "ADMIN", projectId, Some("project_completion"), CALM.ceo);
    CoapprovalIsThere(Session(walk[..4]), CeoCoapproval, projectId, CoapprovalRequest);
    CwoCoapprovalIff(Session(walk[..4]), "ADMIN", projectId, Some("project_completion"));
  }

  lemma TypeStays()
    ensures OptionalStr(Some("project_completion")) == Some("project_completion")
  {
    WordsStay("project_completion");
    hide OptionalStr;
  }

  lemma WalkOneMore(projectId: string, n: nat)
    requires n < 5
    ensures |Walk(projectId)| == 5 && Session([]) == []
    ensures Session(Walk(projectId)[..n + 1]) == Handled(Session(Walk(projectId)[..n]), Walk(projectId)[n])
    ensures Walk(projectId)[..0] == []
  {
    hide Handled;
    assert Walk(projectId)[..n + 1][..n] == Walk(projectId)[..n];
  }

  lemma WalkIs(projectId: string)
    ensures var walk := Walk(projectId);
      && |walk| == 5 && !CALM.ceo.modelFails && !CALM.ceo.writeFails
      && forall log ::
        && (Handled(log, walk[1]), Answer(log, walk[1])) == CwoHandled(log, FromCwo("MUTATION", Some("submit_proposal"), projectId, None).cwoRequest, CALM)
        && (Handled(log, walk[2]), Answer(log, walk[2])) == CwoHandled(log, FromCwo("MUTATION", Some("initialize_workforce"), projectId, None).cwoRequest, CALM)
        && (Handled(log, walk[3]), Answer(log, walk[3])) ==
             CeoHandled(log, CeoRequest("ADMIN", None, None, Some(projectId), Some("project_completion"), false), CALM.ceo)
        && (Handled(log, walk[4]), Answer(log, walk[4])) == CwoHandled(log, FromCwo("ADMIN", None, projectId, Some("project_completion")).cwoRequest, CALM)
  {
    hide CwoHandled, CeoHandled;
  }

  lemma CoapprovalIsThere(log: Log, kind: Kind, projectId: string, origin: Origin)
    requires kind.CeoCoapproval? || kind.CwoCoapproval?
    requires log != [] && log[|log| - 1] == CoapprovalRecord(projectId, kind, "project_completion", origin)
    ensures HasCoapproval(log, kind, projectId, "project_completion")
  {
  }

  /** An initialization that goes through adds one workforce plan, and a charter only to a project that
      has none. */
  lemma CharterIsWrittenOnce(log: Log, projectId: string, oracle: CwoOracle)
    requires WorkforceInitialized(log, projectId, oracle).1 == Recorded
    ensures var after := WorkforceInitialized(log, projectId, oracle).0;
      && |Documents(after, projectId, WorkforcePlan)| == |Documents(log, projectId, WorkforcePlan)| + 1
      && |Documents(after, projectId, ProjectCharter)| ==
           if Documents(log, projectId, ProjectCharter) == [] then 1 else |Documents(log, projectId, ProjectCharter)|
  {
    hide Accepts, ChainComplete, Documents;
    var plan, charter := PlainRecord(projectId, WorkforcePlan), PlainRecord(projectId, ProjectCharter);
    DocumentsOfAppend(log, plan, projectId, WorkforcePlan);
    DocumentsOfAppend(log, plan, projectId, ProjectCharter);
    DocumentsOfAppend(log + [plan], charter, projectId, WorkforcePlan);
    DocumentsOfAppend(log + [plan], charter, projectId, ProjectCharter);
    DocumentsMembers(log + [plan], projectId, ProjectCharter);
    var documents := Documents(log + [plan], projectId, ProjectCharter);
    assert (exists r <- log + [plan] :: r.kind == ProjectCharter && r.projectId == projectId) <==> documents != [] by {
      if documents != [] {
        assert documents[0] in documents;
      }
    }
  }
}
