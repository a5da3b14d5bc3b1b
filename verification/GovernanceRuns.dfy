/** Where co-approvals come from, in every interleaving of the agents' requests (agents/cwo/agent.py,
    agents/ceo/agent.py, agents/cwo/workforce_initializer.py). */
module GovernanceRuns {
  import opened PyText
  import opened GovernanceLog
  import opened GovernanceAgents

  /** The evidence a handler has seen before it appends r, when it reads the given log. The approval
      record types are written by the agents alone; everything else anyone may write. */
  predicate Evidence(seen: Log, r: Record) {
    match r.kind
    case CeoProposalDecision => r.proposalId.Some? && HasReview(seen, Strip(r.proposalId.value))
    case CeoCoapproval => r.approvalType.Some? && HasCoapproval(seen, CwoCoapproval, r.projectId, r.approvalType.value)
    case CwoCoapproval =>
      && r.approvalType.Some?
      && (if r.origin == WorkforceInitialization
          then HasCompletionReport(seen, r.projectId) && ChainComplete(seen, r.projectId)
          else HasCoapproval(seen, CeoCoapproval, r.projectId, r.approvalType.value))
    case _ => true
  }

  lemma EvidenceLasts(seen: Log, later: Log, r: Record)
    requires Evidence(seen, r) && seen <= later
    ensures Evidence(later, r)
  {
    hide Strip;
    assert forall x <- seen :: x in later;
  }

  /** One append of an interleaved run: the record, and how much of the log its handler had seen when
      it last looked. Evidence only accumulates, so what earlier looks found counts too. Whatever else
      the handler was to do may or may not follow, as an append of its own. */
  datatype Append = Append(record: Record, seen: nat)

  function Step(log: Log, a: Append): Log {
    if a.seen <= |log| && Evidence(log[..a.seen], a.record) then log + [a.record] else log
  }

  function Run(appends: seq<Append>): Log {
    if appends == [] then [] else Step(Run(appends[..|appends| - 1]), appends[|appends| - 1])
  }

  /** Every record had its evidence in front of it. */
  ghost predicate Justified(log: Log) {
    forall i | 0 <= i < |log| :: Evidence(log[..i], log[i])
  }

  lemma JustifiedAppend(log: Log, seen: nat, r: Record)
    requires Justified(log) && seen <= |log| && Evidence(log[..seen], r)
    ensures Justified(log + [r])
  {
    EvidenceLasts(log[..seen], log, r);
    var after := log + [r];
    forall i | 0 <= i < |after|
      ensures Evidence(after[..i], after[i])
    {
      assert after[..i] == log[..i];
      assert log[..|log|] == log;
    }
  }

  lemma {:induction false} RunsAreJustified(appends: seq<Append>)
    ensures Justified(Run(appends))
  {
    hide Evidence, Justified;
    if appends == [] {
      NothingToJustify();
    } else {
      RunsAreJustified(appends[..|appends| - 1]);
      var log, a := Run(appends[..|appends| - 1]), appends[|appends| - 1];
      if a.seen <= |log| && Evidence(log[..a.seen], a.record) {
        JustifiedAppend(log, a.seen, a.record);
      }
    }
  }

  lemma NothingToJustify()
    ensures Justified([])
  {
  }

  /** A handler's guards read the log one after the other, each at its own moment, and others append in
      between. What each read found is still there when the handler appends, so the reads together are
      the evidence of one append that has seen the log up to any later point. */
  lemma TimedReadsAreEvidence(log: Log, r: Record, n: nat, first: nat, second: nat, third: nat)
    requires first <= n && second <= n && third <= n && n <= |log|
    requires match r.kind
      case CeoProposalDecision => r.proposalId.Some? && HasReview(log[..first], Strip(r.proposalId.value))
      case CeoCoapproval => r.approvalType.Some? && HasCoapproval(log[..first], CwoCoapproval, r.projectId, r.approvalType.value)
      case CwoCoapproval =>
        && r.approvalType.Some?
        && (if r.origin == WorkforceInitialization
            then
              && HasCompletionReport(log[..first], r.projectId)
              && HasProjectReview(log[..second], r.projectId)
              && HasCeoApproval(log[..third], r.projectId)
            else HasCoapproval(log[..first], CeoCoapproval, r.projectId, r.approvalType.value))
      case _ => true
    ensures Evidence(log[..n], r)
    ensures Step(log, Append(r, n)) == log + [r]
  {
    hide Strip, IsReviewEvent;
    assert forall x <- log[..first] :: x in log[..n];
    assert forall x <- log[..second] :: x in log[..n];
    assert forall x <- log[..third] :: x in log[..n];
  }

  // ----- the handlers only append with evidence -----

  lemma WrittenJustified(log: Log, r: Record, context: WriteContext, faulty: bool)
    requires Justified(log) && Evidence(log, r)
    ensures Justified(Written(log, r, context, faulty))
  {
    hide Evidence, Justified, Accepts;
    assert log[..|log|] == log;
    if Written(log, r, context, faulty) != log {
      JustifiedAppend(log, |log|, r);
    }
  }

  lemma CsoJustified(log: Log, proposalId: Option<string>, projectId: Option<string>, outcome: ReviewOutcome, fails: bool)
    requires Justified(log)
    ensures Justified(CsoHandled(log, proposalId, projectId, outcome, fails))
  {
    hide Justified, Accepts, Strip;
    if Given(proposalId) && Given(projectId) {
      WrittenJustified(log, ReviewRecord(Strip(projectId.value), proposalId.value, outcome), CEO_ACTIVE, fails);
    }
  }

  lemma ReviewIsEvidence(log: Log, proposal: string)
    requires LastReview(DocumentsByType(log, CsoReview), proposal).Some?
    ensures HasReview(log, proposal)
  {
    DocumentsByTypeMembers(log, CsoReview);
    hide DocumentsByType, IsReviewEvent;
    assert IsReviewOf(LastReview(DocumentsByType(log, CsoReview), proposal).value, proposal);
  }

  lemma CeoJustified(log: Log, request: CeoRequest, oracle: CeoOracle)
    requires Justified(log)
    ensures Justified(CeoHandled(log, request, oracle).0)
  {
    hide Justified, Accepts, Strip, Upper, RevisionCycleCount, LastReview, DocumentsByType, HasReview, OptionalStr;
    var (after, _) := Reviewed(log, request, oracle);
    if after != log {
      var proposal := Strip(request.proposalId.value);
      var review := LastReview(DocumentsByType(log, CsoReview), proposal);
      ReviewIsEvidence(log, proposal);
      WrittenJustified(log, DecisionRecord(OptionalStr(request.projectId).value, request.proposalId.value, oracle.decision,
                                           EffectiveOutcome(request, review.value), RevisionCycleCount(log, proposal)),
                       CEO_PROPOSED, oracle.writeFails);
    }
    if CeoCoapproved(log, request, oracle).0 != log {
      WrittenJustified(log, CoapprovalRecord(OptionalStr(request.projectId).value, CeoCoapproval,
                                             ApprovalType(request.approvalType, "controlled_doc_edit"), CoapprovalRequest),
                       CEO_ACTIVE, oracle.writeFails);
    }
  }

  lemma InitializationJustified(log: Log, request: CwoRequest, oracle: CwoOracle)
    requires Justified(log)
    ensures Justified(Initialized(log, request, oracle).0)
  {
    hide Justified, Accepts, OptionalStr, HasProjectReview, HasCeoApproval, HasCompletionReport;
    if OptionalStr(request.projectId).Some? {
      var project := OptionalStr(request.projectId).value;
      if HasCompletionReport(log, project) && ChainComplete(log, project) {
        var plan, charter := PlainRecord(project, WorkforcePlan), PlainRecord(project, ProjectCharter);
        assert log[..|log|] == log && (log + [plan])[..|log|] == log && (log + [plan] + [charter])[..|log|] == log;
        JustifiedAppend(log, |log|, plan);
        JustifiedAppend(log + [plan], |log|, charter);
        var r := CoapprovalRecord(project, CwoCoapproval, ApprovalType(request.approvalType, "project_completion"), WorkforceInitialization);
        EvidenceLasts(log, log + [plan], r);
        EvidenceLasts(log, log + [plan] + [charter], r);
        var context := CoapprovalContext(request);
        WrittenJustified(log + [plan], r, context, oracle.coapprovalFails);
        WrittenJustified(log + [plan] + [charter], r, context, oracle.coapprovalFails);
      }
    }
  }

  lemma CwoJustified(log: Log, request: CwoRequest, oracle: CwoOracle)
    requires Justified(log)
    ensures Justified(CwoHandled(log, request, oracle).0)
  {
    hide Justified, Accepts, Strip, Upper, OptionalStr, CeoHandled, CsoReviewOutcome, CsoHandled, Initialized, HasCoapproval;
    InitializationJustified(log, request, oracle);
    if OptionalStr(request.projectId).Some? {
      var project := OptionalStr(request.projectId).value;
      var proposal := ProposalId(request, project);
      CsoJustified(log, Some(proposal), Some(project), oracle.outcome, oracle.reviewWriteFails);
      var log1 := CsoHandled(log, Some(proposal), Some(project), oracle.outcome, oracle.reviewWriteFails);
      if CsoReviewOutcome(log1, project, proposal).Some? {
        CeoJustified(log1, CeoRequestFor(request, project, CsoReviewOutcome(log1, project, proposal).value), oracle.ceo);
      }
      var approvalType := ApprovalType(request.approvalType, "controlled_doc_edit");
      if HasCoapproval(log, CeoCoapproval, project, approvalType) {
        WrittenJustified(log, CoapprovalRecord(project, CwoCoapproval, approvalType, CoapprovalRequest),
                         CoapprovalContext(request), oracle.coapprovalFails);
      }
    }
  }

  // ----- provenance -----

  /** At j the project's workforce initialization co-approved this approval type, and before it stand
      the completion report, a review and an approved decision, itself preceded by a review of its
      proposal. */
  ghost predicate Founded(log: Log, j: int, projectId: string, approvalType: string) {
    && 0 <= j < |log|
    && log[j].kind == CwoCoapproval && log[j].origin == WorkforceInitialization
    && log[j].projectId == projectId && log[j].approvalType == Some(approvalType)
    && (exists a :: 0 <= a < j && log[a].kind == CompletionReport && log[a].projectId == projectId)
    && (exists b :: 0 <= b < j && log[b].kind == CsoReview && log[b].projectId == projectId && IsReviewEvent(log[b]))
    && (exists c :: 0 <= c < j && ApprovedDecision(log, c, projectId))
  }

  ghost predicate ApprovedDecision(log: Log, c: int, projectId: string) {
    && 0 <= c < |log|
    && log[c].kind == CeoProposalDecision && log[c].projectId == projectId && log[c].decision == Some("approved")
    && ReviewedBefore(log, c)
  }

  /** The proposal of decision c has a review further up, under the id without outer whitespace. */
  ghost predicate ReviewedBefore(log: Log, c: int)
    requires 0 <= c < |log|
  {
    log[c].proposalId.Some? && exists d :: 0 <= d < c && IsReviewOf(log[d], Strip(log[c].proposalId.value))
  }

  /** Every CEO decision stands after a CSO review of the same proposal. */
  lemma DecisionsAreReviewed(log: Log, c: nat)
    requires Justified(log) && c < |log| && log[c].kind == CeoProposalDecision
    ensures ReviewedBefore(log, c)
  {
    hide Strip, IsReviewEvent;
    assert Evidence(log[..c], log[c]);
    var r :| r in log[..c] && IsReviewOf(r, Strip(log[c].proposalId.value));
    var d :| 0 <= d < c && log[..c][d] == r;
    assert IsReviewOf(log[d], Strip(log[c].proposalId.value));
  }

  lemma ReportBefore(log: Log, j: nat, p: string)
    requires j <= |log| && HasCompletionReport(log[..j], p)
    ensures exists a :: 0 <= a < j && log[a].kind == CompletionReport && log[a].projectId == p
  {
    var r :| r in log[..j] && r.kind.CompletionReport? && r.projectId == p;
    var a :| 0 <= a < j && log[..j][a] == r;
  }

  lemma ReviewBefore(log: Log, j: nat, p: string)
    requires j <= |log| && HasProjectReview(log[..j], p)
    ensures exists b :: 0 <= b < j && log[b].kind == CsoReview && log[b].projectId == p && IsReviewEvent(log[b])
  {
    hide IsReviewEvent;
    var r :| r in log[..j] && r.kind.CsoReview? && r.projectId == p && IsReviewEvent(r);
    var b :| 0 <= b < j && log[..j][b] == r;
  }

  lemma ApprovalBefore(log: Log, j: nat, p: string)
    requires Justified(log) && j <= |log| && HasCeoApproval(log[..j], p)
    ensures exists c :: 0 <= c < j && ApprovedDecision(log, c, p)
  {
    hide Justified, ReviewedBefore;
    var r :| r in log[..j] && r.kind.CeoProposalDecision? && r.projectId == p && r.decision == Some("approved");
    var c :| 0 <= c < j && log[..j][c] == r;
    DecisionsAreReviewed(log, c);
    assert ApprovedDecision(log, c, p);
  }

  lemma InitializationIsFounded(log: Log, j: nat)
    requires Justified(log) && j < |log| && log[j].kind == CwoCoapproval && log[j].origin == WorkforceInitialization
    ensures log[j].approvalType.Some? && Founded(log, j, log[j].projectId, log[j].approvalType.value)
  {
    assert Evidence(log[..j], log[j]);
    hide IsReviewEvent, ReviewedBefore, ApprovedDecision, Justified, HasProjectReview, HasCeoApproval, HasCompletionReport;
    ReportBefore(log, j, log[j].projectId);
    ReviewBefore(log, j, log[j].projectId);
    ApprovalBefore(log, j, log[j].projectId);
  }

  lemma OtherCoapprovalRestsOn(log: Log, i: nat) returns (k: nat)
    requires Justified(log) && i < |log| && (log[i].kind == CeoCoapproval || log[i].kind == CwoCoapproval)
    requires log[i].kind == CwoCoapproval ==> log[i].origin != WorkforceInitialization
    ensures k < i && log[i].approvalType.Some?
    ensures log[k].projectId == log[i].projectId && log[k].approvalType == log[i].approvalType
    ensures log[k].kind == if log[i].kind == CeoCoapproval then CwoCoapproval else CeoCoapproval
  {
    assert Evidence(log[..i], log[i]);
    var kind := if log[i].kind == CeoCoapproval then CwoCoapproval else CeoCoapproval;
    var r :| r in log[..i] && r.kind == kind && r.projectId == log[i].projectId && r.approvalType == log[i].approvalType;
    k :| 0 <= k < i && log[..i][k] == r;
  }

  /** The two guards lean on each other, yet every co-approval goes back to a workforce initialization
      of the same project and approval type, and to everything that one rests on. */
  lemma {:induction false} CoapprovalsAreFounded(log: Log, i: nat)
    requires Justified(log) && i < |log| && (log[i].kind == CeoCoapproval || log[i].kind == CwoCoapproval)
    ensures log[i].approvalType.Some?
    ensures exists j :: j <= i && Founded(log, j, log[i].projectId, log[i].approvalType.value)
    decreases i
  {
    hide Founded, Justified;
    if log[i].kind == CwoCoapproval && log[i].origin == WorkforceInitialization {
      InitializationIsFounded(log, i);
    } else {
      var k := OtherCoapprovalRestsOn(log, i);
      CoapprovalsAreFounded(log, k);
    }
  }

  /** The same for every interleaved run. */
  lemma ProvenanceInEveryRun(appends: seq<Append>, i: nat)
    requires i < |Run(appends)|
    ensures var log := Run(appends);
      && (log[i].kind == CeoProposalDecision ==> ReviewedBefore(log, i))
      && (log[i].kind == CeoCoapproval || log[i].kind == CwoCoapproval ==>
            && log[i].approvalType.Some?
            && exists j :: j <= i && Founded(log, j, log[i].projectId, log[i].approvalType.value))
  {
    RunsAreJustified(appends);
    hide Run, Founded, Justified, ReviewedBefore;
    var log := Run(appends);
    if log[i].kind == CeoProposalDecision {
      DecisionsAreReviewed(log, i);
    }
    if log[i].kind == CeoCoapproval || log[i].kind == CwoCoapproval {
      CoapprovalsAreFounded(log, i);
    }
  }

  // ----- whole requests, one after the other -----

  datatype Request =
    | ToCso(proposalId: Option<string>, projectId: Option<string>, outcome: ReviewOutcome, writeFails: bool)
    | ToCeo(ceoRequest: CeoRequest, ceoOracle: CeoOracle)
    | ToCwo(cwoRequest: CwoRequest, cwoOracle: CwoOracle)
    | OtherDocument(record: Record, context: WriteContext, faulty: bool)   // somebody else's document

  function Handled(log: Log, request: Request): Log {
    match request
    case ToCso(proposalId, projectId, outcome, fails) => CsoHandled(log, proposalId, projectId, outcome, fails)
    case ToCeo(r, oracle) => CeoHandled(log, r, oracle).0
    case ToCwo(r, oracle) => CwoHandled(log, r, oracle).0
    case OtherDocument(r, context, faulty) => if IsApprovalRecord(r.kind) then log else Written(log, r, context, faulty)
  }

  function Session(requests: seq<Request>): Log {
    if requests == [] then [] else Handled(Session(requests[..|requests| - 1]), requests[|requests| - 1])
  }

  lemma {:induction false} SessionsAreJustified(requests: seq<Request>)
    ensures Justified(Session(requests))
  {
    hide Justified, CsoHandled, CeoHandled, CwoHandled;
    if requests == [] {
      NothingToJustify();
    } else {
      var log, request := Session(requests[..|requests| - 1]), requests[|requests| - 1];
      SessionsAreJustified(requests[..|requests| - 1]);
      match request
      case ToCso(proposalId, projectId, outcome, fails) => CsoJustified(log, proposalId, projectId, outcome, fails);
      case ToCeo(r, oracle) => CeoJustified(log, r, oracle);
      case ToCwo(r, oracle) => CwoJustified(log, r, oracle);
      case OtherDocument(r, context, faulty) =>
        if !IsApprovalRecord(r.kind) {
          WrittenJustified(log, r, context, faulty);
        }
    }
  }

  /** Provenance over any session of CSO, CEO and CWO requests, whatever the models answer and
      whichever writes fail. */
  lemma ProvenanceInEverySession(requests: seq<Request>, i: nat)
    requires i < |Session(requests)|
    ensures var log := Session(requests);
      && (log[i].kind == CeoProposalDecision ==> ReviewedBefore(log, i))
      && (log[i].kind == CeoCoapproval || log[i].kind == CwoCoapproval ==>
            && log[i].approvalType.Some?
            && exists j :: j <= i && Founded(log, j, log[i].projectId, log[i].approvalType.value))
  {
    SessionsAreJustified(requests);
    hide Session, Founded, Justified, ReviewedBefore;
    var log := Session(requests);
    if log[i].kind == CeoProposalDecision {
      DecisionsAreReviewed(log, i);
    }
    if log[i].kind == CeoCoapproval || log[i].kind == CwoCoapproval {
      CoapprovalsAreFounded(log, i);
    }
  }

  // ----- two places where a limit is missing -----

  function Reviews(projectId: string, n: nat): seq<Request> {
    if n == 0 then [] else Reviews(projectId, n - 1) + [ToCso(Some("proposal"), Some(projectId), Aligned, false)]
  }

  /** Reviews of one project are never too many: for every n a session ends with n of them, and one more
      is accepted. */
  lemma {:induction false} ReviewsAreUncapped(projectId: string, n: nat)
    requires ValidProjectId(projectId)
    ensures var log := Session(Reviews(projectId, n));
      && |Documents(log, projectId, CsoReview)| == n
      && forall proposal, outcome :: Accepts(log, ReviewRecord(projectId, proposal, outcome), CEO_ACTIVE)
  {
    hide ValidProjectId, Strip, Accepts;
    if n > 0 {
      ReviewsAreUncapped(projectId, n - 1);
      var before := Reviews(projectId, n - 1);
      var r := ReviewRecord(projectId, "proposal", Aligned);
      assert Reviews(projectId, n)[..|before|] == before;
      ProjectIdIsStripped(projectId);
      ContextAccepted(Session(before), r, CEO_ACTIVE);
      DocumentsOfAppend(Session(before), r, projectId, CsoReview);
      assert Session(Reviews(projectId, n)) == Session(before) + [r];
    }
    forall proposal, outcome
      ensures Accepts(Session(Reviews(projectId, n)), ReviewRecord(projectId, proposal, outcome), CEO_ACTIVE)
    {
      ContextAccepted(Session(Reviews(projectId, n)), ReviewRecord(projectId, proposal, outcome), CEO_ACTIVE);
    }
  }

  function CapOf(kind: Kind): nat {
    if kind.CompletionReport? then 1 else if kind.DecisionLog? then 4 else if kind.ProgressReport? then 6 else 0
  }

  function Writes(projectId: string, kind: Kind, n: nat): seq<Request> {
    if n == 0 then [] else Writes(projectId, kind, n - 1) + [OtherDocument(PlainRecord(projectId, kind), CEO_ACTIVE, false)]
  }

  /** The capped types are taken exactly up to their caps: one completion report, four decision logs, six
      progress reports. */
  lemma {:induction false} CappedTypesFillUp(projectId: string, kind: Kind, n: nat)
    requires ValidProjectId(projectId) && (kind.CompletionReport? || kind.DecisionLog? || kind.ProgressReport?)
    ensures var log := Session(Writes(projectId, kind, n));
      && |Documents(log, projectId, kind)| == (if n <= CapOf(kind) then n else CapOf(kind))
      && CountOf(log, projectId) == |Documents(log, projectId, kind)|
  {
    hide *;
    WritesStep(projectId, kind, n);
    if n == 0 {
      NoDocumentsYet(projectId, kind);
    } else {
      CappedTypesFillUp(projectId, kind, n - 1);
      OneMoreWrite(Session(Writes(projectId, kind, n - 1)), PlainRecord(projectId, kind), projectId, kind);
      CapIsSmall(kind);
    }
  }

  lemma WritesStep(projectId: string, kind: Kind, n: nat)
    requires kind.CompletionReport? || kind.DecisionLog? || kind.ProgressReport?
    ensures Session(Writes(projectId, kind, n)) ==
      if n == 0 then [] else Written(Session(Writes(projectId, kind, n - 1)), PlainRecord(projectId, kind), CEO_ACTIVE, false)
  {
    hide Written;
    if n > 0 {
      assert Writes(projectId, kind, n)[..|Writes(projectId, kind, n)| - 1] == Writes(projectId, kind, n - 1);
    }
  }

  lemma OneMoreWrite(log: Log, r: Record, projectId: string, kind: Kind)
    requires r == PlainRecord(projectId, kind) && ValidProjectId(projectId)
    requires kind.CompletionReport? || kind.DecisionLog? || kind.ProgressReport?
    requires CountOf(log, projectId) == |Documents(log, projectId, kind)| <= CapOf(kind)
    ensures var after := Written(log, r, CEO_ACTIVE, false);
      && |Documents(after, projectId, kind)| == |Documents(log, projectId, kind)| + (if |Documents(log, projectId, kind)| < CapOf(kind) then 1 else 0)
      && CountOf(after, projectId) == |Documents(after, projectId, kind)|
  {
    hide ValidProjectId, Accepts, Documents, CountOf;
    CapDecides(log, r);
    DocumentsOfAppend(log, r, projectId, kind);
    CountOfConcat(log, [r], projectId);
    CountOfOne(r, projectId);
  }

  lemma CapIsSmall(kind: Kind)
    requires kind.CompletionReport? || kind.DecisionLog? || kind.ProgressReport?
    ensures 1 <= CapOf(kind) <= 6
  {
  }

  lemma NoDocumentsYet(projectId: string, kind: Kind)
    ensures Documents([], projectId, kind) == [] && CountOf([], projectId) == 0
  {
  }

  lemma CapDecides(log: Log, r: Record)
    requires ValidProjectId(r.projectId) && (r.kind.CompletionReport? || r.kind.DecisionLog? || r.kind.ProgressReport?)
    requires CountOf(log, r.projectId) < 20
    ensures Accepts(log, r, CEO_ACTIVE) <==> |Documents(log, r.projectId, r.kind)| < CapOf(r.kind)
  {
    hide ValidProjectId, Strip, Lower, Documents, CountOf;
    StripOfWord("ceo");
    StripOfWord("active");
    LowerOfSmall("ceo");
    LowerOfSmall("active");
    assert |"ceo"| != |"project_manager"|;
  }

  /** Who may write, and where: a review is taken from six roles, for a project that is not over, under an
      id of up to 128 letters, digits, `_`, `.` and `-`; nothing else is asked. */
  lemma ReviewsAreTakenIff(log: Log, projectId: string, proposalId: string, outcome: ReviewOutcome, context: WriteContext)
    ensures Accepts(log, ReviewRecord(projectId, proposalId, outcome), context) <==>
      && 1 <= |projectId| <= 128 && projectId[0] !in {'_', '.', '-'}
      && (forall c <- projectId :: IsLetter(c) || '0' <= c <= '9' || c in {'_', '.', '-'})
      && Lower(Strip(context.actorRole)) in {"project_manager", "owner", "ceo", "cwo", "auditor", "administrator"}
      && Lower(Strip(context.projectStatus)) in {"proposed", "approved", "active", "paused"}
  {
    hide Strip, Lower, Documents, CountOf;
    assert projectId != "" ==> projectId[0] in projectId;
  }

  /** Of the planning documents there are five, and a project without documents takes each of them. */
  lemma PlanningTypesAreFive(projectId: string, name: string)
    requires ValidProjectId(projectId)
    ensures Accepts([], PlainRecord(projectId, Planning(name)), CEO_ACTIVE) <==>
      name in {"scope_statement", "budget_plan", "success_metrics", "execution_plan", "risk_register"}
  {
    hide ValidProjectId, Strip, Lower;
    StripOfWord("ceo");
    StripOfWord("active");
    LowerOfSmall("ceo");
    LowerOfSmall("active");
    assert |"ceo"| != |"project_manager"|;
  }

  /** Oversight documents, of ten types, are taken whatever else the project has. */
  lemma OversightIsTakenIff(log: Log, projectId: string, name: string)
    requires ValidProjectId(projectId)
    ensures Accepts(log, PlainRecord(projectId, Oversight(name)), CEO_ACTIVE) <==>
      name in {
        "auditor_finding", "auditor_enforcement", "auditor_owner_escalation", "auditor_ceo_notification", "auditor_owner_alert",
        "administrator_retention", "administrator_containment", "administrator_owner_notification",
        "administrator_ceo_notification", "administrator_owner_alert"}
  {
    hide ValidProjectId, Strip, Lower, Documents, CountOf;
    StripOfWord("ceo");
    StripOfWord("active");
    LowerOfSmall("ceo");
    LowerOfSmall("active");
    assert |"ceo"| != |"project_manager"|;
  }

  /** The project manager writes neither charter nor workforce plan. */
  lemma ManagerWritesNoCharter(log: Log, r: Record, context: WriteContext, faulty: bool)
    requires Lower(Strip(context.actorRole)) == "project_manager" && (r.kind.ProjectCharter? || r.kind.WorkforcePlan?)
    ensures Written(log, r, context, faulty) == log
  {
    hide Strip, Lower, Documents, CountOf;
  }

  /** The log with one more decision-log entry, an owner's co-approval for example, at any place. */
  function WithEntry(log: Log, at: nat, entry: Record): Log
    requires at <= |log|
  {
    log[..at] + [entry] + log[at..]
  }

  lemma EntryMembers(log: Log, at: nat, entry: Record)
    requires at <= |log|
    ensures forall r :: r in WithEntry(log, at, entry) <==> r in log || r == entry
  {
    assert log == log[..at] + log[at..];
  }

  /** Nothing the approval chain asks depends on the owner's co-approval. */
  lemma ChainIgnoresOwner(log: Log, at: nat, entry: Record, projectId: string)
    requires at <= |log| && entry.kind.DecisionLog?
    ensures ChainComplete(WithEntry(log, at, entry), projectId) == ChainComplete(log, projectId)
  {
    EntryMembers(log, at, entry);
    hide WithEntry, IsReviewEvent;
  }

  lemma {:induction false} CountOfConcat(a: Log, b: Log, projectId: string)
    ensures CountOf(a + b, projectId) == CountOf(a, projectId) + CountOf(b, projectId)
    decreases |b|
  {
    if b == [] {
      assert a + b == a;
    } else {
      CountOfConcat(a, b[..|b| - 1], projectId);
      assert (a + b)[..|a + b| - 1] == a + b[..|b| - 1];
    }
  }

  lemma CountOfEntry(log: Log, at: nat, entry: Record, projectId: string)
    requires at <= |log|
    ensures CountOf(WithEntry(log, at, entry), projectId)
         == CountOf(log, projectId) + if entry.projectId == projectId then 1 else 0
  {
    hide CountOf;
    CountOfConcat(log[..at], log[at..], projectId);
    assert log == log[..at] + log[at..];
    CountOfConcat(log[..at] + [entry], log[at..], projectId);
    CountOfConcat(log[..at], [entry], projectId);
    CountOfOne(entry, projectId);
  }

  lemma CountOfOne(r: Record, projectId: string)
    ensures CountOf([r], projectId) == if r.projectId == projectId then 1 else 0
  {
  }

  lemma EntryHidesNothing(log: Log, at: nat, entry: Record, projectId: string, kind: Kind)
    requires at <= |log| && entry.kind != kind
    ensures Documents(WithEntry(log, at, entry), projectId, kind) == [] <==> Documents(log, projectId, kind) == []
  {
    EntryMembers(log, at, entry);
    DocumentsMembers(log, projectId, kind);
    DocumentsMembers(WithEntry(log, at, entry), projectId, kind);
    hide WithEntry, Documents;
    var documents, documents' := Documents(log, projectId, kind), Documents(WithEntry(log, at, entry), projectId, kind);
    assert documents != [] ==> documents[0] in documents;
    assert documents' != [] ==> documents'[0] in documents';
  }

  /** A plan or charter is accepted with the entry exactly as without it, unless one place is left. */
  lemma AcceptsIgnoresEntry(log: Log, at: nat, entry: Record, r: Record, context: WriteContext)
    requires at <= |log| && entry.kind.DecisionLog? && (r.kind.WorkforcePlan? || r.kind.ProjectCharter?)
    requires entry.projectId != r.projectId || CountOf(log, r.projectId) != TOTAL_CAP - 1
    ensures Accepts(WithEntry(log, at, entry), r, context) == Accepts(log, r, context)
  {
    hide WithEntry, CountOf, Documents, Authorized, ValidProjectId, KnownKind;
    CountOfEntry(log, at, entry, r.projectId);
    EntryHidesNothing(log, at, entry, r.projectId, r.kind);
  }

  /** The owner's co-approval is only noted: with it or without it the initialization answers the same
      and writes the same documents, as long as the entry does not take one of the last two places of
      the project's total. */
  lemma OwnerIsOnlyNoted(log: Log, at: nat, entry: Record, projectId: string, oracle: CwoOracle)
    requires at <= |log| && entry.kind.DecisionLog?
    requires entry.projectId != projectId || CountOf(log, projectId) !in {TOTAL_CAP - 2, TOTAL_CAP - 1}
    ensures var (after, response) := WorkforceInitialized(log, projectId, oracle);
      var (after', response') := WorkforceInitialized(WithEntry(log, at, entry), projectId, oracle);
      && response' == response
      && |log| <= |after| && after' == WithEntry(log, at, entry) + after[|log|..]
  {
    hide Accepts, ChainComplete, CountOf;
    var plan, charter := PlainRecord(projectId, WorkforcePlan), PlainRecord(projectId, ProjectCharter);
    var log', log1 := WithEntry(log, at, entry), log + [plan];
    ChainIgnoresOwner(log, at, entry, projectId);
    AcceptsIgnoresEntry(log, at, entry, plan, CWO_APPROVED);
    assert log' + [plan] == WithEntry(log1, at, entry);
    CountOfConcat(log, [plan], projectId);
    CountOfOne(plan, projectId);
    AcceptsIgnoresEntry(log1, at, entry, charter, CWO_APPROVED);
    EntryMembers(log1, at, entry);
    hide WithEntry;
    assert log' + [plan] + [charter] == log' + (log1 + [charter])[|log|..];
    assert log' + [plan] == log' + log1[|log|..];
    assert log' == log' + log[|log|..];
  }

  /** The exception is real: an owner's entry in the last place keeps the plan from being written. */
  lemma OwnerCanTakeLastPlace(log: Log, at: nat, entry: Record, projectId: string, oracle: CwoOracle)
    requires at <= |log| && entry.kind.DecisionLog? && entry.projectId == projectId && ValidProjectId(projectId)
    requires ChainComplete(log, projectId) && !oracle.planFails
    requires CountOf(log, projectId) == TOTAL_CAP - 1 && Documents(log, projectId, WorkforcePlan) == []
    ensures WorkforceInitialized(log, projectId, oracle).0 != log
    ensures WorkforceInitialized(WithEntry(log, at, entry), projectId, oracle) == (WithEntry(log, at, entry), Denied(Failed))
  {
    hide ChainComplete, CountOf, Documents, ValidProjectId, Strip, Lower;
    var plan := PlainRecord(projectId, WorkforcePlan);
    ChainIgnoresOwner(log, at, entry, projectId);
    CountOfEntry(log, at, entry, projectId);
    EntryHidesNothing(log, at, entry, projectId, WorkforcePlan);
    hide WithEntry;
    StripOfWord("cwo");
    StripOfWord("approved");
    LowerOfSmall("cwo");
    LowerOfSmall("approved");
    assert |"cwo"| != |"project_manager"|;
    var after := WorkforceInitialized(log, projectId, oracle).0;
    assert Accepts(log, plan, CWO_APPROVED);
    assert |after| > |log|;
  }

  /** In the last but one it keeps the charter from being written, the plan having taken the last. */
  lemma OwnerCanTakeCharterPlace(log: Log, at: nat, entry: Record, projectId: string, oracle: CwoOracle)
    requires at <= |log| && entry.kind.DecisionLog? && entry.projectId == projectId && ValidProjectId(projectId)
    requires ChainComplete(log, projectId) && !oracle.planFails && !oracle.bindFails && !oracle.charterFails
    requires CountOf(log, projectId) == TOTAL_CAP - 2
    requires Documents(log, projectId, WorkforcePlan) == [] && Documents(log, projectId, ProjectCharter) == []
    ensures WorkforceInitialized(log, projectId, oracle).1 == Recorded
    ensures WorkforceInitialized(WithEntry(log, at, entry), projectId, oracle).1 == Denied(Failed)
  {
    hide ChainComplete, CountOf, Documents, WithEntry, ValidProjectId, Accepts;
    var plan, charter := PlainRecord(projectId, WorkforcePlan), PlainRecord(projectId, ProjectCharter);
    var log' := WithEntry(log, at, entry);
    ChainIgnoresOwner(log, at, entry, projectId);
    CountOfEntry(log, at, entry, projectId);
    EntryHidesNothing(log, at, entry, projectId, WorkforcePlan);
    EntryHidesNothing(log, at, entry, projectId, ProjectCharter);
    RoomDecides(log, plan);
    RoomDecides(log', plan);
    PlanTakesPlace(log, projectId);
    PlanTakesPlace(log', projectId);
    RoomDecides(log + [plan], charter);
    RoomDecides(log' + [plan], charter);
  }

  /** A plan or charter is taken as a revision at any time, and for the first time as long as the project
      has fewer than twenty documents. */
  lemma RoomDecides(log: Log, r: Record)
    requires ValidProjectId(r.projectId) && (r.kind.WorkforcePlan? || r.kind.ProjectCharter?)
    ensures Accepts(log, r, CWO_APPROVED) <==> Documents(log, r.projectId, r.kind) != [] || CountOf(log, r.projectId) < 20
  {
    hide CountOf, Documents, ValidProjectId, Strip, Lower;
    StripOfWord("cwo");
    StripOfWord("approved");
    LowerOfSmall("cwo");
    LowerOfSmall("approved");
    assert |"cwo"| != |"project_manager"|;
  }

  lemma PlanTakesPlace(log: Log, projectId: string)
    requires Documents(log, projectId, ProjectCharter) == []
    ensures var log1 := log + [PlainRecord(projectId, WorkforcePlan)];
      && CountOf(log1, projectId) == CountOf(log, projectId) + 1
      && Documents(log1, projectId, ProjectCharter) == []
      && !exists r <- log1 :: r.kind == ProjectCharter && r.projectId == projectId
  {
    var plan := PlainRecord(projectId, WorkforcePlan);
    CountOfConcat(log, [plan], projectId);
    CountOfOne(plan, projectId);
    DocumentsOfAppend(log, plan, projectId, ProjectCharter);
    DocumentsMembers(log + [plan], projectId, ProjectCharter);
    hide CountOf, Documents;
  }
}
