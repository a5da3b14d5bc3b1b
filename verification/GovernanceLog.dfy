/** The governance artifact log and the searches over it
    (data_access/repositories/postgres/governance_artifact_repository.py, agents/ceo/agent.py,
    agents/cwo/agent.py, agents/cwo/workforce_initializer.py). */
module GovernanceLog {
  import opened PyText

  /** Artifact types; `Planning` and `Oversight` stand for the types of those names. */
  datatype Kind =
    | CsoReview | CeoProposalDecision | CeoCoapproval | CwoCoapproval
    | CompletionReport | DecisionLog | ProgressReport | WorkforcePlan | ProjectCharter
    | Planning(name: string) | Oversight(name: string)

  /** Which handler appended a co-approval. */
  datatype Origin = WorkforceInitialization | CoapprovalRequest | Elsewhere

  /** One artifact with the payload fields anyone searches for; `None` is an absent or null field.
      `origin` is not stored. */
  datatype Record = Record(
    projectId: string, kind: Kind, eventType: Option<string>, proposalId: Option<string>,
    reviewOutcome: Option<string>, decision: Option<string>, csoReviewOutcome: Option<string>,
    revisionCycleCount: nat, approvalType: Option<string>, origin: Origin)

  type Log = seq<Record>

  predicate IsIdStart(c: char) {
    'A' <= c <= 'Z' || 'a' <= c <= 'z' || '0' <= c <= '9'
  }

  predicate IsIdChar(c: char) {
    IsIdStart(c) || c == '_' || c == '.' || c == '-'
  }

  /** One to 128 letters, digits, `_`, `.` and `-`, a letter or digit first. */
  predicate ValidProjectId(id: string) {
    1 <= |id| <= 128 && IsIdStart(id[0]) && forall c <- id :: IsIdChar(c)
  }

  const WRITABLE_STATES := {"proposed", "approved", "active", "paused"}
  const WRITER_ROLES := {"project_manager", "owner", "ceo", "cwo", "auditor", "administrator"}
  const PLANNING_TYPES := {"scope_statement", "budget_plan", "success_metrics", "execution_plan", "risk_register"}
  const OVERSIGHT_TYPES := {
    "auditor_finding", "auditor_enforcement", "auditor_owner_escalation", "auditor_ceo_notification", "auditor_owner_alert",
    "administrator_retention", "administrator_containment", "administrator_owner_notification",
    "administrator_ceo_notification", "administrator_owner_alert"}
  const TOTAL_CAP := 20

  datatype WriteContext = WriteContext(actorRole: string, projectStatus: string)

  const CEO_ACTIVE := WriteContext("ceo", "active")
  const CEO_PROPOSED := WriteContext("ceo", "proposed")
  const CWO_APPROVED := WriteContext("cwo", "approved")

  /** The project manager may write everything but charter and workforce plan. */
  predicate Authorized(kind: Kind, context: WriteContext) {
    var role := Lower(Strip(context.actorRole));
    && Lower(Strip(context.projectStatus)) in WRITABLE_STATES
    && role in WRITER_ROLES
    && (role == "project_manager" ==> !kind.ProjectCharter? && !kind.WorkforcePlan?)
  }

  predicate KnownKind(kind: Kind) {
    && (kind.Planning? ==> kind.name in PLANNING_TYPES)
    && (kind.Oversight? ==> kind.name in OVERSIGHT_TYPES)
  }

  /** The records of the approval chain. */
  predicate IsApprovalRecord(kind: Kind) {
    kind.CsoReview? || kind.CeoProposalDecision? || kind.CeoCoapproval? || kind.CwoCoapproval?
  }

  /** The most documents of an append-only type; the other types are revised without limit. */
  function TypeCap(kind: Kind): Option<nat> {
    match kind
    case CompletionReport => Some(1)
    case DecisionLog => Some(4)
    case ProgressReport => Some(6)
    case _ => None
  }

  /** The documents of one project and kind, oldest first. */
  function Documents(log: Log, projectId: string, kind: Kind): Log {
    if log == [] then [] else
    var before, r := Documents(log[..|log| - 1], projectId, kind), log[|log| - 1];
    if r.projectId == projectId && r.kind == kind then before + [r] else before
  }

  /** The documents of one kind across all projects, oldest first. */
  function DocumentsByType(log: Log, kind: Kind): Log {
    if log == [] then [] else
    var before, r := DocumentsByType(log[..|log| - 1], kind), log[|log| - 1];
    if r.kind == kind then before + [r] else before
  }

  function CountOf(log: Log, projectId: string): nat {
    if log == [] then 0 else
    CountOf(log[..|log| - 1], projectId) + if log[|log| - 1].projectId == projectId then 1 else 0
  }

  /** Whether the repository takes this write. Append-only types have a cap of their own. The first
      document of a type needs room in the project's total, except for approval and oversight
      records. */
  predicate Accepts(log: Log, r: Record, context: WriteContext) {
    && ValidProjectId(r.projectId) && KnownKind(r.kind) && Authorized(r.kind, context)
    && (TypeCap(r.kind).Some? ==> |Documents(log, r.projectId, r.kind)| < TypeCap(r.kind).value)
    && (|| IsApprovalRecord(r.kind) || r.kind.Oversight?
        || Documents(log, r.projectId, r.kind) != []
        || CountOf(log, r.projectId) < TOTAL_CAP)
  }

  lemma {:induction false} DocumentsMembers(log: Log, projectId: string, kind: Kind)
    ensures forall r :: r in Documents(log, projectId, kind) <==> r in log && r.projectId == projectId && r.kind == kind
  {
    if log != [] {
      DocumentsMembers(log[..|log| - 1], projectId, kind);
      assert log == log[..|log| - 1] + [log[|log| - 1]];
    }
  }

  lemma {:induction false} DocumentsByTypeMembers(log: Log, kind: Kind)
    ensures forall r :: r in DocumentsByType(log, kind) <==> r in log && r.kind == kind
  {
    if log != [] {
      DocumentsByTypeMembers(log[..|log| - 1], kind);
      assert log == log[..|log| - 1] + [log[|log| - 1]];
    }
  }

  function OptionalStr(value: Option<string>): (r: Option<string>)
    ensures r.Some? ==> r.value != ""
  {
    if value.Some? && Strip(value.value) != "" then Some(Strip(value.value)) else None
  }

  const CSO_EVENT := "cso_review_outcome"
  const CONFLICT := "Strategic Conflict"

  /** A review that counts: no event type, or the right one. */
  predicate IsReviewEvent(r: Record) {
    OptionalStr(r.eventType) in {None, Some(CSO_EVENT)}
  }

  // ----- the searches, as statements about the log -----

  predicate IsReviewOf(r: Record, proposalId: string) {
    r.kind.CsoReview? && r.proposalId == Some(proposalId) && IsReviewEvent(r)
  }

  predicate HasReview(log: Log, proposalId: string) {
    exists r <- log :: IsReviewOf(r, proposalId)
  }

  predicate HasProjectReview(log: Log, projectId: string) {
    exists r <- log :: r.kind.CsoReview? && r.projectId == projectId && IsReviewEvent(r)
  }

  predicate HasCeoApproval(log: Log, projectId: string) {
    exists r <- log :: r.kind.CeoProposalDecision? && r.projectId == projectId && r.decision == Some("approved")
  }

  /** `_has_owner_coapproval`. */
  predicate IsOwnerCoapproval(r: Record) {
    OptionalStr(r.eventType) == Some("owner_coapproval")
  }

  predicate HasOwnerCoapproval(log: Log, projectId: string) {
    exists r <- log :: r.kind.DecisionLog? && r.projectId == projectId && IsOwnerCoapproval(r)
  }

  predicate HasCompletionReport(log: Log, projectId: string) {
    exists r <- log :: r.kind.CompletionReport? && r.projectId == projectId
  }

  predicate HasCoapproval(log: Log, kind: Kind, projectId: string, approvalType: string) {
    exists r <- log :: r.kind == kind && r.projectId == projectId && r.approvalType == Some(approvalType)
  }

  /** The youngest review of a proposal among documents. */
  function LastReview(documents: Log, proposalId: string): (r: Option<Record>)
    ensures r.Some? ==> r.value in documents && r.value.proposalId == Some(proposalId) && IsReviewEvent(r.value)
    ensures r.None? ==> forall d <- documents :: !(d.proposalId == Some(proposalId) && IsReviewEvent(d))
  {
    if documents == [] then None else
    var d := documents[|documents| - 1];
    if d.proposalId == Some(proposalId) && IsReviewEvent(d) then Some(d)
    else LastReview(documents[..|documents| - 1], proposalId)
  }

  /** What the CWO hands to the CEO: the outcome of the project's youngest review of the proposal. */
  function CsoReviewOutcome(log: Log, projectId: string, proposalId: string): Option<string> {
    var last := LastReview(Documents(log, projectId, CsoReview), proposalId);
    if last.Some? then OptionalStr(last.value.reviewOutcome) else None
  }

  function CountConflicts(documents: Log, proposalId: string): nat {
    if documents == [] then 0 else
    var d := documents[|documents| - 1];
    CountConflicts(documents[..|documents| - 1], proposalId)
    + if d.proposalId == Some(proposalId) && d.reviewOutcome == Some(CONFLICT) then 1 else 0
  }

  function CountRevisions(documents: Log, proposalId: string): nat {
    if documents == [] then 0 else
    var d := documents[|documents| - 1];
    CountRevisions(documents[..|documents| - 1], proposalId)
    + if d.proposalId == Some(proposalId) && d.decision == Some("needs_revision") then 1 else 0
  }

  /** Unresolved revision cycles: conflicting reviews plus decisions asking for revision. */
  function RevisionCycleCount(log: Log, proposalId: string): nat {
    CountConflicts(DocumentsByType(log, CsoReview), proposalId)
    + CountRevisions(DocumentsByType(log, CeoProposalDecision), proposalId)
  }

  class PostgresGovernanceArtifactRepository {
    var log: Log

    constructor ()
      ensures log == []
    {
      log := [];
    }

    /** Appends one revision; `faulty` stands for a database or file-store error. */
    method WriteProjectArtifact(r: Record, context: WriteContext, faulty: bool) returns (ok: bool)
      modifies this
      ensures ok <==> !faulty && Accepts(old(log), r, context)
      ensures log == if ok then old(log) + [r] else old(log)
    {
      if !ValidProjectId(r.projectId) || !KnownKind(r.kind) || !Authorized(r.kind, context) {
        return false;
      }
      var count := |Documents(log, r.projectId, r.kind)|;
      if TypeCap(r.kind).Some? && count >= TypeCap(r.kind).value {
        return false;
      }
      if count == 0 && !IsApprovalRecord(r.kind) && !r.kind.Oversight? {
        if CountOf(log, r.projectId) >= TOTAL_CAP {
          return false;
        }
      }
      if faulty {
        return false;
      }
      log := log + [r];
      return true;
    }

    // The searches of the agents, as loops over what the repository lists.

    method ReadCsoReviewOutcome(projectId: string, proposalId: string) returns (outcome: Option<string>)
      ensures outcome == CsoReviewOutcome(log, projectId, proposalId)
    {
      hide Documents, IsReviewEvent, OptionalStr;
      var documents := Documents(log, projectId, CsoReview);
      assert documents[..|documents|] == documents;
      for i := |documents| downto 0
        invariant LastReview(documents, proposalId) == LastReview(documents[..i], proposalId)
      {
        assert documents[..i + 1][..i] == documents[..i];
        if documents[i].proposalId == Some(proposalId) {
          if IsReviewEvent(documents[i]) {
            return OptionalStr(documents[i].reviewOutcome);
          }
        }
      }
      return None;
    }

    method VerifyCsoReviewRecord(proposalId: string) returns (r: Option<Record>)
      ensures r == LastReview(DocumentsByType(log, CsoReview), proposalId)
      ensures r.Some? <==> HasReview(log, proposalId)
    {
      hide DocumentsByType, IsReviewEvent, OptionalStr;
      var documents := DocumentsByType(log, CsoReview);
      DocumentsByTypeMembers(log, CsoReview);
      assert documents[..|documents|] == documents;
      for i := |documents| downto 0
        invariant LastReview(documents, proposalId) == LastReview(documents[..i], proposalId)
      {
        assert documents[..i + 1][..i] == documents[..i];
        if documents[i].proposalId == Some(proposalId) && IsReviewEvent(documents[i]) {
          assert IsReviewOf(documents[i], proposalId);
          return Some(documents[i]);
        }
      }
      return None;
    }

    method ReadRevisionCycleCount(proposalId: string) returns (count: nat)
      ensures count == RevisionCycleCount(log, proposalId)
    {
      hide DocumentsByType;
      count := 0;
      var reviews := DocumentsByType(log, CsoReview);
      for i := 0 to |reviews|
        invariant count == CountConflicts(reviews[..i], proposalId)
      {
        assert reviews[..i + 1][..i] == reviews[..i];
        if reviews[i].proposalId == Some(proposalId) && reviews[i].reviewOutcome == Some(CONFLICT) {
          count := count + 1;
        }
      }
      assert reviews[..|reviews|] == reviews;
      var decisions := DocumentsByType(log, CeoProposalDecision);
      for i := 0 to |decisions|
        invariant count == CountConflicts(reviews, proposalId) + CountRevisions(decisions[..i], proposalId)
      {
        assert decisions[..i + 1][..i] == decisions[..i];
        if decisions[i].proposalId == Some(proposalId) && decisions[i].decision == Some("needs_revision") {
          count := count + 1;
        }
      }
      assert decisions[..|decisions|] == decisions;
    }

    method FindCoapproval(kind: Kind, projectId: string, approvalType: string) returns (found: bool)
      ensures found == HasCoapproval(log, kind, projectId, approvalType)
    {
      hide Documents;
      var documents := Documents(log, projectId, kind);
      DocumentsMembers(log, projectId, kind);
      for i := |documents| downto 0
        invariant forall j | i <= j < |documents| :: documents[j].approvalType != Some(approvalType)
      {
        if documents[i].approvalType == Some(approvalType) {
          return true;
        }
      }
      return false;
    }

    method FindProjectReview(projectId: string) returns (found: bool)
      ensures found == HasProjectReview(log, projectId)
    {
      hide Documents, IsReviewEvent;
      var documents := Documents(log, projectId, CsoReview);
      DocumentsMembers(log, projectId, CsoReview);
      for i := 0 to |documents|
        invariant forall j | 0 <= j < i :: !IsReviewEvent(documents[j])
      {
        if IsReviewEvent(documents[i]) {
          return true;
        }
      }
      return false;
    }

    method FindCeoApproval(projectId: string) returns (found: bool)
      ensures found == HasCeoApproval(log, projectId)
    {
      hide Documents;
      var documents := Documents(log, projectId, CeoProposalDecision);
      DocumentsMembers(log, projectId, CeoProposalDecision);
      for i := 0 to |documents|
        invariant forall j | 0 <= j < i :: documents[j].decision != Some("approved")
      {
        if documents[i].decision == Some("approved") {
          return true;
        }
      }
      return false;
    }

    method FindOwnerCoapproval(projectId: string) returns (found: bool)
      ensures found == HasOwnerCoapproval(log, projectId)
    {
      hide Documents, IsOwnerCoapproval;
      var documents := Documents(log, projectId, DecisionLog);
      DocumentsMembers(log, projectId, DecisionLog);
      for i := 0 to |documents|
        invariant forall j | 0 <= j < i :: !IsOwnerCoapproval(documents[j])
      {
        if IsOwnerCoapproval(documents[i]) {
          return true;
        }
      }
      return false;
    }

    /** `read_latest_artifact(...) is not None`. */
    method HasDocument(projectId: string, kind: Kind) returns (found: bool)
      ensures found <==> exists r <- log :: r.kind == kind && r.projectId == projectId
    {
      var documents := Documents(log, projectId, kind);
      DocumentsMembers(log, projectId, kind);
      found := documents != [];
      assert found ==> documents[0] in documents;
    }
  }

  // ----- appending -----

  lemma DocumentsOfAppend(log: Log, r: Record, projectId: string, kind: Kind)
    ensures Documents(log + [r], projectId, kind)
         == Documents(log, projectId, kind) + if r.projectId == projectId && r.kind == kind then [r] else []
    ensures DocumentsByType(log + [r], kind) == DocumentsByType(log, kind) + if r.kind == kind then [r] else []
  {
    assert (log + [r])[..|log|] == log;
  }

  /** No write takes an append-only type past its cap. */
  lemma WriteKeepsCap(log: Log, r: Record, context: WriteContext, projectId: string, kind: Kind)
    requires Accepts(log, r, context)
    requires TypeCap(kind).Some? && |Documents(log, projectId, kind)| <= TypeCap(kind).value
    ensures |Documents(log + [r], projectId, kind)| <= TypeCap(kind).value
  {
    DocumentsOfAppend(log, r, projectId, kind);
    hide Documents, Authorized, ValidProjectId, KnownKind;
  }

  lemma ProjectIdIsStripped(project: string)
    requires ValidProjectId(project)
    ensures Strip(project) == project && project != ""
  {
    assert project[0] in project && project[|project| - 1] in project;
    StripOfTrimmed(project);
    hide Strip;
  }

  /** Approval records of valid projects are always taken: there is no cap on them. */
  lemma ContextAccepted(log: Log, r: Record, context: WriteContext)
    requires ValidProjectId(r.projectId) && IsApprovalRecord(r.kind) && context in {CEO_ACTIVE, CEO_PROPOSED}
    ensures Accepts(log, r, context)
  {
    hide Strip, Lower;
    StripOfWord("ceo");
    StripOfWord("active");
    StripOfWord("proposed");
    LowerOfSmall("ceo");
    LowerOfSmall("active");
    LowerOfSmall("proposed");
    assert |"ceo"| != |"project_manager"|;
  }

  /** One more record moves the count by the cycle it adds, if any. */
  lemma CountOfAppend(log: Log, r: Record, proposalId: string)
    ensures RevisionCycleCount(log + [r], proposalId) == RevisionCycleCount(log, proposalId)
      + (if r.kind == CsoReview && r.proposalId == Some(proposalId) && r.reviewOutcome == Some(CONFLICT) then 1 else 0)
      + (if r.kind == CeoProposalDecision && r.proposalId == Some(proposalId) && r.decision == Some("needs_revision") then 1 else 0)
  {
    hide DocumentsByType, CountConflicts, CountRevisions;
    DocumentsOfAppend(log, r, "", CsoReview);
    DocumentsOfAppend(log, r, "", CeoProposalDecision);
    CountsOfAppend(DocumentsByType(log, CsoReview), r, proposalId);
    CountsOfAppend(DocumentsByType(log, CeoProposalDecision), r, proposalId);
  }

  lemma CountsOfAppend(documents: Log, r: Record, proposalId: string)
    ensures CountConflicts(documents + [r], proposalId) == CountConflicts(documents, proposalId)
      + if r.proposalId == Some(proposalId) && r.reviewOutcome == Some(CONFLICT) then 1 else 0
    ensures CountRevisions(documents + [r], proposalId) == CountRevisions(documents, proposalId)
      + if r.proposalId == Some(proposalId) && r.decision == Some("needs_revision") then 1 else 0
    ensures documents + [] == documents
  {
    assert (documents + [r])[..|documents|] == documents;
  }

  /** The revision-cycle count of a proposal never decreases as the log grows. */
  lemma {:induction false} RevisionCountNeverDecreases(log: Log, later: Log, proposalId: string)
    requires log <= later
    ensures RevisionCycleCount(log, proposalId) <= RevisionCycleCount(later, proposalId)
    decreases |later|
  {
    hide RevisionCycleCount;
    if later == log {
    } else {
      var init := later[..|later| - 1];
      RevisionCountNeverDecreases(log, init, proposalId);
      assert later == init + [later[|later| - 1]];
      CountOfAppend(init, later[|later| - 1], proposalId);
    }
  }
}
