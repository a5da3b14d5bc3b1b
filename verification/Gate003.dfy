/** GATE-003: how often the CEO can decide on a proposal in strategic conflict when proposals reach the
    CEO only through the CWO's flow, one request at a time (agents/ceo/agent.py, agents/cwo/agent.py,
    agents/cso/agent.py). */
module Gate003 {
  import opened PyText
  import opened GovernanceLog
  import opened GovernanceAgents

  /** A submission through the CWO whose review is written and which overrides nothing, a review asked
      of the CSO directly, or somebody else's document. */
  datatype Event =
    | Submit(request: CwoRequest, oracle: CwoOracle)
    | Review(proposalId: string, projectId: string, outcome: ReviewOutcome, writeFails: bool)
    | Document(record: Record, context: WriteContext, faulty: bool)

  predicate Regular(e: Event) {
    match e
    case Submit(request, oracle) => !request.overrideFlag && !oracle.reviewWriteFails
    case Review(_, _, _, _) => true
    case Document(r, _, _) => !IsApprovalRecord(r.kind)
  }

  function After(log: Log, e: Event): Log {
    match e
    case Submit(request, oracle) => ProposalFlow(log, request, oracle).0
    case Review(proposalId, projectId, outcome, fails) => CsoHandled(log, Some(proposalId), Some(projectId), outcome, fails)
    case Document(r, context, faulty) => Written(log, r, context, faulty)
  }

  function Run(events: seq<Event>): Log {
    if events == [] then [] else After(Run(events[..|events| - 1]), events[|events| - 1])
  }

  predicate AllRegular(events: seq<Event>) {
    forall e <- events :: Regular(e)
  }

  predicate IsConflictDecision(r: Record, proposalId: string) {
    r.kind == CeoProposalDecision && r.proposalId == Some(proposalId) && r.csoReviewOutcome == Some(CONFLICT)
  }

  /** Decisions recorded under this id although the review was a strategic conflict. */
  function ConflictDecisions(log: Log, proposalId: string): nat {
    if log == [] then 0 else
    ConflictDecisions(log[..|log| - 1], proposalId) + if IsConflictDecision(log[|log| - 1], proposalId) then 1 else 0
  }

  function ConflictReviews(log: Log, proposalId: string): nat {
    CountConflicts(DocumentsByType(log, CsoReview), proposalId)
  }

  /** Every conflicting decision has used up a conflicting review, and there are at most two. */
  ghost predicate Bounded(log: Log, proposalId: string) {
    ConflictDecisions(log, proposalId) <= ConflictReviews(log, proposalId) && ConflictDecisions(log, proposalId) <= 2
  }

  lemma ConflictsOfAppend(log: Log, r: Record, proposalId: string)
    ensures ConflictDecisions(log + [r], proposalId)
         == ConflictDecisions(log, proposalId) + if IsConflictDecision(r, proposalId) then 1 else 0
    ensures ConflictReviews(log + [r], proposalId)
         == ConflictReviews(log, proposalId)
            + if r.kind == CsoReview && r.proposalId == Some(proposalId) && r.reviewOutcome == Some(CONFLICT) then 1 else 0
  {
    assert (log + [r])[..|log|] == log;
    hide DocumentsByType, CountConflicts, IsConflictDecision;
    DocumentsOfAppend(log, r, "", CsoReview);
    CountsOfAppend(DocumentsByType(log, CsoReview), r, proposalId);
  }

  lemma ReviewKeepsBound(log: Log, proposalId: Option<string>, projectId: Option<string>, outcome: ReviewOutcome, fails: bool, d: string)
    requires Bounded(log, d)
    ensures Bounded(CsoHandled(log, proposalId, projectId, outcome, fails), d)
  {
    hide ConflictDecisions, ConflictReviews, Strip, Accepts;
    if Given(proposalId) && Given(projectId) {
      ConflictsOfAppend(log, ReviewRecord(Strip(projectId.value), proposalId.value, outcome), d);
    }
  }

  /** Nothing but the writing project's review comes after it: the flow reads its own outcome back. */
  lemma FlowReadsOwnReview(log: Log, projectId: string, proposalId: string, outcome: ReviewOutcome)
    ensures CsoReviewOutcome(log + [ReviewRecord(projectId, proposalId, outcome)], projectId, proposalId) == Some(OutcomeText(outcome))
  {
    var r := ReviewRecord(projectId, proposalId, outcome);
    DocumentsOfAppend(log, r, projectId, CsoReview);
    var documents := Documents(log, projectId, CsoReview) + [r];
    assert documents[|documents| - 1] == r;
    OwnTexts(outcome);
    hide Documents, Strip;
  }

  lemma OwnTexts(outcome: ReviewOutcome)
    ensures OptionalStr(Some(OutcomeText(outcome))) == Some(OutcomeText(outcome))
    ensures OptionalStr(Some(CSO_EVENT)) == Some(CSO_EVENT)
    ensures Upper(Strip("MUTATION")) == "MUTATION"
  {
    hide Strip, Upper;
    StripOfWord("Aligned");
    StripOfWord("Needs Revision");
    StripOfWord(CONFLICT);
    StripOfWord(CSO_EVENT);
    StripOfWord("MUTATION");
    UpperOfCapitals("MUTATION");
  }

  /** A submission in short: the review, and then the CEO's decision unless a gate stops it. */
  function Submitted(log: Log, projectId: string, proposalId: string, request: CwoRequest, oracle: CwoOracle): Log {
    var log1 := log + [ReviewRecord(projectId, proposalId, oracle.outcome)];
    Reviewed(log1, CeoRequestFor(request, projectId, OutcomeText(oracle.outcome)), oracle.ceo).0
  }

  lemma OptionalStrIsStripped(value: Option<string>)
    ensures OptionalStr(value).Some? ==> Strip(OptionalStr(value).value) == OptionalStr(value).value
  {
    if OptionalStr(value).Some? {
      StripOfTrimmed(OptionalStr(value).value);
    }
    hide SkipSpace, DropSpace, IsSpace;
  }

  lemma FlowIsSubmitted(log: Log, request: CwoRequest, oracle: CwoOracle)
    requires OptionalStr(request.projectId).Some? && ValidProjectId(OptionalStr(request.projectId).value)
    requires !oracle.draftFails && !oracle.reviewWriteFails
    ensures var project := OptionalStr(request.projectId).value;
      && ProposalFlow(log, request, oracle).0 == Submitted(log, project, ProposalId(request, project), request, oracle)
      && ProposalFlow(log, request, oracle) ==
           Reviewed(log + [ReviewRecord(project, ProposalId(request, project), oracle.outcome)],
                    CeoRequestFor(request, project, OutcomeText(oracle.outcome)), oracle.ceo)
  {
    hide Strip, Upper, CsoReviewOutcome, Reviewed, OptionalStr, Accepts, ValidProjectId, CsoHandled, CeoHandled, ProposalId;
    var project := OptionalStr(request.projectId).value;
    var proposal := ProposalId(request, project);
    var review := ReviewRecord(project, proposal, oracle.outcome);
    ProposalIdGiven(request, project);
    FlowWritesReview(log, request.projectId, proposal, oracle.outcome);
    FlowReadsOwnReview(log, project, proposal, oracle.outcome);
    MutationIsReviewed(log + [review], CeoRequestFor(request, project, OutcomeText(oracle.outcome)), oracle.ceo);
  }

  lemma FlowWritesReview(log: Log, projectId: Option<string>, proposal: string, outcome: ReviewOutcome)
    requires OptionalStr(projectId).Some? && ValidProjectId(OptionalStr(projectId).value) && proposal != ""
    ensures CsoHandled(log, Some(proposal), OptionalStr(projectId), outcome, false)
         == log + [ReviewRecord(OptionalStr(projectId).value, proposal, outcome)]
  {
    hide Strip, OptionalStr, Accepts, ValidProjectId;
    OptionalStrIsStripped(projectId);
    ContextAccepted(log, ReviewRecord(OptionalStr(projectId).value, proposal, outcome), CEO_ACTIVE);
  }

  lemma MutationIsReviewed(log: Log, request: CeoRequest, oracle: CeoOracle)
    requires request.intent == "MUTATION" && Given(request.proposalId)
    ensures CeoHandled(log, request, oracle) == Reviewed(log, request, oracle)
  {
    hide Strip, Upper, Reviewed;
    OwnTexts(Aligned);
  }

  lemma ProposalIdGiven(request: CwoRequest, project: string)
    ensures ProposalId(request, project) != ""
  {
    hide Strip;
  }

  /** An invalid project or a failing draft records no decision. */
  lemma FlowWithoutDecision(log: Log, request: CwoRequest, oracle: CwoOracle)
    requires OptionalStr(request.projectId).None? || !ValidProjectId(OptionalStr(request.projectId).value) || oracle.draftFails
    ensures ProposalFlow(log, request, oracle).0 == log
  {
    OptionalStrIsStripped(request.projectId);
    hide Strip, OptionalStr, CsoReviewOutcome, CeoHandled;
  }

  /** The gate itself: on an id without outer whitespace the CEO counts exactly the reviews and
      decisions recorded under it. */
  lemma SubmissionKeepsBound(log: Log, request: CwoRequest, oracle: CwoOracle, project: string, d: string)
    requires Bounded(log, d) && Strip(d) == d && !request.overrideFlag
    ensures Bounded(Submitted(log, project, ProposalId(request, project), request, oracle), d)
  {
    hide Strip, ConflictDecisions, ConflictReviews, Accepts, LastReview, DocumentsByType, CountConflicts, CountRevisions, OptionalStr;
    var proposal := ProposalId(request, project);
    var review := ReviewRecord(project, proposal, oracle.outcome);
    var log1 := log + [review];
    ConflictsOfAppend(log, review, d);
    var ceo := CeoRequestFor(request, project, OutcomeText(oracle.outcome));
    var log2 := Reviewed(log1, ceo, oracle.ceo).0;
    CountsAreConflicts(log1, d);
    if log2 != log1 {
      ConflictsOfAppend(log1, log2[|log1|], d);
      assert log2 == log1 + [log2[|log1|]];
      OutcomesDiffer(oracle.outcome);
    }
  }

  lemma CountsAreConflicts(log: Log, d: string)
    ensures RevisionCycleCount(log, d) >= ConflictReviews(log, d)
  {
  }

  lemma OutcomesDiffer(outcome: ReviewOutcome)
    ensures OutcomeText(outcome) != ""
    ensures OutcomeText(outcome) == CONFLICT <==> outcome == StrategicConflict
  {
    assert |"Aligned"| == 7 && |"Needs Revision"| == 14 && |CONFLICT| == 18;
  }

  lemma EventKeepsBound(log: Log, e: Event, d: string)
    requires Bounded(log, d) && Strip(d) == d && Regular(e)
    ensures Bounded(After(log, e), d)
  {
    hide Strip, ConflictDecisions, ConflictReviews, CsoHandled, ProposalFlow, OptionalStr, Submitted;
    match e
    case Submit(request, oracle) =>
      var project := OptionalStr(request.projectId);
      if project.None? || !ValidProjectId(project.value) || oracle.draftFails {
        FlowWithoutDecision(log, request, oracle);
      } else {
        FlowIsSubmitted(log, request, oracle);
        SubmissionKeepsBound(log, request, oracle, project.value, d);
      }
    case Review(proposalId, projectId, outcome, fails) =>
      ReviewKeepsBound(log, Some(proposalId), Some(projectId), outcome, fails, d);
    case Document(r, _, _) => ConflictsOfAppend(log, r, d);
  }

  /** At most two decisions in strategic conflict under any id without outer whitespace, whatever the
      models answer. */
  lemma {:induction false} AtMostTwoConflictDecisions(events: seq<Event>, d: string)
    requires AllRegular(events) && Strip(d) == d
    ensures ConflictDecisions(Run(events), d) <= 2
    ensures Bounded(Run(events), d)
  {
    hide Strip, After, Regular;
    if events != [] {
      var init := events[..|events| - 1];
      assert forall e <- init :: e in events;
      AtMostTwoConflictDecisions(init, d);
      assert events[|events| - 1] in events;
      hide ConflictDecisions, ConflictReviews;
      EventKeepsBound(Run(init), events[|events| - 1], d);
    }
  }

  // ----- and exactly when -----

  /** The id the CWO makes up is free of outer whitespace exactly when the trace id does not end in any. */
  lemma MadeUpIdIsStripped(project: string, trace: string)
    requires ValidProjectId(project)
    ensures Strip(project + "-" + trace) == project + "-" + trace <==> RStrip(trace) == trace
    ensures Strip(project + "-" + trace) != ""
  {
    var d := project + "-" + trace;
    StripOfTrimmed(d);
    assert project[0] in project;
    assert d[0] == project[0] && !IsSpace(d[0]);
    assert d[|d| - 1] == if trace == "" then '-' else trace[|trace| - 1];
    NonEmptyStrip(d);
    hide Strip;
  }

  lemma NonEmptyStrip(s: string)
    requires s != "" && !IsSpace(s[0])
    ensures Strip(s) != ""
  {
  }

  lemma ReviewIsFound(log: Log, proposal: string)
    requires HasReview(log, proposal)
    ensures LastReview(DocumentsByType(log, CsoReview), proposal).Some?
  {
    DocumentsByTypeMembers(log, CsoReview);
    hide DocumentsByType, IsReviewEvent;
  }

  const QUIET := CeoOracle(Deny, false, false)

  /** The same proposal submitted again: strategic conflict, and the CEO says no. */
  function Again(project: string, trace: string): Event {
    Submit(CwoRequest("MUTATION", Some("submit_proposal"), Some(project), trace, None, None, None, None, None, None, false),
           CwoOracle(StrategicConflict, false, false, QUIET, false, false, false, false))
  }

  function Resubmissions(project: string, trace: string, n: nat): seq<Event> {
    if n == 0 then [Review(Strip(project + "-" + trace), project, Aligned, false)]
    else Resubmissions(project, trace, n - 1) + [Again(project, trace)]
  }

  /** The log after n resubmissions under an id d whose stripped form p has one harmless review. */
  ghost predicate Unnoticed(log: Log, d: string, p: string, n: nat) {
    HasReview(log, p) && RevisionCycleCount(log, p) == 0 && ConflictDecisions(log, d) == n
  }

  lemma ReviewSurvives(log: Log, r: Record, proposal: string)
    requires HasReview(log, proposal)
    ensures HasReview(log + [r], proposal)
  {
    hide IsReviewOf;
    assert forall x <- log :: x in log + [r];
  }

  /** Records under d leave what is counted under p alone. */
  lemma RecordGoesUnnoticed(log: Log, r: Record, d: string, p: string, n: nat)
    requires Unnoticed(log, d, p, n) && r.proposalId == Some(d) && d != p
    ensures Unnoticed(log + [r], d, p, if IsConflictDecision(r, d) then n + 1 else n)
  {
    hide ConflictDecisions, RevisionCycleCount, HasReview;
    ReviewSurvives(log, r, p);
    CountOfAppend(log, r, p);
    ConflictsOfAppend(log, r, d);
  }

  lemma AgainIsTwoRecords(log: Log, project: string, trace: string)
    requires ValidProjectId(project)
    requires var p := Strip(project + "-" + trace); HasReview(log + [ReviewRecord(project, project + "-" + trace, StrategicConflict)], p)
    requires RevisionCycleCount(log + [ReviewRecord(project, project + "-" + trace, StrategicConflict)], Strip(project + "-" + trace)) == 0
    ensures var d := project + "-" + trace;
      After(log, Again(project, trace)) ==
        log + [ReviewRecord(project, d, StrategicConflict)] + [DecisionRecord(project, d, Deny, Some(CONFLICT), 0)]
  {
    hide Strip, RStrip, RevisionCycleCount, HasReview, Accepts, LastReview, DocumentsByType, ProposalFlow, ValidProjectId;
    var d := project + "-" + trace;
    var again := Again(project, trace);
    ProjectIdIsStripped(project);
    MadeUpIdIsStripped(project, trace);
    var log1 := log + [ReviewRecord(project, d, StrategicConflict)];
    ReviewIsFound(log1, Strip(d));
    ContextAccepted(log1, DecisionRecord(project, d, Deny, Some(CONFLICT), 0), CEO_PROPOSED);
    FlowIsSubmitted(log, again.request, again.oracle);
  }

  lemma AgainGoesUnnoticed(log: Log, project: string, trace: string, n: nat)
    requires ValidProjectId(project)
    requires var d := project + "-" + trace; Strip(d) != d && Unnoticed(log, d, Strip(d), n)
    ensures var d := project + "-" + trace; Unnoticed(After(log, Again(project, trace)), d, Strip(d), n + 1)
  {
    hide Strip, RStrip, ValidProjectId, After, Again, ConflictDecisions, RevisionCycleCount, HasReview;
    var d := project + "-" + trace;
    var review, decision := ReviewRecord(project, d, StrategicConflict), DecisionRecord(project, d, Deny, Some(CONFLICT), 0);
    RecordGoesUnnoticed(log, review, d, Strip(d), n);
    RecordGoesUnnoticed(log + [review], decision, d, Strip(d), n);
    AgainIsTwoRecords(log, project, trace);
  }

  lemma {:induction false} ResubmissionsAddUp(project: string, trace: string, n: nat)
    requires ValidProjectId(project) && Strip(project + "-" + trace) != project + "-" + trace
    ensures Unnoticed(Run(Resubmissions(project, trace, n)), project + "-" + trace, Strip(project + "-" + trace), n)
  {
    hide After, Strip, Unnoticed, ValidProjectId, Again;
    if n == 0 {
      FirstReview(project, trace);
    } else {
      ResubmissionsAddUp(project, trace, n - 1);
      var before := Resubmissions(project, trace, n - 1);
      assert (before + [Again(project, trace)])[..|before|] == before;
      AgainGoesUnnoticed(Run(before), project, trace, n - 1);
    }
  }

  lemma {:induction false} ResubmissionsAreRegular(project: string, trace: string, n: nat)
    ensures AllRegular(Resubmissions(project, trace, n))
  {
    hide Strip;
    if n > 0 {
      ResubmissionsAreRegular(project, trace, n - 1);
    }
  }

  lemma ReviewIsAppended(log: Log, project: string, proposal: string)
    requires ValidProjectId(project) && proposal != ""
    ensures CsoHandled(log, Some(proposal), Some(project), Aligned, false) == log + [ReviewRecord(project, proposal, Aligned)]
  {
    ProjectIdIsStripped(project);
    ContextAccepted(log, ReviewRecord(project, proposal, Aligned), CEO_ACTIVE);
    hide Strip, Accepts, ValidProjectId;
  }

  lemma ReviewIsReview(project: string, proposal: string, outcome: ReviewOutcome)
    ensures IsReviewOf(ReviewRecord(project, proposal, outcome), proposal)
  {
    OwnTexts(outcome);
    hide OptionalStr;
  }

  lemma FirstReview(project: string, trace: string)
    requires ValidProjectId(project) && Strip(project + "-" + trace) != project + "-" + trace
    ensures Unnoticed(Run(Resubmissions(project, trace, 0)), project + "-" + trace, Strip(project + "-" + trace), 0)
  {
    hide Strip, ValidProjectId, CsoHandled, RevisionCycleCount, ConflictDecisions, IsReviewOf, ReviewRecord, RStrip;
    var d := project + "-" + trace;
    var p := Strip(d);
    MadeUpIdIsStripped(project, trace);
    ReviewIsAppended([], project, p);
    var r := ReviewRecord(project, p, Aligned);
    var events := Resubmissions(project, trace, 0);
    assert events[..0] == [];
    assert Run(events) == [] + [r];
    ReviewIsReview(project, p, Aligned);
    assert HasReview(Run(events), p) by { assert r in [] + [r]; }
    HarmlessReview(project, p, d);
  }

  lemma HarmlessReview(project: string, p: string, d: string)
    ensures var log := [] + [ReviewRecord(project, p, Aligned)];
      RevisionCycleCount(log, p) == 0 && ConflictDecisions(log, d) == 0
  {
    OutcomesDiffer(Aligned);
    CountOfAppend([], ReviewRecord(project, p, Aligned), p);
    ConflictsOfAppend([], ReviewRecord(project, p, Aligned), d);
    NothingCounted(p, d);
    hide RevisionCycleCount, ConflictDecisions;
  }

  lemma NothingCounted(p: string, d: string)
    ensures RevisionCycleCount([], p) == 0 && ConflictDecisions([], d) == 0
  {
  }

  /** The bound for the ids the CWO makes up, exactly: it holds in every run if and only if the trace id
      does not end in whitespace. The CEO counts under the stripped id but records under the given one. */
  lemma BoundIsExact(project: string, trace: string)
    requires ValidProjectId(project)
    ensures RStrip(trace) == trace <==>
      forall events | AllRegular(events) :: ConflictDecisions(Run(events), project + "-" + trace) <= 2
  {
    hide Strip, RStrip, Run, ConflictDecisions, RevisionCycleCount, AllRegular, ValidProjectId;
    var d := project + "-" + trace;
    MadeUpIdIsStripped(project, trace);
    if RStrip(trace) == trace {
      forall events | AllRegular(events)
        ensures ConflictDecisions(Run(events), d) <= 2
      {
        AtMostTwoConflictDecisions(events, d);
      }
    } else {
      ResubmissionsAddUp(project, trace, 3);
      ResubmissionsAreRegular(project, trace, 3);
      assert ConflictDecisions(Run(Resubmissions(project, trace, 3)), d) == 3;
    }
  }
}
