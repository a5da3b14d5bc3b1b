/** GATE-003 under interleaving, exactly: how many decisions in strategic conflict one proposal can get,
    by how many of its flows may at once have written their review and not yet read it back
    (agents/cwo/agent.py, agents/ceo/agent.py). */
module Gate003Exact {
  import opened PyText
  import opened GovernanceLog
  import opened GovernanceAgents
  import opened Gate003
  import opened Gate003Interleaved

  predicate IsWaiting(flow: Flow, projectId: string, d: string) {
    flow.phase.ReviewWritten? && flow.projectId == projectId && flow.proposalId == d
  }

  /** The flows of one proposal in one project between writing their review and reading it back. */
  function WaitingOn(w: World, projectId: string, d: string): set<nat> {
    set f: nat | f < |w.flows| && IsWaiting(w.flows[f], projectId, d)
  }

  ghost predicate AtMostWaiting(w: World, k: nat, d: string) {
    forall projectId: string :: |WaitingOn(w, projectId, d)| <= k
  }

  /** At no moment of the run do more than k flows of proposal d in one project wait. A caller sees to it
      by admitting no more. */
  ghost predicate AlwaysAtMost(actions: seq<Action>, k: nat, d: string) {
    forall n | 0 <= n <= |actions| :: AtMostWaiting(RunFrom(START, actions[..n]), k, d)
  }

  // ----- who can have read the first two conflicting reviews -----

  /** The flows that were waiting right after the first and the second conflicting review of d. */
  datatype Heard = Heard(first: set<nat>, second: set<nat>)

  function HearStep(h: Heard, before: World, after: World, d: string): Heard {
    var c, c' := ConflictReviews(before.log, d), ConflictReviews(after.log, d);
    if c' == c || after.log == [] then h
    else
      var now := WaitingOn(after, after.log[|after.log| - 1].projectId, d);
      if c' == 1 then h.(first := now) else if c' == 2 then h.(second := now) else h
  }

  function HeardIn(actions: seq<Action>, d: string): Heard {
    if actions == [] then Heard({}, {}) else
    var init := actions[..|actions| - 1];
    HearStep(HeardIn(init, d), RunFrom(START, init), RunFrom(START, actions), d)
  }

  predicate InEither(h: Heard, f: nat) {
    f in h.first || f in h.second
  }

  /** A flow that reads or has read a conflict was there when one of the first two was written, or else
      the CEO has counted three or is about to. `c` is the number of conflicting reviews so far, `read`
      what the flow would read back. */
  predicate FlowHeard(flow: Flow, f: nat, c: nat, read: Option<string>, h: Heard) {
    match flow.phase
    case ReviewWritten => read == Some(CONFLICT) ==> InEither(h, f) || c >= 3
    case OutcomeRead(outcome) => outcome == CONFLICT ==> InEither(h, f) || c >= 3
    case ReviewVerified(outcome) => outcome == CONFLICT ==> InEither(h, f) || c >= 3
    case ReviewsCounted(outcome, reviews) => outcome == CONFLICT ==> InEither(h, f) || reviews >= 3
    case Cleared(outcome, _) => outcome == CONFLICT ==> InEither(h, f)
    case Decided(outcome) => outcome == CONFLICT ==> InEither(h, f)
    case _ => true
  }

  function ReadBack(w: World, f: nat): Option<string>
    requires f < |w.flows|
  {
    CsoReviewOutcome(w.log, w.flows[f].projectId, w.flows[f].proposalId)
  }

  predicate HeardAt(w: World, h: Heard, f: nat, d: string)
    requires f < |w.flows|
  {
    w.flows[f].proposalId == d ==> FlowHeard(w.flows[f], f, ConflictReviews(w.log, d), ReadBack(w, f), h)
  }

  /** Nothing is heard before it is written. */
  predicate Timely(h: Heard, c: nat) {
    (c < 1 ==> h.first == {}) && (c < 2 ==> h.second == {})
  }

  ghost predicate HeardInv(w: World, h: Heard, d: string) {
    && (forall f: nat | f < |w.flows| :: HeardAt(w, h, f, d))
    && Timely(h, ConflictReviews(w.log, d))
    && ConflictDecisions(w.log, d) == CountDecided(w.flows, d)
  }

  predicate IsConflictReview(r: Record, d: string) {
    r.kind == CsoReview && r.proposalId == Some(d) && r.reviewOutcome == Some(CONFLICT)
  }

  /** What an append does to who has heard. */
  lemma HearAppend(h: Heard, before: World, after: World, r: Record, d: string)
    requires after.log == before.log + [r] && Timely(h, ConflictReviews(before.log, d))
    ensures var c, c', h' := ConflictReviews(before.log, d), ConflictReviews(after.log, d), HearStep(h, before, after, d);
      && c' == c + (if IsConflictReview(r, d) then 1 else 0)
      && Timely(h', c')
      && (forall f: nat :: InEither(h, f) ==> InEither(h', f))
      && (!IsConflictReview(r, d) ==> h' == h)
      && (IsConflictReview(r, d) && c' <= 2 ==> forall f <- WaitingOn(after, r.projectId, d) :: InEither(h', f))
  {
    hide ConflictReviews, WaitingOn;
    ConflictsOfAppend(before.log, r, d);
    assert after.log[|after.log| - 1] == r;
  }

  /** A flow untouched by an append has still heard what it has to. */
  lemma AppendKeepsHeard(h: Heard, before: World, after: World, r: Record, f: nat, d: string)
    requires after.log == before.log + [r] && Timely(h, ConflictReviews(before.log, d))
    requires r.kind == CsoReview ==> exists p, id, o :: r == ReviewRecord(p, id, o)
    requires f < |before.flows| && f < |after.flows| && after.flows[f] == before.flows[f] && HeardAt(before, h, f, d)
    ensures HeardAt(after, HearStep(h, before, after, d), f, d)
  {
    hide ConflictReviews, CsoReviewOutcome, HearStep, InEither;
    HearAppend(h, before, after, r, d);
    var flow := before.flows[f];
    if flow.proposalId == d && flow.phase.ReviewWritten? {
      if r.kind == CsoReview && r.projectId == flow.projectId && r.proposalId == Some(d) {
        var p, id, o :| r == ReviewRecord(p, id, o);
        FlowReadsOwnReview(before.log, flow.projectId, d, o);
        OutcomesDiffer(o);
        assert IsConflictReview(r, d) ==> f in WaitingOn(after, r.projectId, d);
      } else {
        OutcomeUndisturbed(before.log, r, flow.projectId, d);
      }
    }
  }

  /** The flow that has just written its own review. */
  lemma AuthorHears(h: Heard, before: World, after: World, f: nat, outcome: ReviewOutcome, d: string)
    requires InPhase(before, WriteReview(f, outcome)) && after == Next(before, WriteReview(f, outcome))
    requires Timely(h, ConflictReviews(before.log, d))
    ensures HeardAt(after, HearStep(h, before, after, d), f, d)
  {
    hide ConflictReviews, CsoReviewOutcome, HearStep, InEither;
    var flow := before.flows[f];
    var r := ReviewOf(flow, outcome);
    HearAppend(h, before, after, r, d);
    FlowReadsOwnReview(before.log, flow.projectId, flow.proposalId, outcome);
    OutcomesDiffer(outcome);
    if flow.proposalId == d && outcome == StrategicConflict {
      assert f in WaitingOn(after, flow.projectId, d);
    }
  }

  lemma WriteKeepsHeard(w: World, h: Heard, f: nat, outcome: ReviewOutcome, d: string)
    requires HeardInv(w, h, d) && InPhase(w, WriteReview(f, outcome))
    ensures var w' := Next(w, WriteReview(f, outcome)); HeardInv(w', HearStep(h, w, w', d), d)
  {
    hide ConflictReviews, ConflictDecisions, CountDecided, HearStep, HeardAt;
    var w' := Next(w, WriteReview(f, outcome));
    var r := ReviewOf(w.flows[f], outcome);
    HearAppend(h, w, w', r, d);
    ConflictsOfAppend(w.log, r, d);
    CountOfUpdate(w.flows, f, w'.flows[f], d);
    AuthorHears(h, w, w', f, outcome, d);
    forall g: nat | g < |w'.flows| && g != f
      ensures HeardAt(w', HearStep(h, w, w', d), g, d)
    {
      AppendKeepsHeard(h, w, w', r, g, d);
    }
  }

  lemma DecideKeepsHeard(w: World, h: Heard, f: nat, decision: CeoDecision, d: string)
    requires HeardInv(w, h, d) && InPhase(w, Decide(f, decision))
    ensures var w' := Next(w, Decide(f, decision)); HeardInv(w', HearStep(h, w, w', d), d)
  {
    hide ConflictReviews, ConflictDecisions, CountDecided, HearStep, CsoReviewOutcome;
    var w' := Next(w, Decide(f, decision));
    var r := DecisionOf(w.flows[f], decision);
    HearAppend(h, w, w', r, d);
    ConflictsOfAppend(w.log, r, d);
    CountOfUpdate(w.flows, f, w'.flows[f], d);
    assert HeardAt(w, h, f, d);
    hide HeardAt;
    forall g: nat | g < |w'.flows| && g != f
      ensures HeardAt(w', HearStep(h, w, w', d), g, d)
    {
      AppendKeepsHeard(h, w, w', r, g, d);
    }
    DeciderHeard(w, h, f, decision, d);
  }

  lemma DeciderHeard(w: World, h: Heard, f: nat, decision: CeoDecision, d: string)
    requires InPhase(w, Decide(f, decision)) && HeardAt(w, h, f, d) && Timely(h, ConflictReviews(w.log, d))
    ensures var w' := Next(w, Decide(f, decision)); HeardAt(w', HearStep(h, w, w', d), f, d)
  {
    hide ConflictReviews, HearStep, CsoReviewOutcome;
    HearAppend(h, w, Next(w, Decide(f, decision)), DecisionOf(w.flows[f], decision), d);
  }

  lemma OthersKeepHeard(w: World, h: Heard, a: Action, d: string)
    requires HeardInv(w, h, d) && InPhase(w, a) && (a.DirectReview? || a.OtherDocument?)
    ensures HeardInv(Next(w, a), HearStep(h, w, Next(w, a), d), d)
  {
    hide ConflictReviews, ConflictDecisions, CountDecided, HearStep, HeardAt, Accepts, Strip;
    var w' := Next(w, a);
    if w'.log == w.log {
      SameLogSameHeard(h, w, w', d);
    } else {
      var r := if a.DirectReview? then ReviewRecord(Strip(a.project), a.proposal, a.outcome) else a.record;
      HearAppend(h, w, w', r, d);
      ConflictsOfAppend(w.log, r, d);
      forall g: nat | g < |w'.flows|
        ensures HeardAt(w', HearStep(h, w, w', d), g, d)
      {
        AppendKeepsHeard(h, w, w', r, g, d);
      }
    }
  }

  lemma SameLogSameHeard(h: Heard, before: World, after: World, d: string)
    requires after.log == before.log
    ensures HearStep(h, before, after, d) == h
  {
  }

  /** A flow that reads takes over what is there. */
  lemma ReadKeepsHeard(w: World, h: Heard, f: nat, d: string)
    requires Strip(d) == d && f < |w.flows| && HeardAt(w, h, f, d)
    ensures HeardAt(SetPhase(w, f, AfterRead(w.log, w.flows[f])), h, f, d)
    ensures w.flows[f].phase.Decided? || !AfterRead(w.log, w.flows[f]).Decided?
  {
    hide Strip, CsoReviewOutcome, ConflictReviews, LastReview, DocumentsByType, CountRevisions, InEither;
  }

  lemma MoveKeepsHeard(w: World, h: Heard, f: nat, phase: Phase, d: string)
    requires HeardInv(w, h, d) && f < |w.flows| && !w.flows[f].phase.Decided? && !phase.Decided?
    requires HeardAt(SetPhase(w, f, phase), h, f, d)
    ensures HeardInv(SetPhase(w, f, phase), HearStep(h, w, SetPhase(w, f, phase), d), d)
  {
    hide ConflictReviews, ConflictDecisions, CountDecided, HearStep, FlowHeard, CsoReviewOutcome;
    var w' := SetPhase(w, f, phase);
    SameLogSameHeard(h, w, w', d);
    CountOfUpdate(w.flows, f, w'.flows[f], d);
    forall g: nat | g < |w'.flows| && g != f
      ensures HeardAt(w', h, g, d)
    {
      assert HeardAt(w, h, g, d);
    }
  }

  lemma BeginKeepsHeard(w: World, h: Heard, a: Action, d: string)
    requires HeardInv(w, h, d) && InPhase(w, a) && a.Begin?
    ensures HeardInv(Next(w, a), HearStep(h, w, Next(w, a), d), d)
  {
    hide ConflictReviews, ConflictDecisions, CountDecided, HearStep, CsoReviewOutcome, ValidProjectId, Strip, InEither;
    var w' := Next(w, a);
    SameLogSameHeard(h, w, w', d);
    CountOfBegin(w.flows, w'.flows[|w.flows|], d);
    forall g: nat | g < |w'.flows|
      ensures HeardAt(w', h, g, d)
    {
      assert g < |w.flows| ==> HeardAt(w, h, g, d);
    }
  }

  lemma HeardOf(w: World, h: Heard, f: nat, d: string)
    requires HeardInv(w, h, d) && f < |w.flows|
    ensures HeardAt(w, h, f, d)
  {
    hide HeardAt;
  }

  lemma StepKeepsHeard(w: World, h: Heard, a: Action, d: string)
    requires HeardInv(w, h, d) && Strip(d) == d
    ensures HeardInv(Step(w, a), HearStep(h, w, Step(w, a), d), d)
  {
    hide HeardInv, HearStep, Strip, AfterRead, HeardAt, ValidProjectId;
    if !InPhase(w, a) {
      SameLogSameHeard(h, w, w, d);
    } else {
      match a
      case WriteReview(f, outcome) => WriteKeepsHeard(w, h, f, outcome, d);
      case Decide(f, decision) => DecideKeepsHeard(w, h, f, decision, d);
      case Begin(_, _) => BeginKeepsHeard(w, h, a, d);
      case DirectReview(_, _, _, _) => OthersKeepHeard(w, h, a, d);
      case OtherDocument(_, _, _) => OthersKeepHeard(w, h, a, d);
      case Abandon(f) =>
        StoppedHears(w, h, f, d);
        MoveKeepsHeard(w, h, f, Stopped, d);
      case _ =>
        HeardOf(w, h, a.f, d);
        ReadKeepsHeard(w, h, a.f, d);
        MoveKeepsHeard(w, h, a.f, AfterRead(w.log, w.flows[a.f]), d);
    }
  }

  lemma StoppedHears(w: World, h: Heard, f: nat, d: string)
    requires f < |w.flows|
    ensures HeardAt(SetPhase(w, f, Stopped), h, f, d)
  {
  }

  lemma {:induction false} HeardAlways(actions: seq<Action>, d: string)
    requires Strip(d) == d
    ensures HeardInv(RunFrom(START, actions), HeardIn(actions, d), d)
  {
    hide HeardInv, HearStep, Step, Strip;
    if actions == [] {
      NothingHeard(d);
    } else {
      var init := actions[..|actions| - 1];
      HeardAlways(init, d);
      StepKeepsHeard(RunFrom(START, init), HeardIn(init, d), actions[|actions| - 1], d);
    }
  }

  lemma NothingHeard(d: string)
    ensures HeardInv(START, Heard({}, {}), d)
  {
  }

  /** No more have heard than were waiting at a time. */
  lemma {:induction false} FewHaveHeard(actions: seq<Action>, k: nat, d: string)
    requires AlwaysAtMost(actions, k, d)
    ensures |HeardIn(actions, d).first| <= k && |HeardIn(actions, d).second| <= k
  {
    hide RunFrom, WaitingOn, ConflictReviews;
    if actions != [] {
      var init := actions[..|actions| - 1];
      forall n | 0 <= n <= |init|
        ensures AtMostWaiting(RunFrom(START, init[..n]), k, d)
      {
        assert init[..n] == actions[..n];
      }
      FewHaveHeard(init, k, d);
      assert actions[..|actions|] == actions;
      assert AtMostWaiting(RunFrom(START, actions), k, d);
    }
  }

  // ----- the bound -----

  function DecidedSet(flows: seq<Flow>, d: string): set<nat> {
    set f: nat | f < |flows| && DecidedConflict(flows[f], d)
  }

  lemma {:induction false} DecidedSetSize(flows: seq<Flow>, d: string)
    ensures |DecidedSet(flows, d)| == CountDecided(flows, d)
  {
    hide DecidedConflict;
    if flows == [] {
      assert DecidedSet(flows, d) == {};
    } else {
      var last := |flows| - 1;
      DecidedSetSize(flows[..last], d);
      assert DecidedSet(flows, d) == DecidedSet(flows[..last], d) + if DecidedConflict(flows[last], d) then {last} else {};
    }
  }

  lemma SubsetSize(a: set<nat>, b: set<nat>, c: set<nat>)
    requires a <= b + c
    ensures |a| <= |b| + |c|
  {
    assert b + c == a + (b + c - a);
    assert |b + c| == |b| + |c - b|;
    assert c == (c - b) + (c * b);
  }

  /** With at most k flows of a proposal waiting at a time in any one project, no interleaving records
      more than 2k decisions in strategic conflict on it, however many flows there are and whatever
      reviews are asked for directly. */
  lemma AtMostTwicePerWaiting(actions: seq<Action>, k: nat, d: string)
    requires Strip(d) == d && AlwaysAtMost(actions, k, d)
    ensures ConflictDecisions(RunFrom(START, actions).log, d) <= 2 * k
  {
    hide RunFrom, AlwaysAtMost, Strip, HeardIn, ConflictDecisions, ConflictReviews, CountDecided;
    HeardAlways(actions, d);
    FewHaveHeard(actions, k, d);
    var w, h := RunFrom(START, actions), HeardIn(actions, d);
    DecidedSetSize(w.flows, d);
    forall f | f in DecidedSet(w.flows, d)
      ensures f in h.first + h.second
    {
      assert HeardAt(w, h, f, d);
    }
    SubsetSize(DecidedSet(w.flows, d), h.first, h.second);
  }

  // ----- no two at a time -----

  /** A submission writes its review only when no other flow of the proposal in the project waits. */
  predicate Exclusive(w: World, a: Action) {
    a.WriteReview? && InPhase(w, a) ==> WaitingOn(w, w.flows[a.f].projectId, w.flows[a.f].proposalId) == {}
  }

  ghost predicate AllExclusive(actions: seq<Action>) {
    forall n | 0 <= n < |actions| :: Exclusive(RunFrom(START, actions[..n]), actions[n])
  }

  lemma ExclusiveStep(w: World, a: Action, d: string)
    requires AtMostWaiting(w, 1, d) && Exclusive(w, a)
    ensures AtMostWaiting(Step(w, a), 1, d)
  {
    hide ConflictReviews, CsoReviewOutcome, LastReview, DocumentsByType, CountRevisions, Accepts, Strip, ValidProjectId, ReviewOf;
    var w' := Step(w, a);
    forall projectId: string
      ensures |WaitingOn(w', projectId, d)| <= 1
    {
      var before, after := WaitingOn(w, projectId, d), WaitingOn(w', projectId, d);
      if a.WriteReview? && InPhase(w, a) && w.flows[a.f].projectId == projectId && w.flows[a.f].proposalId == d {
        assert after == {a.f};
      } else {
        assert after <= before;
        SubsetSize(after, before, {});
      }
    }
  }

  lemma {:induction false} ExclusiveMeansOne(actions: seq<Action>, d: string)
    requires AllExclusive(actions)
    ensures AlwaysAtMost(actions, 1, d)
  {
    hide Step, Exclusive, AtMostWaiting;
    if actions == [] {
      assert AtMostWaiting(START, 1, d) by { NobodyWaits(d); }
    } else {
      var init := actions[..|actions| - 1];
      forall n | 0 <= n < |init|
        ensures Exclusive(RunFrom(START, init[..n]), init[n])
      {
        assert init[..n] == actions[..n];
      }
      ExclusiveMeansOne(init, d);
      assert init[..|init|] == init && actions[..|init|] == init;
      ExclusiveStep(RunFrom(START, init), actions[|init|], d);
      forall n | 0 <= n <= |actions|
        ensures AtMostWaiting(RunFrom(START, actions[..n]), 1, d)
      {
        if n < |actions| {
          assert actions[..n] == init[..n];
        } else {
          assert actions[..n] == actions;
        }
      }
    }
  }

  lemma NobodyWaits(d: string)
    ensures AtMostWaiting(START, 1, d)
  {
    assert forall projectId: string :: WaitingOn(START, projectId, d) == {};
  }

  lemma AtMostTwoWhenExclusive(actions: seq<Action>, d: string)
    requires Strip(d) == d && AllExclusive(actions)
    ensures ConflictDecisions(RunFrom(START, actions).log, d) <= 2
  {
    ExclusiveMeansOne(actions, d);
    AtMostTwicePerWaiting(actions, 1, d);
  }
}
