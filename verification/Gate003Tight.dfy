/** GATE-003 under interleaving, the other half: runs that reach the bound (agents/cwo/agent.py,
    agents/ceo/agent.py). */
module Gate003Tight {
  import opened PyText
  import opened GovernanceLog
  import opened GovernanceAgents
  import opened Gate003
  import opened Gate003Interleaved
  import opened Gate003Exact

  // ----- a batch of overlapping flows -----

  /** Flows base to base + n are begun; all but the first write harmless reviews. */
  function Prelude(projectId: string, d: string, base: nat, n: nat): seq<Action> {
    if n == 0 then [Begin(projectId, d)]
    else Prelude(projectId, d, base, n - 1) + [Begin(projectId, d), WriteReview(base + n, Aligned)]
  }

  /** What a flow does after its review; the CEO says no. */
  function Finish(f: nat): seq<Action> {
    [ReadOutcome(f), VerifyReview(f), CountReviews(f), ClearGate(f), Decide(f, Deny)]
  }

  function Finishes(base: nat, n: nat): seq<Action> {
    if n == 0 then [] else Finishes(base, n - 1) + Finish(base + n - 1)
  }

  /** k flows overlap: the first writes a conflicting review after all the others' harmless ones, and
      then all read that one back. */
  function Batch(projectId: string, d: string, base: nat, k: nat): seq<Action> {
    if k == 0 then []
    else Prelude(projectId, d, base, k - 1) + [WriteReview(base, StrategicConflict)] + Finishes(base, k)
  }

  /** c conflicting reviews and x conflicting decisions so far, no revision asked for. */
  predicate Tally(log: Log, d: string, c: nat, x: nat) {
    && ConflictReviews(log, d) == c
    && CountRevisions(DocumentsByType(log, CeoProposalDecision), d) == 0
    && ConflictDecisions(log, d) == x
  }

  /** And nobody is between review and reading back. */
  ghost predicate Calm(w: World, d: string, c: nat, x: nat) {
    Tally(w.log, d, c, x) && forall flow <- w.flows :: !flow.phase.ReviewWritten?
  }

  lemma TallyOfReview(log: Log, projectId: string, d: string, outcome: ReviewOutcome, c: nat, x: nat)
    requires Tally(log, d, c, x)
    ensures Tally(log + [ReviewRecord(projectId, d, outcome)], d, if outcome == StrategicConflict then c + 1 else c, x)
  {
    hide ConflictReviews, ConflictDecisions, CountRevisions, DocumentsByType, RevisionCycleCount;
    var r := ReviewRecord(projectId, d, outcome);
    OutcomesDiffer(outcome);
    ConflictsOfAppend(log, r, d);
    CountOfAppend(log, r, d);
    CountIsSum(log, d);
    CountIsSum(log + [r], d);
  }

  lemma TallyOfDenial(log: Log, projectId: string, d: string, count: nat, c: nat, x: nat)
    requires Tally(log, d, c, x)
    ensures Tally(log + [DecisionRecord(projectId, d, Deny, Some(CONFLICT), count)], d, c, x + 1)
  {
    hide ConflictReviews, ConflictDecisions, CountRevisions, DocumentsByType, RevisionCycleCount;
    var r := DecisionRecord(projectId, d, Deny, Some(CONFLICT), count);
    ConflictsOfAppend(log, r, d);
    CountOfAppend(log, r, d);
    CountIsSum(log, d);
    CountIsSum(log + [r], d);
  }

  predicate WaitsWith(flow: Flow, projectId: string, d: string) {
    flow.projectId == projectId && flow.proposalId == d && flow.phase == ReviewWritten
  }

  /** After the prelude: flow base is about to write, those behind it wait. */
  ghost predicate Prepared(w: World, before: World, projectId: string, d: string, n: nat, c: nat, x: nat) {
    var base := |before.flows|;
    && |w.flows| == base + n + 1 && w.flows[..base] == before.flows
    && w.flows[base] == Flow(projectId, d, Aligned, 0, Drafted)
    && (forall f | base < f <= base + n :: WaitsWith(w.flows[f], projectId, d))
    && Tally(w.log, d, c, x)
  }

  lemma {:induction false} PreludePrepares(w: World, projectId: string, d: string, n: nat, c: nat, x: nat)
    requires ValidProjectId(projectId) && Strip(d) != "" && Tally(w.log, d, c, x)
    ensures Prepared(RunFrom(w, Prelude(projectId, d, |w.flows|, n)), w, projectId, d, n, c, x)
  {
    hide ValidProjectId, Tally, ConflictReviews, RunFrom, Strip, ReviewRecord;
    var base := |w.flows|;
    if n == 0 {
      assert Prelude(projectId, d, base, 0) == [] + [Begin(projectId, d)];
      RunOneMore(w, [], Begin(projectId, d));
      RunOfNothing(w);
    } else {
      PreludePrepares(w, projectId, d, n - 1, c, x);
      var before := Prelude(projectId, d, base, n - 1);
      assert Prelude(projectId, d, base, n) == before + [Begin(projectId, d)] + [WriteReview(base + n, Aligned)];
      RunOneMore(w, before, Begin(projectId, d));
      RunOneMore(w, before + [Begin(projectId, d)], WriteReview(base + n, Aligned));
      TallyOfReview(RunFrom(w, before).log, projectId, d, Aligned, c, x);
    }
  }

  /** Flows from base + m on read the conflict back; the others do not wait. */
  ghost predicate Overheard(w: World, projectId: string, d: string, base: nat, k: nat, m: nat, c: nat, x: nat) {
    && |w.flows| == base + k && m <= k
    && (forall f | 0 <= f < base + m :: !w.flows[f].phase.ReviewWritten?)
    && (forall f | base + m <= f < base + k :: WaitsWith(w.flows[f], projectId, d))
    && CsoReviewOutcome(w.log, projectId, d) == Some(CONFLICT)
    && HasReview(w.log, d)
    && Tally(w.log, d, c, x)
  }

  lemma ConflictIsOverheard(w: World, before: World, projectId: string, d: string, n: nat, c: nat, x: nat)
    requires Prepared(w, before, projectId, d, n, c, x) && Calm(before, d, c, x)
    ensures Overheard(Step(w, WriteReview(|before.flows|, StrategicConflict)), projectId, d, |before.flows|, n + 1, 0, c + 1, x)
  {
    hide Tally, CsoReviewOutcome, ConflictReviews, IsReviewOf;
    var base := |before.flows|;
    var r := ReviewRecord(projectId, d, StrategicConflict);
    FlowReadsOwnReview(w.log, projectId, d, StrategicConflict);
    TallyOfReview(w.log, projectId, d, StrategicConflict, c, x);
    ReviewIsReview(projectId, d, StrategicConflict);
    assert r in w.log + [r];
    assert forall f | 0 <= f < base :: w.flows[f] == before.flows[f] && before.flows[f] in before.flows;
  }

  lemma FinishIs(w: World, projectId: string, d: string, f: nat, c: nat, x: nat)
    requires f < |w.flows| && WaitsWith(w.flows[f], projectId, d) && Strip(d) == d
    requires CsoReviewOutcome(w.log, projectId, d) == Some(CONFLICT) && HasReview(w.log, d) && Tally(w.log, d, c, x) && c <= 2
    ensures RunFrom(w, Finish(f)) ==
      World(w.log + [DecisionRecord(projectId, d, Deny, Some(CONFLICT), c)], w.flows[f := w.flows[f].(phase := Phase.Decided(CONFLICT))])
  {
    hide Strip, RunFrom, CsoReviewOutcome, ConflictReviews, ConflictDecisions, DocumentsByType, CountRevisions, LastReview, HasReview;
    ReviewIsFound(w.log, d);
    var w4 := Step(Step(Step(Step(w, ReadOutcome(f)), VerifyReview(f)), CountReviews(f)), ClearGate(f));
    assert w4 == World(w.log, w.flows[f := w.flows[f].(phase := Cleared(CONFLICT, c))]);
    FiveSteps(w, Finish(f));
  }

  lemma FinishDecides(w: World, projectId: string, d: string, base: nat, k: nat, m: nat, c: nat, x: nat)
    requires Overheard(w, projectId, d, base, k, m, c, x) && m < k && c <= 2 && Strip(d) == d
    ensures Overheard(RunFrom(w, Finish(base + m)), projectId, d, base, k, m + 1, c, x + 1)
  {
    hide Strip, RunFrom, Finish, CsoReviewOutcome, HasReview, Tally, DecisionRecord;
    FinishIs(w, projectId, d, base + m, c, x);
    DenialOverheard(w.log, projectId, d, c, x);
  }

  /** A denial changes nothing the others read. */
  lemma DenialOverheard(log: Log, projectId: string, d: string, c: nat, x: nat)
    requires HasReview(log, d) && Tally(log, d, c, x)
    ensures var after := log + [DecisionRecord(projectId, d, Deny, Some(CONFLICT), c)];
      && CsoReviewOutcome(after, projectId, d) == CsoReviewOutcome(log, projectId, d)
      && HasReview(after, d) && Tally(after, d, c, x + 1)
  {
    hide CsoReviewOutcome, HasReview, Tally;
    var r := DecisionRecord(projectId, d, Deny, Some(CONFLICT), c);
    OutcomeUndisturbed(log, r, projectId, d);
    ReviewSurvives(log, r, d);
    TallyOfDenial(log, projectId, d, c, c, x);
  }

  lemma {:induction false} FinishesDecide(w: World, projectId: string, d: string, base: nat, k: nat, m: nat, c: nat, x: nat)
    requires Overheard(w, projectId, d, base, k, 0, c, x) && m <= k && c <= 2 && Strip(d) == d
    ensures Overheard(RunFrom(w, Finishes(base, m)), projectId, d, base, k, m, c, x + m)
  {
    hide Overheard, RunFrom, Strip, Finish;
    if m == 0 {
      RunOfNothing(w);
    } else {
      FinishesDecide(w, projectId, d, base, k, m - 1, c, x);
      RunInStages(w, Finishes(base, m - 1), Finish(base + m - 1));
      FinishDecides(RunFrom(w, Finishes(base, m - 1)), projectId, d, base, k, m - 1, c, x + m - 1);
    }
  }

  /** A batch of k flows after at most one conflicting review gets k decisions in strategic conflict. */
  lemma BatchDecides(w: World, projectId: string, d: string, k: nat, c: nat, x: nat)
    requires ValidProjectId(projectId) && d != "" && Strip(d) == d && Calm(w, d, c, x) && c <= 1 && k >= 1
    ensures var w' := RunFrom(w, Batch(projectId, d, |w.flows|, k));
      |w'.flows| == |w.flows| + k && Calm(w', d, c + 1, x + k)
  {
    hide RunFrom, Strip, ValidProjectId, Step, Tally;
    var base := |w.flows|;
    PreludePrepares(w, projectId, d, k - 1, c, x);
    var w1 := RunFrom(w, Prelude(projectId, d, base, k - 1));
    RunOneMore(w, Prelude(projectId, d, base, k - 1), WriteReview(base, StrategicConflict));
    ConflictIsOverheard(w1, w, projectId, d, k - 1, c, x);
    RunInStages(w, Prelude(projectId, d, base, k - 1) + [WriteReview(base, StrategicConflict)], Finishes(base, k));
    FinishesDecide(Step(w1, WriteReview(base, StrategicConflict)), projectId, d, base, k, k, c + 1, x);
  }

  // ----- how many wait meanwhile -----

  /** The action begins a flow or concerns one from `base` on. */
  predicate Confined(a: Action, base: nat) {
    match a
    case Begin(_, _) => true
    case WriteReview(f, _) => f >= base
    case ReadOutcome(f) => f >= base
    case VerifyReview(f) => f >= base
    case CountReviews(f) => f >= base
    case ClearGate(f) => f >= base
    case Decide(f, _) => f >= base
    case _ => false
  }

  lemma {:induction false} PreludeIsConfined(projectId: string, d: string, base: nat, n: nat)
    ensures forall a <- Prelude(projectId, d, base, n) :: Confined(a, base)
  {
    if n > 0 {
      PreludeIsConfined(projectId, d, base, n - 1);
    }
  }

  lemma {:induction false} FinishesAreConfined(base: nat, n: nat)
    ensures forall a <- Finishes(base, n) :: Confined(a, base)
  {
    if n > 0 {
      FinishesAreConfined(base, n - 1);
    }
  }

  lemma BatchIsConfined(projectId: string, d: string, base: nat, k: nat)
    ensures forall a <- Batch(projectId, d, base, k) :: Confined(a, base)
  {
    hide Prelude, Finishes;
    if k > 0 {
      PreludeIsConfined(projectId, d, base, k - 1);
      FinishesAreConfined(base, k);
    }
  }

  lemma ConfinedStep(w: World, a: Action, base: nat)
    requires base <= |w.flows| && Confined(a, base)
    ensures |w.flows| <= |Step(w, a).flows| && Step(w, a).flows[..base] == w.flows[..base]
  {
    hide AfterRead, ConflictReviews, ValidProjectId, Strip, ReviewRecord, DecisionRecord;
  }

  lemma {:induction false} ConfinedRun(w: World, actions: seq<Action>, base: nat, n: nat)
    requires base <= |w.flows| && n <= |actions| && forall a <- actions :: Confined(a, base)
    ensures base <= |RunFrom(w, actions[..n]).flows| <= |RunFrom(w, actions).flows|
    ensures RunFrom(w, actions[..n]).flows[..base] == w.flows[..base]
    decreases |actions|
  {
    hide Step, Confined;
    if actions == [] {
      assert actions[..n] == [];
    } else {
      var last := |actions| - 1;
      if n == |actions| {
        assert actions[..n] == actions;
        ConfinedRun(w, actions[..last], base, last);
        assert actions[..last][..last] == actions[..last];
      } else {
        assert actions[..last][..n] == actions[..n];
        ConfinedRun(w, actions[..last], base, n);
        ConfinedRun(w, actions[..last], base, last);
        assert actions[..last][..last] == actions[..last];
      }
      ConfinedStep(RunFrom(w, actions[..last]), actions[last], base);
    }
  }

  lemma {:induction false} RangeSize(s: set<nat>, base: nat, k: nat)
    requires forall f <- s :: base <= f < base + k
    ensures |s| <= k
  {
    if k == 0 {
      assert s == {};
    } else {
      RangeSize(s - {base + k - 1}, base, k - 1);
      assert s <= (s - {base + k - 1}) + {base + k - 1};
    }
  }

  /** Inside a batch only its own flows can wait. */
  lemma BatchWaits(w: World, projectId: string, d: string, k: nat, c: nat, x: nat, n: nat)
    requires ValidProjectId(projectId) && d != "" && Strip(d) == d && Calm(w, d, c, x) && c <= 1 && k >= 1
    requires n <= |Batch(projectId, d, |w.flows|, k)|
    ensures AtMostWaiting(RunFrom(w, Batch(projectId, d, |w.flows|, k)[..n]), k, d)
  {
    hide RunFrom, Batch, Strip, ValidProjectId, Tally;
    var base := |w.flows|;
    var actions := Batch(projectId, d, base, k);
    BatchDecides(w, projectId, d, k, c, x);
    BatchIsConfined(projectId, d, base, k);
    ConfinedRun(w, actions, base, n);
    var w' := RunFrom(w, actions[..n]);
    forall f | 0 <= f < base
      ensures !w'.flows[f].phase.ReviewWritten?
    {
      assert w'.flows[f] == w'.flows[..base][f] == w.flows[f] && w.flows[f] in w.flows;
    }
    forall p: string
      ensures |WaitingOn(w', p, d)| <= k
    {
      RangeSize(WaitingOn(w', p, d), base, k);
    }
  }

  /** Two batches, one after the other. */
  function TwoBatches(projectId: string, d: string, k: nat): seq<Action> {
    Batch(projectId, d, 0, k) + Batch(projectId, d, k, k)
  }

  lemma StartIsCalm(d: string)
    ensures Calm(START, d, 0, 0)
  {
  }

  lemma TwoBatchesDecide(projectId: string, d: string, k: nat)
    requires ValidProjectId(projectId) && d != "" && Strip(d) == d && k >= 1
    ensures ConflictDecisions(RunFrom(START, TwoBatches(projectId, d, k)).log, d) == 2 * k
    ensures AlwaysAtMost(TwoBatches(projectId, d, k), k, d)
  {
    hide RunFrom, Batch, Strip, ValidProjectId, ConflictDecisions, ConflictReviews, AtMostWaiting;
    var first, second := Batch(projectId, d, 0, k), Batch(projectId, d, k, k);
    StartIsCalm(d);
    BatchDecides(START, projectId, d, k, 0, 0);
    var w := RunFrom(START, first);
    BatchDecides(w, projectId, d, k, 1, k);
    RunInStages(START, first, second);
    var actions := TwoBatches(projectId, d, k);
    forall n | 0 <= n <= |actions|
      ensures AtMostWaiting(RunFrom(START, actions[..n]), k, d)
    {
      if n <= |first| {
        assert actions[..n] == first[..n];
        BatchWaits(START, projectId, d, k, 0, 0, n);
      } else {
        assert actions[..n] == first + second[..n - |first|];
        RunInStages(START, first, second[..n - |first|]);
        BatchWaits(w, projectId, d, k, 1, k, n - |first|);
      }
    }
  }

  // ----- exactly -----

  /** With at most k flows of a proposal waiting at a time in one project, the most decisions in strategic
      conflict any interleaving can record on it is 2k, neither more nor less. In particular GATE-003's
      bound of two holds in every such run if and only if no two flows may wait at once. */
  lemma WaitingBoundIsExact(projectId: string, d: string, k: nat, bound: nat)
    requires ValidProjectId(projectId) && d != "" && Strip(d) == d
    ensures (forall actions | AlwaysAtMost(actions, k, d) :: ConflictDecisions(RunFrom(START, actions).log, d) <= bound)
      <==> 2 * k <= bound
  {
    hide RunFrom, AlwaysAtMost, Strip, ConflictDecisions, ValidProjectId, TwoBatches;
    if 2 * k <= bound {
      forall actions | AlwaysAtMost(actions, k, d)
        ensures ConflictDecisions(RunFrom(START, actions).log, d) <= bound
      {
        AtMostTwicePerWaiting(actions, k, d);
      }
    } else {
      TwoBatchesDecide(projectId, d, k);
      assert ConflictDecisions(RunFrom(START, TwoBatches(projectId, d, k)).log, d) == 2 * k;
    }
  }

  lemma TwoIsKeptIff(projectId: string, d: string, k: nat)
    requires ValidProjectId(projectId) && d != "" && Strip(d) == d
    ensures (forall actions | AlwaysAtMost(actions, k, d) :: ConflictDecisions(RunFrom(START, actions).log, d) <= 2) <==> k <= 1
  {
    hide RunFrom, AlwaysAtMost, Strip, ConflictDecisions, ValidProjectId;
    WaitingBoundIsExact(projectId, d, k, 2);
  }

  /** n flows that overlap, none of them limited. */
  function Overlap(projectId: string, d: string, n: nat): seq<Action> {
    Batch(projectId, d, 0, n)
  }

  /** Without a limit on how many wait there is no bound at all: n overlapping flows, all but one of them
      with a harmless review, get n decisions in strategic conflict. */
  lemma OverlapIsUnbounded(projectId: string, d: string, n: nat)
    requires ValidProjectId(projectId) && d != "" && Strip(d) == d
    ensures ConflictDecisions(RunFrom(START, Overlap(projectId, d, n)).log, d) == n
  {
    StartIsCalm(d);
    if n > 0 {
      hide Batch, RunFrom, Strip, ConflictDecisions, ConflictReviews;
      BatchDecides(START, projectId, d, n, 0, 0);
    }
  }
}
