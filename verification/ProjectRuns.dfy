/** Governance endpoints interleaved: each changes the project first and then, as a separate step that
    may fail or never happen, its channel binding (control_plane/routers/governance.py). */
module ProjectRuns {
  import opened PyText
  import opened ProjectLifecycle
  import Spaces = ProjectSpaces

  /** The binding half of an endpoint whose project half succeeded. */
  datatype Pending =
    | CreateChannel(projectId: string, guildId: string)
    | ChannelEvent(projectId: string, event: string)
    | Finished

  datatype World = World(projects: Projects, spaces: Spaces.Spaces, pending: seq<Pending>)

  const INITIAL := World(map[], Spaces.Spaces([], 0), [])

  datatype Action =
    | Request(projectId: string, role: string, op: Operation)
    | Create(k: nat, channel: Option<string>, insertFails: bool)   // run the k-th pending creation
    | Touch(k: nat, row: nat)                                      // run the k-th pending transition on a row
    | Miss(k: nat)                                                 // ... when the project has no row

  function BindingHalf(id: string, op: Operation): seq<Pending> {
    match op
    case Initialize(guildId) => if guildId == "" then [] else [CreateChannel(id, guildId)]
    case FinalizeCompletion => [ChannelEvent(id, "archive")]
    case Terminate => [ChannelEvent(id, "lock")]
    case _ => []
  }

  function AfterRequest(w: World, id: string, role: string, op: Operation): World {
    var (projects, result) := Perform(w.projects, id, role, op);
    World(projects, w.spaces, w.pending + if result.Ok? then BindingHalf(id, op) else [])
  }

  /** One step; one that cannot be taken changes nothing. Whether the channel operation of a
      transition fails makes no difference to the table. */
  function Step(w: World, a: Action): World {
    match a
    case Request(id, role, op) => AfterRequest(w, id, role, op)
    case Create(k, channel, insertFails) =>
      if k < |w.pending| && w.pending[k].CreateChannel? then
        var p := w.pending[k];
        World(w.projects,
              if channel.Some? && !insertFails then Spaces.Inserted(w.spaces, p.projectId, p.guildId, channel.value) else w.spaces,
              w.pending[k := Finished])
      else w
    case Touch(k, row) =>
      if k < |w.pending| && w.pending[k].ChannelEvent? && row < |w.spaces.rows| && w.spaces.rows[row].projectId == w.pending[k].projectId then
        World(w.projects, Spaces.Transitioned(w.spaces, row, w.pending[k].event), w.pending[k := Finished])
      else w
    case Miss(k) =>
      if k < |w.pending| && w.pending[k].ChannelEvent? && (forall b <- w.spaces.rows :: b.projectId != w.pending[k].projectId) then
        w.(pending := w.pending[k := Finished])
      else w
  }

  function Run(actions: seq<Action>): World {
    if actions == [] then INITIAL else Step(Run(actions[..|actions| - 1]), actions[|actions| - 1])
  }

  // ----- the two state machines agree -----

  predicate Ended(projects: Projects, id: string, how: ProjectStatus) {
    id in projects && (projects[id].status == how || projects[id].status == ProjectStatus.Archived)
  }

  predicate RowAgrees(projects: Projects, b: Spaces.Binding) {
    match b.state
    case Active => b.projectId in projects && Activated(projects[b.projectId])
    case Archived => Ended(projects, b.projectId, Completed)
    case Locked => Ended(projects, b.projectId, ProjectStatus.Terminated)
    case _ => false
  }

  predicate PendingAgrees(projects: Projects, p: Pending) {
    match p
    case CreateChannel(id, _) => id in projects && Activated(projects[id])
    case ChannelEvent(id, event) =>
      || (event == "archive" && Ended(projects, id, Completed))
      || (event == "lock" && Ended(projects, id, ProjectStatus.Terminated))
    case Finished => true
  }

  ghost predicate Inv(w: World) {
    && (forall i | 0 <= i < |w.spaces.rows| :: RowAgrees(w.projects, w.spaces.rows[i]))
    && (forall k | 0 <= k < |w.pending| :: PendingAgrees(w.projects, w.pending[k]))
    && Spaces.Clocked(w.spaces)
  }

  /** An operation forgets no project and never leads back: what has been activated, completed or
      terminated stays so. */
  predicate Later(projects: Projects, projects': Projects) {
    forall id | id in projects ::
      && id in projects'
      && (Activated(projects[id]) ==> Activated(projects'[id]))
      && (Ended(projects, id, Completed) ==> Ended(projects', id, Completed))
      && (Ended(projects, id, ProjectStatus.Terminated) ==> Ended(projects', id, ProjectStatus.Terminated))
  }

  predicate Forward(p: Project, q: Project) {
    && (Activated(p) ==> Activated(q))
    && (p.status == Completed || p.status == ProjectStatus.Archived ==> q.status == Completed || q.status == ProjectStatus.Archived)
    && (p.status == ProjectStatus.Terminated || p.status == ProjectStatus.Archived ==>
          q.status == ProjectStatus.Terminated || q.status == ProjectStatus.Archived)
  }

  lemma StoredGoesForward(projects: Projects, id: string, op: Project -> Result<Project>)
    requires forall p | op(p).Ok? :: Forward(p, op(p).value)
    ensures Later(projects, Stored(projects, id, op).0)
  {
  }

  lemma TransitionGoesForward(next: ProjectStatus, role: string)
    ensures forall p | Transition(p, next, role).Ok? :: Forward(p, Transition(p, next, role).value)
  {
    hide CompletionBar;
  }

  lemma PerformGoesForward(projects: Projects, id: string, role: string, op: Operation)
    ensures Later(projects, Perform(projects, id, role, op).0)
  {
    hide NormalizeRole, RolesFor, Approve, ApprovedByAll, Transition, Stored;
    var r := NormalizeRole(role);
    match op
    case CreateProposal(_) =>
    case ApproveProposal(actorId) => StoredGoesForward(projects, id, p => WithProposalApproval(p, Approval(Strip(actorId), r)));
    case Initialize(_) => StoredGoesForward(projects, id, WithInitialization);
    case SubmitReport => StoredGoesForward(projects, id, WithReport);
    case ApproveCompletion(actorId) => StoredGoesForward(projects, id, p => WithCompletionApproval(p, Approval(Strip(actorId), r)));
    case FinalizeCompletion =>
      if id in projects {
        TransitionGoesForward(Completed, r);
        StoredGoesForward(projects[id := projects[id].(ownerNotified := true)], id, p => Transition(p, Completed, r));
      }
    case Pause => TransitionGoesForward(Paused, r); StoredGoesForward(projects, id, p => Transition(p, Paused, r));
    case Resume => TransitionGoesForward(Active, r); StoredGoesForward(projects, id, p => Transition(p, Active, r));
    case Terminate =>
      TransitionGoesForward(ProjectStatus.Terminated, r);
      StoredGoesForward(projects, id, p => Transition(p, ProjectStatus.Terminated, r));
    case Archive =>
      TransitionGoesForward(ProjectStatus.Archived, r);
      StoredGoesForward(projects, id, p => Transition(p, ProjectStatus.Archived, r));
  }

  /** What a successful operation with a binding half says about the project. */
  lemma PerformReaches(projects: Projects, id: string, role: string, op: Operation)
    requires Perform(projects, id, role, op).1.Ok?
    ensures var after := Perform(projects, id, role, op).0;
      && (op.Initialize? ==> id in after && Activated(after[id]))
      && (op.FinalizeCompletion? ==> Ended(after, id, Completed))
      && (op.Terminate? ==> Ended(after, id, ProjectStatus.Terminated))
  {
    hide NormalizeRole, RolesFor, CompletionBar, ApprovedByAll, Approve, FindApproval;
  }

  lemma AgreementLasts(projects: Projects, projects': Projects, b: Spaces.Binding, p: Pending)
    requires Later(projects, projects')
    ensures RowAgrees(projects, b) ==> RowAgrees(projects', b)
    ensures PendingAgrees(projects, p) ==> PendingAgrees(projects', p)
  {
    hide Activated;
  }

  lemma RequestKeeps(w: World, id: string, role: string, op: Operation)
    requires Inv(w)
    ensures Inv(AfterRequest(w, id, role, op))
  {
    hide Perform, Activated, RowAgrees, Later, Ended;
    var w' := AfterRequest(w, id, role, op);
    PerformGoesForward(w.projects, id, role, op);
    forall i | 0 <= i < |w'.spaces.rows|
      ensures RowAgrees(w'.projects, w'.spaces.rows[i])
    {
      AgreementLasts(w.projects, w'.projects, w.spaces.rows[i], Finished);
    }
    forall k | 0 <= k < |w'.pending|
      ensures PendingAgrees(w'.projects, w'.pending[k])
    {
      if k < |w.pending| {
        AgreementLasts(w.projects, w'.projects, NOBODY, w.pending[k]);
      } else {
        PerformReaches(w.projects, id, role, op);
      }
    }
  }

  const NOBODY := Spaces.Binding("", "", "", "", Spaces.Active, "", 0)

  lemma BindingStepKeeps(w: World, a: Action)
    requires Inv(w) && !a.Request?
    ensures Inv(Step(w, a))
  {
    hide Activated, Ended, Spaces.Clocked;
    match a
    case Create(k, channel, _) =>
      if k < |w.pending| && w.pending[k].CreateChannel? && channel.Some? {
        assert PendingAgrees(w.projects, w.pending[k]);
        Spaces.WritesKeepClock(w.spaces, 0, Spaces.Active, w.pending[k].projectId, w.pending[k].guildId, channel.value);
      }
    case Touch(k, row) =>
      if k < |w.pending| && row < |w.spaces.rows| && w.pending[k].ChannelEvent? {
        assert PendingAgrees(w.projects, w.pending[k]);
        assert RowAgrees(w.projects, w.spaces.rows[row]);
        NotBoth(w.projects, w.spaces.rows[row].projectId);
        var target := Spaces.TargetState(w.pending[k].event, w.spaces.rows[row].state);
        if target.Some? {
          Spaces.WritesKeepClock(w.spaces, row, target.value, "", "", "");
        }
      }
    case Miss(_) =>
  }

  /** A project's channel is never first archived and then locked: only archived projects could have
      gone both ways, and they went one. */
  lemma NotBoth(projects: Projects, id: string)
    ensures Ended(projects, id, Completed) && Ended(projects, id, ProjectStatus.Terminated) ==>
      projects[id].status == ProjectStatus.Archived
  {
  }

  lemma {:induction false} InvAlways(actions: seq<Action>)
    ensures Inv(Run(actions))
  {
    hide Step, Inv;
    if actions == [] {
      InvInitially();
    } else {
      var w, a := Run(actions[..|actions| - 1]), actions[|actions| - 1];
      InvAlways(actions[..|actions| - 1]);
      StepKeeps(w, a);
    }
  }

  lemma StepKeeps(w: World, a: Action)
    requires Inv(w)
    ensures Inv(Step(w, a))
  {
    hide Inv;
    if a.Request? {
      RequestKeeps(w, a.projectId, a.role, a.op);
    } else {
      BindingStepKeeps(w, a);
    }
  }

  lemma InvInitially()
    ensures Inv(INITIAL)
  {
  }

  /** However endpoints interleave and whatever fails: an archived binding means a completed or archived
      project, a locked one a terminated or archived project, and a project that is active or paused has
      only active bindings. */
  lemma LifecycleAndBindingAgree(actions: seq<Action>, b: Spaces.Binding)
    requires b in Run(actions).spaces.rows
    ensures b.projectId in Run(actions).projects
    ensures var status := Run(actions).projects[b.projectId].status;
      && (b.state.Archived? ==> status == Completed || status == ProjectStatus.Archived)
      && (b.state.Locked? ==> status == ProjectStatus.Terminated || status == ProjectStatus.Archived)
      && (status == Active || status == Paused ==> b.state.Active?)
      && status != ProjectStatus.Proposed && status != Approved
  {
    InvAlways(actions);
    hide Run;
    var w := Run(actions);
    var i :| 0 <= i < |w.spaces.rows| && w.spaces.rows[i] == b;
    assert RowAgrees(w.projects, b);
  }

  lemma {:induction false} GovernedAlways(actions: seq<Action>)
    ensures AllGoverned(Run(actions).projects)
  {
    hide Perform, AllGoverned, Spaces.Transitioned, Spaces.Inserted;
    if actions == [] {
      NothingGoverned();
    } else {
      GovernedAlways(actions[..|actions| - 1]);
      var w, a := Run(actions[..|actions| - 1]), actions[|actions| - 1];
      if a.Request? {
        PerformKeepsGoverned(w.projects, a.projectId, a.role, a.op);
      }
    }
  }

  lemma NothingGoverned()
    ensures AllGoverned(INITIAL.projects)
  {
  }

  // ----- how many bindings -----

  function CountRows(rows: seq<Spaces.Binding>, id: string): nat {
    if rows == [] then 0 else
    CountRows(rows[..|rows| - 1], id) + if rows[|rows| - 1].projectId == id then 1 else 0
  }

  function CountCreations(pending: seq<Pending>, id: string): nat {
    if pending == [] then 0 else
    CountCreations(pending[..|pending| - 1], id)
    + if pending[|pending| - 1].CreateChannel? && pending[|pending| - 1].projectId == id then 1 else 0
  }

  /** Bindings a project has or is about to get. */
  function Slots(w: World, id: string): nat {
    CountRows(w.spaces.rows, id) + CountCreations(w.pending, id)
  }

  ghost predicate OneSlotEach(w: World) {
    forall id: string :: Slots(w, id) <= 1
  }

  /** Initialization, with a guild, of a paused project that already has its binding: the table lets
      paused become active, so the handler accepts it. */
  predicate Reinitializes(w: World, a: Action) {
    && a.Request? && a.op.Initialize? && a.op.guildId != ""
    && NormalizeRole(a.role) == "cwo"
    && a.projectId in w.projects && w.projects[a.projectId].status == Paused
    && Slots(w, a.projectId) >= 1
  }

  lemma CountOfAppend(rows: seq<Spaces.Binding>, b: Spaces.Binding, pending: seq<Pending>, more: seq<Pending>, id: string)
    requires |more| <= 1
    ensures CountRows(rows + [b], id) == CountRows(rows, id) + if b.projectId == id then 1 else 0
    ensures CountCreations(pending + more, id)
         == CountCreations(pending, id) + if more != [] && more[0].CreateChannel? && more[0].projectId == id then 1 else 0
  {
    assert (rows + [b])[..|rows|] == rows;
    if more != [] {
      assert (pending + more)[..|pending|] == pending;
    } else {
      assert pending + more == pending;
    }
  }

  lemma {:induction false} CountOfRewrite(rows: seq<Spaces.Binding>, i: nat, b: Spaces.Binding, id: string)
    requires i < |rows| && b.projectId == rows[i].projectId
    ensures CountRows(rows[i := b], id) == CountRows(rows, id)
  {
    var after := rows[i := b];
    if i == |rows| - 1 {
      assert after[..i] == rows[..i];
    } else {
      CountOfRewrite(rows[..|rows| - 1], i, b, id);
      assert after[..|rows| - 1] == rows[..|rows| - 1][i := b];
    }
  }

  lemma {:induction false} CountOfFinish(pending: seq<Pending>, k: nat, id: string)
    requires k < |pending|
    ensures CountCreations(pending[k := Finished], id)
         == CountCreations(pending, id) - if pending[k].CreateChannel? && pending[k].projectId == id then 1 else 0
  {
    var after := pending[k := Finished];
    if k == |pending| - 1 {
      assert after[..k] == pending[..k];
    } else {
      CountOfFinish(pending[..|pending| - 1], k, id);
      assert after[..|pending| - 1] == pending[..|pending| - 1][k := Finished];
    }
  }

  /** A project that has a binding, or is about to, has been activated. */
  lemma SlotsMeanActivated(w: World, id: string)
    requires Inv(w) && Slots(w, id) >= 1
    ensures id in w.projects && Activated(w.projects[id])
  {
    if CountRows(w.spaces.rows, id) >= 1 {
      var i := RowOf(w.spaces.rows, id);
      assert RowAgrees(w.projects, w.spaces.rows[i]);
    } else {
      var k := CreationOf(w.pending, id);
      assert PendingAgrees(w.projects, w.pending[k]);
    }
  }

  lemma RowOf(rows: seq<Spaces.Binding>, id: string) returns (i: nat)
    requires CountRows(rows, id) >= 1
    ensures i < |rows| && rows[i].projectId == id
  {
    if rows[|rows| - 1].projectId == id {
      i := |rows| - 1;
    } else {
      i := RowOf(rows[..|rows| - 1], id);
    }
  }

  lemma CreationOf(pending: seq<Pending>, id: string) returns (k: nat)
    requires CountCreations(pending, id) >= 1
    ensures k < |pending| && pending[k].CreateChannel? && pending[k].projectId == id
  {
    var last := pending[|pending| - 1];
    if last.CreateChannel? && last.projectId == id {
      k := |pending| - 1;
    } else {
      k := CreationOf(pending[..|pending| - 1], id);
    }
  }

  /** Running a binding half never makes more slots. */
  lemma BindingStepSlots(w: World, a: Action, id: string)
    requires !a.Request?
    ensures Slots(Step(w, a), id) <= Slots(w, id)
  {
    hide CountRows, CountCreations, Spaces.TargetState;
    match a
    case Create(k, channel, insertFails) =>
      if k < |w.pending| && w.pending[k].CreateChannel? {
        CountOfFinish(w.pending, k, id);
        if channel.Some? && !insertFails {
          var rows := Step(w, a).spaces.rows;
          CountOfAppend(w.spaces.rows, rows[|rows| - 1], [], [], id);
        }
      }
    case Touch(k, row) =>
      if Step(w, a) != w {
        CountOfFinish(w.pending, k, id);
        CountOfRewrite(w.spaces.rows, row, Step(w, a).spaces.rows[row], id);
        assert w.spaces.rows[row := w.spaces.rows[row]] == w.spaces.rows;
      }
    case Miss(k) =>
      if Step(w, a) != w {
        CountOfFinish(w.pending, k, id);
      }
  }

  predicate Initializes(w: World, a: Action) {
    && a.Request? && a.op.Initialize? && a.op.guildId != ""
    && Perform(w.projects, a.projectId, a.role, a.op).1.Ok?
  }

  lemma RequestSlots(w: World, a: Action, id: string)
    requires a.Request?
    ensures Slots(Step(w, a), id) == Slots(w, id) + if Initializes(w, a) && a.projectId == id then 1 else 0
  {
    hide CountRows, CountCreations, Perform;
    var more := Step(w, a).pending[|w.pending|..];
    CountOfAppend([], NOBODY, w.pending, more, id);
    assert Step(w, a).pending == w.pending + more;
  }

  lemma InitializesIff(w: World, a: Action)
    ensures Initializes(w, a) <==>
      && a.Request? && a.op.Initialize? && a.op.guildId != "" && NormalizeRole(a.role) == "cwo"
      && a.projectId in w.projects && (w.projects[a.projectId].status == Approved || w.projects[a.projectId].status == Paused)
  {
    hide NormalizeRole;
  }

  /** A step gives some project a second binding exactly when it initializes a paused project that
      already has one. */
  lemma SecondSlotIff(w: World, a: Action)
    requires Inv(w) && OneSlotEach(w)
    ensures OneSlotEach(Step(w, a)) <==> !Reinitializes(w, a)
  {
    InitializesIff(w, a);
    hide Perform, NormalizeRole, CountRows, CountCreations, Step, Slots;
    if a.Request? {
      forall id: string
        ensures Slots(Step(w, a), id) == Slots(w, id) + if Initializes(w, a) && a.projectId == id then 1 else 0
      {
        RequestSlots(w, a, id);
      }
      if Slots(w, a.projectId) >= 1 {
        SlotsMeanActivated(w, a.projectId);
      }
      hide Inv;
      assert Slots(Step(w, a), a.projectId) <= 1 ==> !Reinitializes(w, a);
    } else {
      forall id: string
        ensures Slots(Step(w, a), id) <= 1
      {
        BindingStepSlots(w, a, id);
      }
    }
  }

  /** Over whole runs: a project never gets a second binding, as long as no paused project with a
      binding is initialized again. */
  lemma {:induction false} AtMostOneBinding(actions: seq<Action>, id: string)
    requires forall n | 0 <= n < |actions| :: !Reinitializes(Run(actions[..n]), actions[n])
    ensures OneSlotEach(Run(actions))
    ensures CountRows(Run(actions).spaces.rows, id) <= 1
  {
    hide Inv, Step, Reinitializes, CountRows, CountCreations;
    if actions != [] {
      var init := actions[..|actions| - 1];
      forall n | 0 <= n < |init|
        ensures !Reinitializes(Run(init[..n]), init[n])
      {
        assert init[..n] == actions[..n];
      }
      AtMostOneBinding(init, id);
      InvAlways(init);
      SecondSlotIff(Run(init), actions[|actions| - 1]);
      assert Slots(Run(actions), id) <= 1;
    } else {
      NoSlots(id);
      assert OneSlotEach(INITIAL) by {
        forall other: string
          ensures Slots(INITIAL, other) <= 1
        {
          NoSlots(other);
        }
      }
    }
  }

  lemma NoSlots(id: string)
    ensures Slots(INITIAL, id) == 0 && CountRows([], id) == 0
  {
  }

  /** And such a second initialization, its channel once created, does leave a second binding. */
  lemma ReinitializationBindsTwice(w: World, a: Action, channel: string)
    requires Reinitializes(w, a)
    ensures var w' := Step(Step(w, a), Create(|w.pending|, Some(channel), false));
      CountRows(w'.spaces.rows, a.projectId) == CountRows(w.spaces.rows, a.projectId) + 1
  {
    hide NormalizeRole, CountCreations;
    InitializesIff(w, a);
    var w' := Step(Step(w, a), Create(|w.pending|, Some(channel), false));
    CountOfAppend(w.spaces.rows, w'.spaces.rows[|w.spaces.rows|], [], [], a.projectId);
  }

  /** Proposed, approved by all three, initialized with its channel, and paused. */
  function PausedWithChannel(id: string, guildId: string): seq<Action> {
    [Request(id, "owner", CreateProposal("name")),
     Request(id, "owner", ApproveProposal("a")),
     Request(id, "ceo", ApproveProposal("b")),
     Request(id, "cwo", ApproveProposal("c")),
     Request(id, "cwo", Initialize(guildId)),
     Create(0, Some("channel"), false),
     Request(id, "ceo", Pause)]
  }

  lemma ApprovalsPromote(id: string, p: Project, pending: seq<Pending>)
    requires p.status == ProjectStatus.Proposed && p.proposalApprovals == []
    ensures var w := World(map[id := p], Spaces.Spaces([], 0), pending);
      var w' := Step(Step(Step(w, Request(id, "owner", ApproveProposal("a"))), Request(id, "ceo", ApproveProposal("b"))),
                     Request(id, "cwo", ApproveProposal("c")));
      && w'.projects.Keys == {id} && w'.projects[id].status == Approved
      && w'.spaces == w.spaces && w'.pending == pending
  {
    hide NormalizeRole, Strip, Moved;
    RolesAreNormal();
    var w := World(map[id := p], Spaces.Spaces([], 0), pending);
    var a, b := Approval(Strip("a"), "owner"), Approval(Strip("b"), "ceo");
    var w1 := Step(w, Request(id, "owner", ApproveProposal("a")));
    OneApproval(p, a);
    assert w1.projects[id] == p.(proposalApprovals := [a]);
    var w2 := Step(w1, Request(id, "ceo", ApproveProposal("b")));
    TwoApprovals(p, a, b);
    assert w2.projects[id] == p.(proposalApprovals := [a, b]);
    ThirdApproval(p, a, b, Approval(Strip("c"), "cwo"));
  }

  lemma OneApproval(p: Project, a: Approval)
    requires p.status == ProjectStatus.Proposed && p.proposalApprovals == [] && a.role == "owner"
    ensures WithProposalApproval(p, a) == Result.Ok(p.(proposalApprovals := [a]))
  {
    assert |"owner"| == 5 && |"ceo"| == 3;
    assert "ceo" in TRIAD;
    assert [] + [a] == [a] && |[a]| == 1;
    assert !HasRole([a], "ceo");
  }

  lemma TwoApprovals(p: Project, a: Approval, b: Approval)
    requires p.status == ProjectStatus.Proposed && a.role == "owner" && b.role == "ceo"
    ensures WithProposalApproval(p.(proposalApprovals := [a]), b) == Result.Ok(p.(proposalApprovals := [a, b]))
  {
    assert |"owner"| == 5 && |"ceo"| == 3 && "ceo"[1] != "cwo"[1];
    assert !HasRole([a], "ceo") && [a] + [b] == [a, b] && |[a, b]| == 2;
    assert "cwo" in TRIAD;
    assert !HasRole([a, b], "cwo");
  }

  lemma ThirdApproval(p: Project, a: Approval, b: Approval, c: Approval)
    requires p.status == ProjectStatus.Proposed && a.role == "owner" && b.role == "ceo" && c.role == "cwo"
    ensures var r := WithProposalApproval(p.(proposalApprovals := [a, b]), c); r.Ok? && r.value.status == Approved
  {
    assert |"owner"| == 5 && |"cwo"| == 3 && "ceo"[1] != "cwo"[1];
    assert !HasRole([a, b], "cwo") && [a, b] + [c] == [a, b, c];
    assert a in [a, b, c] && b in [a, b, c] && c in [a, b, c];
  }

  lemma FirstBinding(id: string, guildId: string, w: World)
    requires w.projects.Keys == {id} && w.projects[id].status == Approved && guildId != ""
    requires w.spaces.rows == [] && w.pending == []
    ensures var w' := Step(Step(w, Request(id, "cwo", Initialize(guildId))), Create(0, Some("channel"), false));
      && w'.projects.Keys == {id} && w'.projects[id].status == Active
      && |w'.spaces.rows| == 1 && w'.spaces.rows[0].projectId == id
  {
    hide NormalizeRole, Strip;
    RolesAreNormal();
    var w1 := Step(w, Request(id, "cwo", Initialize(guildId)));
    assert w1.pending == [CreateChannel(id, guildId)];
  }

  lemma PauseKeepsRows(id: string, w: World)
    requires w.projects.Keys == {id} && w.projects[id].status == Active
    ensures var w' := Step(w, Request(id, "ceo", Pause));
      w'.projects.Keys == {id} && w'.projects[id].status == Paused && w'.spaces == w.spaces
  {
    hide NormalizeRole, Strip;
    RolesAreNormal();
  }

  lemma CreationStands(id: string)
    ensures Step(INITIAL, Request(id, "owner", CreateProposal("name")))
              == World(map[id := NewProject("name")], Spaces.Spaces([], 0), [])
  {
    hide NormalizeRole, Strip;
    RolesAreNormal();
  }

  lemma OneRow(rows: seq<Spaces.Binding>, id: string)
    requires |rows| == 1 && rows[0].projectId == id
    ensures CountRows(rows, id) == 1
  {
    assert rows[..0] == [];
  }

  /** Such a step does come up: a project that has been initialized with its channel and then paused. */
  lemma ReinitializationIsReachable(id: string, guildId: string)
    requires guildId != ""
    ensures Reinitializes(Run(PausedWithChannel(id, guildId)), Request(id, "cwo", Initialize(guildId)))
  {
    hide NormalizeRole, Strip, WithProposalApproval, NewProject, Run, Step, Perform, CountRows;
    var a := PausedWithChannel(id, guildId);
    SevenRun(a);
    CreationStands(id);
    ProjectStartsProposed();
    ApprovalsPromote(id, NewProject("name"), []);
    var w4 := Step(Step(Step(Step(INITIAL, a[0]), a[1]), a[2]), a[3]);
    FirstBinding(id, guildId, w4);
    var w6 := Step(Step(w4, a[4]), a[5]);
    PauseKeepsRows(id, w6);
    var w7 := Step(w6, a[6]);
    OneRow(w7.spaces.rows, id);
    RolesAreNormal();
    InitializesIff(w7, Request(id, "cwo", Initialize(guildId)));
  }

  lemma ProjectStartsProposed()
    ensures NewProject("name").status == ProjectStatus.Proposed && NewProject("name").proposalApprovals == []
  {
  }

  lemma SevenRun(a: seq<Action>)
    requires |a| == 7
    ensures Run(a) == Step(Step(Step(Step(Step(Step(Step(INITIAL, a[0]), a[1]), a[2]), a[3]), a[4]), a[5]), a[6])
  {
    hide Step;
    assert a[..6][..5] == a[..5] && a[..5][..4] == a[..4] && a[..4][..3] == a[..3] && a[..3][..2] == a[..2];
    assert a[..2][..1] == a[..1] && a[..1][..0] == [];
    assert Run(a[..1]) == Step(INITIAL, a[0]);
    assert Run(a[..2]) == Step(Run(a[..1]), a[1]);
    assert Run(a[..3]) == Step(Run(a[..2]), a[2]);
    assert Run(a[..4]) == Step(Run(a[..3]), a[3]);
    assert Run(a[..5]) == Step(Run(a[..4]), a[4]);
    assert Run(a[..6]) == Step(Run(a[..5]), a[5]);
  }

  // ----- endings close the channel -----

  /** Terminating a project locks its channel once the endpoint's second half has run on it. */
  lemma TerminationLocks(w: World, id: string, row: nat, role: string)
    requires id in w.projects && w.projects[id].status in {ProjectStatus.Active, Paused} && NormalizeRole(role) in {"ceo", "cwo"}
    requires row < |w.spaces.rows| && w.spaces.rows[row].projectId == id && w.spaces.rows[row].state.Active?
    ensures var w' := Step(Step(w, Request(id, role, Terminate)), Touch(|w.pending|, row));
      && id in w'.projects && w'.projects[id].status == ProjectStatus.Terminated
      && |w'.spaces.rows| == |w.spaces.rows| && w'.spaces.rows[row] == w.spaces.rows[row].(state := Spaces.Locked, updatedAt := w.spaces.now)
  {
    hide NormalizeRole, ApprovedByAll, Approve;
  }

  /** Completing it archives the channel. */
  lemma CompletionArchives(w: World, id: string, row: nat, role: string)
    requires id in w.projects && w.projects[id].status == ProjectStatus.Active && NormalizeRole(role) in {"ceo", "cwo"}
    requires w.projects[id].completionReport
    requires HasRole(w.projects[id].completionApprovals, "ceo") && HasRole(w.projects[id].completionApprovals, "cwo")
    requires row < |w.spaces.rows| && w.spaces.rows[row].projectId == id && w.spaces.rows[row].state.Active?
    ensures var w' := Step(Step(w, Request(id, role, FinalizeCompletion)), Touch(|w.pending|, row));
      && id in w'.projects && w'.projects[id].status == Completed
      && |w'.spaces.rows| == |w.spaces.rows| && w'.spaces.rows[row] == w.spaces.rows[row].(state := Spaces.Archived, updatedAt := w.spaces.now)
  {
    hide NormalizeRole, HasRole, Approve;
  }
}
