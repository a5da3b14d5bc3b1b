/** Where every operation takes a project, and that no project is ever stuck
    (control_plane/handlers/governance_handler.py, control_plane/governance/project_lifecycle.py,
    data_access/repositories/postgres/project_repository.py). */
module ProjectMoves {
  import opened PyText
  import opened ProjectLifecycle

  /** Only this role's approval is missing. */
  predicate LastMissing(approvals: seq<Approval>, role: string) {
    && role in {"owner", "ceo", "cwo"} && !HasRole(approvals, role)
    && (role != "owner" ==> HasRole(approvals, "owner"))
    && (role != "ceo" ==> HasRole(approvals, "ceo"))
    && (role != "cwo" ==> HasRole(approvals, "cwo"))
  }

  /** The status after an operation of a role, by operation, with nobody's role guards, tables or bars. */
  function Destination(p: Project, role: string, op: Operation): ProjectStatus {
    match op
    case ApproveProposal(_) =>
      if p.status == Proposed && LastMissing(p.proposalApprovals, role) then Approved else p.status
    case Initialize(_) =>
      if role == "cwo" && p.status in {Approved, Paused} then Active else p.status
    case Resume =>
      if role in {"project_manager", "ceo", "cwo"} && p.status in {Approved, Paused} then Active else p.status
    case Pause =>
      if role in {"project_manager", "ceo", "cwo"} && p.status == Active then Paused else p.status
    case Terminate =>
      if role in {"ceo", "cwo"} && p.status in {Active, Paused} then ProjectStatus.Terminated else p.status
    case FinalizeCompletion =>
      if role in {"ceo", "cwo"} && p.status == Active && p.completionReport
         && HasRole(p.completionApprovals, "ceo") && HasRole(p.completionApprovals, "cwo")
      then Completed else p.status
    case Archive =>
      if role in {"ceo", "cwo"} && p.status in {Completed, ProjectStatus.Terminated} then ProjectStatus.Archived else p.status
    case _ => p.status
  }

  lemma TriadIs(approvals: seq<Approval>)
    ensures ApprovedByAll(approvals, TRIAD) <==>
      HasRole(approvals, "owner") && HasRole(approvals, "ceo") && HasRole(approvals, "cwo")
    ensures ApprovedByAll(approvals, C_SUITE) <==> HasRole(approvals, "ceo") && HasRole(approvals, "cwo")
  {
    hide HasRole;
    assert "owner" in TRIAD && "ceo" in TRIAD && "cwo" in TRIAD && "ceo" in C_SUITE && "cwo" in C_SUITE;
  }

  /** The approvals after one more, accepted or not. */
  function Later(approvals: seq<Approval>, a: Approval): seq<Approval> {
    match Approve(approvals, a)
    case Ok(after) => after
    case Err(_) => approvals
  }

  lemma ApprovalIsKept(approvals: seq<Approval>, a: Approval, who: string)
    ensures HasRole(Later(approvals, a), who) <==> HasRole(approvals, who) || who == a.role
    ensures Later(approvals, a) == approvals <==> HasRole(approvals, a.role)
  {
    if !HasRole(approvals, a.role) {
      var after := approvals + [a];
      assert |after| == |approvals| + 1;
      assert forall x :: x in after <==> x in approvals || x == a;
    }
  }

  lemma ProposalApprovalMoves(p: Project, a: Approval)
    requires p.status == Proposed && a.role in {"owner", "ceo", "cwo"}
    ensures var result := WithProposalApproval(p, a);
      && (result.Ok? ==> result.value.proposalApprovals == Later(p.proposalApprovals, a))
      && (result.Err? ==> Later(p.proposalApprovals, a) == p.proposalApprovals)
      && (result.Ok? && LastMissing(p.proposalApprovals, a.role) ==> result.value.status == Approved)
      && (result.Ok? && !LastMissing(p.proposalApprovals, a.role) ==> result.value.status == Proposed)
      && (LastMissing(p.proposalApprovals, a.role) ==> result.Ok?)
  {
    hide HasRole;
    TriadIs(Later(p.proposalApprovals, a));
    ApprovalIsKept(p.proposalApprovals, a, "owner");
    ApprovalIsKept(p.proposalApprovals, a, "ceo");
    ApprovalIsKept(p.proposalApprovals, a, "cwo");
    hide ApprovedByAll;
  }

  /** Role guard, transition table and completion bar together come to exactly that. */
  lemma MovesExactly(projects: Projects, id: string, role: string, op: Operation)
    requires id in projects
    ensures var after := Perform(projects, id, role, op).0;
      id in after && after[id].status == Destination(projects[id], Lower(Strip(role)), op)
  {
    hide HasRole, Strip, Lower, ApprovedByAll, LastMissing, Approve;
    var p, r := projects[id], NormalizeRole(role);
    TriadIs(p.completionApprovals);
    if op.ApproveProposal? {
      hide WithProposalApproval;
      ApprovalMovesExactly(projects, id, role, op.actorId);
    }
  }

  lemma ApprovalMovesExactly(projects: Projects, id: string, role: string, actorId: string)
    requires id in projects
    ensures var after, p := Perform(projects, id, role, ApproveProposal(actorId)).0, projects[id];
      && id in after
      && after[id].status == (if p.status == Proposed && LastMissing(p.proposalApprovals, NormalizeRole(role)) then Approved else p.status)
      && after[id] == p.(status := after[id].status, proposalApprovals := after[id].proposalApprovals, transitions := after[id].transitions)
      && (p.status == Proposed && NormalizeRole(role) in {"owner", "ceo", "cwo"} ==>
            after[id].proposalApprovals == Later(p.proposalApprovals, Approval(Strip(actorId), NormalizeRole(role))))
      && (p.status != Proposed || NormalizeRole(role) !in {"owner", "ceo", "cwo"} ==> after[id].proposalApprovals == p.proposalApprovals)
  {
    hide NormalizeRole, HasRole, Strip, ApprovedByAll, Approve;
    var p, a := projects[id], Approval(Strip(actorId), NormalizeRole(role));
    if p.status == Proposed && a.role in {"owner", "ceo", "cwo"} {
      ProposalApprovalMoves(p, a);
    }
  }

  /** And this is who leaves which approvals and reports. */
  lemma RecordsExactly(projects: Projects, id: string, role: string, op: Operation, who: string)
    requires id in projects
    ensures var p, r, after := projects[id], Lower(Strip(role)), Perform(projects, id, role, op).0;
      && id in after
      && (HasRole(after[id].proposalApprovals, who) <==>
            HasRole(p.proposalApprovals, who) || (op.ApproveProposal? && r == who && r in {"owner", "ceo", "cwo"} && p.status == Proposed))
      && (after[id].completionReport <==>
            p.completionReport || (op.SubmitReport? && r == "project_manager" && p.status == Active))
      && (HasRole(after[id].completionApprovals, who) <==>
            HasRole(p.completionApprovals, who)
            || (op.ApproveCompletion? && r == who && r in {"ceo", "cwo"} && p.status == Active && p.completionReport))
  {
    hide HasRole, Strip, Lower, ApprovedByAll, WithProposalApproval;
    var p, r := projects[id], NormalizeRole(role);
    if op.ApproveProposal? {
      ApprovalMovesExactly(projects, id, role, op.actorId);
      ApprovalIsKept(p.proposalApprovals, Approval(Strip(op.actorId), r), who);
    } else if op.ApproveCompletion? {
      ApprovalIsKept(p.completionApprovals, Approval(Strip(op.actorId), r), who);
    }
    hide Approve;
  }

  /** Whom an operation is open to. */
  predicate MayAsk(op: Operation, role: string) {
    match op
    case CreateProposal(_) => role in {"owner", "ceo", "cwo"}
    case ApproveProposal(_) => role in {"owner", "ceo", "cwo"}
    case Initialize(_) => role == "cwo"
    case SubmitReport => role == "project_manager"
    case Pause => role in {"project_manager", "ceo", "cwo"}
    case Resume => role in {"project_manager", "ceo", "cwo"}
    case _ => role in {"ceo", "cwo"}
  }

  /** A refusal names the role first, then the project, then the status, and then what is missing. */
  lemma RefusalsInOrder(projects: Projects, id: string, role: string, op: Operation)
    ensures var result, may := Perform(projects, id, role, op).1, MayAsk(op, Lower(Strip(role)));
      && (result == Err(RoleForbidden) <==> !may)
      && (result == Err(ProjectMissing) <==> may && !op.CreateProposal? && id !in projects)
      && (result == Err(ProjectExists) <==> may && op.CreateProposal? && id in projects)
      && (may && id in projects ==>
            && (result == Err(NotProposed) <==> op.ApproveProposal? && projects[id].status != Proposed)
            && (result == Err(NotActive) <==> (op.SubmitReport? || op.ApproveCompletion?) && projects[id].status != Active)
            && (result == Err(InvalidTransition) <==>
                  || ((op.Initialize? || op.Resume?) && projects[id].status !in {Approved, Paused})
                  || ((op.Pause? || op.FinalizeCompletion?) && projects[id].status != Active)
                  || (op.Terminate? && projects[id].status !in {Active, Paused})
                  || (op.Archive? && projects[id].status !in {Completed, ProjectStatus.Terminated}))
            && (result == Err(ReportMissing) <==>
                  (op.ApproveCompletion? || op.FinalizeCompletion?) && projects[id].status == Active && !projects[id].completionReport))
  {
    hide Strip, Lower, ApprovedByAll, HasRole, MayAsk, RolesFor, FindApproval;
    MayAskIsGuard(op, Lower(Strip(role)));
  }

  lemma MayAskIsGuard(op: Operation, role: string)
    ensures MayAsk(op, role) <==> role in RolesFor(op)
    ensures op.FinalizeCompletion? && MayAsk(op, role) ==> role in C_SUITE
  {
  }

  /** A project comes into being by the proposal of an owner, CEO or CWO, as a bare proposal, and in no
      other way; and it never goes. */
  lemma CreatedIff(projects: Projects, id: string, role: string, op: Operation)
    ensures var after := Perform(projects, id, role, op).0;
      && after.Keys == projects.Keys + (if op.CreateProposal? && Lower(Strip(role)) in {"owner", "ceo", "cwo"} then {id} else {})
      && (id !in projects && id in after ==>
            after[id].status == Proposed && after[id].proposalApprovals == [] && after[id].transitions == [] && !after[id].initialized)
      && (id in projects && op.CreateProposal? ==> after == projects)
      && forall other <- projects | other != id :: after[other] == projects[other]
  {
    hide Strip, Lower, ApprovedByAll, Approve, HasRole;
  }

  /** Approving again is harmless, and nobody else can speak for a role that has spoken. */
  lemma RolesApproveOnce(projects: Projects, id: string, role: string, actorId: string, other: string)
    requires Perform(projects, id, role, ApproveProposal(actorId)).1.Ok?
    requires Perform(projects, id, role, ApproveProposal(actorId)).0[id].status == Proposed
    ensures var (after, result) := Perform(projects, id, role, ApproveProposal(actorId));
      Perform(after, id, role, ApproveProposal(other)) ==
        if Strip(other) == Strip(actorId) then (after, result) else (after, Err(RoleConflict))
  {
    hide NormalizeRole, Strip, ApprovedByAll, Approve;
    var p, a := projects[id], Approval(Strip(actorId), NormalizeRole(role));
    ApprovalIsFound(p.proposalApprovals, a);
    var after := Perform(projects, id, role, ApproveProposal(actorId)).0;
    assert after[id := after[id]] == after;
  }

  lemma ApprovalIsFound(approvals: seq<Approval>, a: Approval)
    requires Approve(approvals, a).Ok?
    ensures var after := Approve(approvals, a).value;
      forall b: Approval | b.role == a.role :: Approve(after, b) == if b.actorId == a.actorId then Result.Ok(after) else Err(RoleConflict)
  {
  }

  /** Six requests, one after the other. */
  function Wound(projects: Projects, id: string): Projects {
    var approved := Perform(Perform(Perform(projects, id, "owner", ApproveProposal("a")).0, id, "ceo", ApproveProposal("b")).0,
                            id, "cwo", ApproveProposal("c")).0;
    Perform(Perform(Perform(approved, id, "cwo", Initialize("")).0, id, "ceo", Terminate).0, id, "ceo", Archive).0
  }

  /** No project is ever stuck: whatever it has been through, the same six requests archive it. */
  lemma EveryProjectCanBeArchived(projects: Projects, id: string)
    requires AllGoverned(projects) && id in projects
    ensures id in Wound(projects, id) && Wound(projects, id)[id].status == ProjectStatus.Archived
  {
    hide Perform, Governed, HasRole, Lower, Strip;
    RolesAreNormal();
    var a := Perform(projects, id, "owner", ApproveProposal("a")).0;
    var b := Perform(a, id, "ceo", ApproveProposal("b")).0;
    var c := Perform(b, id, "cwo", ApproveProposal("c")).0;
    var d := Perform(c, id, "cwo", Initialize("")).0;
    var e := Perform(d, id, "ceo", Terminate).0;
    TriadApproves(projects, id);
    MovesExactly(c, id, "cwo", Initialize(""));
    MovesExactly(d, id, "ceo", Terminate);
    MovesExactly(e, id, "ceo", Archive);
  }

  lemma TriadApproves(projects: Projects, id: string)
    requires AllGoverned(projects) && id in projects
    ensures var approved := Perform(Perform(Perform(projects, id, "owner", ApproveProposal("a")).0, id, "ceo", ApproveProposal("b")).0,
                                    id, "cwo", ApproveProposal("c")).0;
      id in approved && approved[id].status != Proposed
  {
    hide Perform, HasRole, Lower, Strip, LegalHistory, OncePerRole, Targets;
    RolesAreNormal();
    var a := Perform(projects, id, "owner", ApproveProposal("a")).0;
    var b := Perform(a, id, "ceo", ApproveProposal("b")).0;
    var c := Perform(b, id, "cwo", ApproveProposal("c")).0;
    RecordsExactly(projects, id, "owner", ApproveProposal("a"), "owner");
    MovesExactly(projects, id, "owner", ApproveProposal("a"));
    RecordsExactly(a, id, "ceo", ApproveProposal("b"), "owner");
    RecordsExactly(a, id, "ceo", ApproveProposal("b"), "ceo");
    MovesExactly(a, id, "ceo", ApproveProposal("b"));
    RecordsExactly(b, id, "cwo", ApproveProposal("c"), "owner");
    RecordsExactly(b, id, "cwo", ApproveProposal("c"), "ceo");
    RecordsExactly(b, id, "cwo", ApproveProposal("c"), "cwo");
    MovesExactly(b, id, "cwo", ApproveProposal("c"));
    PerformKeepsGoverned(projects, id, "owner", ApproveProposal("a"));
    PerformKeepsGoverned(a, id, "ceo", ApproveProposal("b"));
    PerformKeepsGoverned(b, id, "cwo", ApproveProposal("c"));
    if projects[id].status == Proposed && a[id].status == Proposed && b[id].status == Proposed {
      TriadIs(c[id].proposalApprovals);
      assert Governed(c[id]);
    }
  }
}
