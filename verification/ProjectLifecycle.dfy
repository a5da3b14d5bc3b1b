/** The governed project lifecycle: the transition table (control_plane/governance/project_lifecycle.py),
    the stored project (data_access/repositories/postgres/project_repository.py) and the role-guarded
    operations on it (control_plane/handlers/governance_handler.py). */
module ProjectLifecycle {
  import opened PyText

  datatype ProjectStatus = Proposed | Approved | Active | Paused | Completed | Terminated | Archived

  function StatusText(s: ProjectStatus): string {
    match s
    case Proposed => "proposed"
    case Approved => "approved"
    case Active => "active"
    case Paused => "paused"
    case Completed => "completed"
    case Terminated => "terminated"
    case Archived => "archived"
  }

  /** Case and outer whitespace do not matter. */
  function ParseProjectStatus(value: string): Option<ProjectStatus> {
    StatusNamed(Lower(Strip(value)))
  }

  function StatusNamed(normalized: string): Option<ProjectStatus> {
    if normalized == "proposed" then Some(Proposed)
    else if normalized == "approved" then Some(Approved)
    else if normalized == "active" then Some(Active)
    else if normalized == "paused" then Some(Paused)
    else if normalized == "completed" then Some(Completed)
    else if normalized == "terminated" then Some(Terminated)
    else if normalized == "archived" then Some(Archived)
    else None
  }

  /** A text is accepted exactly when it spells a status, and then means that one. */
  lemma ParseIsExact(value: string, s: ProjectStatus)
    ensures ParseProjectStatus(value) == Some(s) <==> Lower(Strip(value)) == StatusText(s)
  {
    hide Lower, Strip;
    NamesAreExact(Lower(Strip(value)), s);
  }

  lemma NamesAreExact(name: string, s: ProjectStatus)
    ensures StatusNamed(name) == Some(s) <==> name == StatusText(s)
  {
    if name == StatusText(s) {
      assert |"proposed"| == 8 && |"approved"| == 8 && |"active"| == 6 && |"paused"| == 6;
      assert |"completed"| == 9 && |"terminated"| == 10 && |"archived"| == 8;
      assert "proposed"[0] == 'p' && "approved"[0] == 'a' && "active"[0] == 'a' && "paused"[0] == 'p';
      assert "approved"[1] == 'p' && "archived"[1] == 'r';
    }
  }

  function AllowedTransitions(s: ProjectStatus): set<ProjectStatus> {
    match s
    case Proposed => {Proposed, Approved}
    case Approved => {Active}
    case Active => {Paused, Completed, Terminated}
    case Paused => {Active, Terminated}
    case Completed => {Archived}
    case Terminated => {Archived}
    case Archived => {}
  }

  datatype Error =
    | RoleForbidden | ProjectExists | ProjectMissing | InvalidTransition | NotProposed | NotActive
    | RoleConflict | ReportExists | ReportMissing | ApprovalMissing | OwnerNotificationMissing

  datatype Result<+T> = Ok(value: T) | Err(error: Error)

  datatype Approval = Approval(actorId: string, role: string)

  datatype Move = Move(source: ProjectStatus, target: ProjectStatus)

  datatype Project = Project(
    name: string, status: ProjectStatus, proposalApprovals: seq<Approval>, initialized: bool,
    completionReport: bool, completionApprovals: seq<Approval>, ownerNotified: bool, transitions: seq<Move>)

  type Projects = map<string, Project>

  predicate HasRole(approvals: seq<Approval>, role: string) {
    exists a <- approvals :: a.role == role
  }

  /** The first approval of a role. */
  function FindApproval(approvals: seq<Approval>, role: string): (r: Option<Approval>)
    ensures r.Some? ==> r.value in approvals && r.value.role == role
    ensures r.None? <==> !HasRole(approvals, role)
  {
    if approvals == [] then None
    else if approvals[0].role == role then Some(approvals[0])
    else FindApproval(approvals[1..], role)
  }

  const TRIAD := {"owner", "ceo", "cwo"}
  const C_SUITE := {"ceo", "cwo"}

  predicate ApprovedByAll(approvals: seq<Approval>, roles: set<string>) {
    forall role <- roles :: HasRole(approvals, role)
  }

  function Moved(p: Project, next: ProjectStatus): Project {
    p.(status := next, transitions := p.transitions + [Move(p.status, next)])
  }

  /** What completion asks for beyond the transition table, in the order it is checked. */
  function CompletionBar(p: Project, role: string): Option<Error> {
    if role !in C_SUITE then Some(RoleForbidden)
    else if !p.completionReport then Some(ReportMissing)
    else if !ApprovedByAll(p.completionApprovals, C_SUITE) then Some(ApprovalMissing)
    else if !p.ownerNotified then Some(OwnerNotificationMissing)
    else None
  }

  function Transition(p: Project, next: ProjectStatus, role: string): Result<Project> {
    if next !in AllowedTransitions(p.status) then Err(InvalidTransition)
    else if next == Completed && CompletionBar(p, role).Some? then Err(CompletionBar(p, role).value)
    else Ok(Moved(p, next))
  }

  /** Record an approval once per role; the same actor again changes nothing. */
  function Approve(approvals: seq<Approval>, a: Approval): Result<seq<Approval>> {
    match FindApproval(approvals, a.role)
    case None => Ok(approvals + [a])
    case Some(existing) => if existing.actorId == a.actorId then Ok(approvals) else Err(RoleConflict)
  }

  function NewProject(name: string): Project {
    Project(Strip(name), Proposed, [], false, false, [], false, [])
  }

  class PostgresProjectRepository {
    var projects: Projects

    constructor ()
      ensures projects == map[]
    {
      projects := map[];
    }

    method CreateProject(id: string, name: string) returns (r: Result<Project>)
      modifies this
      ensures id in old(projects) ==> r == Err(ProjectExists) && projects == old(projects)
      ensures id !in old(projects) ==> r == Ok(NewProject(name)) && projects == old(projects)[id := NewProject(name)]
    {
      if id in projects {
        return Err(ProjectExists);
      }
      var project := NewProject(name);
      projects := projects[id := project];
      return Ok(project);
    }

    method TransitionProjectStatus(id: string, next: ProjectStatus, role: string) returns (r: Result<Project>)
      modifies this
      ensures (projects, r) == Stored(old(projects), id, p => Transition(p, next, role))
    {
      if id !in projects {
        return Err(ProjectMissing);
      }
      var p := projects[id];
      if next !in AllowedTransitions(p.status) {
        return Err(InvalidTransition);
      }
      if next == Completed {
        var bar := CompletionBar(p, role);
        if bar.Some? {
          return Err(bar.value);
        }
      }
      p := Moved(p, next);
      projects := projects[id := p];
      return Ok(p);
    }

    /** The approval that completes the triad also promotes the project. */
    method RecordProposalApproval(id: string, approval: Approval) returns (r: Result<Project>)
      modifies this
      ensures (projects, r) == Stored(old(projects), id, p => WithProposalApproval(p, approval))
    {
      if id !in projects {
        return Err(ProjectMissing);
      }
      var p := projects[id];
      if p.status != Proposed {
        return Err(NotProposed);
      }
      var existing := FindApproval(p.proposalApprovals, approval.role);
      if existing.Some? && existing.value.actorId == approval.actorId {
        assert projects[id := p] == projects;
        return Ok(p);
      }
      if existing.Some? {
        return Err(RoleConflict);
      }
      assert |p.proposalApprovals + [approval]| > |p.proposalApprovals|;
      p := p.(proposalApprovals := p.proposalApprovals + [approval]);
      projects := projects[id := p];
      if ApprovedByAll(p.proposalApprovals, TRIAD) {
        p := Moved(p, Approved);
        projects := projects[id := p];
        assert projects == old(projects)[id := p];
      }
      return Ok(p);
    }

    method RecordInitialization(id: string) returns (r: Result<Project>)
      modifies this
      ensures (projects, r) == Stored(old(projects), id, WithInitialization)
    {
      if id !in projects {
        return Err(ProjectMissing);
      }
      var p := projects[id];
      if Active !in AllowedTransitions(p.status) {
        return Err(InvalidTransition);
      }
      p := Moved(p, Active).(initialized := true);
      projects := projects[id := p];
      return Ok(p);
    }

    method SubmitCompletionReport(id: string) returns (r: Result<Project>)
      modifies this
      ensures (projects, r) == Stored(old(projects), id, WithReport)
    {
      if id !in projects {
        return Err(ProjectMissing);
      }
      var p := projects[id];
      if p.status != Active {
        return Err(NotActive);
      }
      if p.completionReport {
        return Err(ReportExists);
      }
      p := p.(completionReport := true);
      projects := projects[id := p];
      return Ok(p);
    }

    method RecordCompletionApproval(id: string, approval: Approval) returns (r: Result<Project>)
      modifies this
      ensures (projects, r) == Stored(old(projects), id, p => WithCompletionApproval(p, approval))
    {
      if id !in projects {
        return Err(ProjectMissing);
      }
      var p := projects[id];
      if p.status != Active {
        return Err(NotActive);
      }
      if !p.completionReport {
        return Err(ReportMissing);
      }
      var existing := FindApproval(p.completionApprovals, approval.role);
      if existing.Some? && existing.value.actorId == approval.actorId {
        assert projects[id := p] == projects;
        return Ok(p);
      }
      if existing.Some? {
        return Err(RoleConflict);
      }
      p := p.(completionApprovals := p.completionApprovals + [approval]);
      projects := projects[id := p];
      return Ok(p);
    }

    method RecordCompletionOwnerNotified(id: string)
      requires id in projects
      modifies this
      ensures projects == old(projects)[id := old(projects)[id].(ownerNotified := true)]
    {
      projects := projects[id := projects[id].(ownerNotified := true)];
    }
  }

  /** The project table after one operation on one project. */
  function Stored(projects: Projects, id: string, op: Project -> Result<Project>): (Projects, Result<Project>) {
    if id !in projects then (projects, Err(ProjectMissing)) else
    match op(projects[id])
    case Ok(p) => (projects[id := p], Ok(p))
    case Err(e) => (projects, Err(e))
  }

  function WithProposalApproval(p: Project, approval: Approval): Result<Project> {
    if p.status != Proposed then Err(NotProposed) else
    match Approve(p.proposalApprovals, approval)
    case Err(e) => Err(e)
    case Ok(approvals) =>
      if approvals == p.proposalApprovals then Ok(p)
      else
        var recorded := p.(proposalApprovals := approvals);
        Ok(if ApprovedByAll(approvals, TRIAD) then Moved(recorded, Approved) else recorded)
  }

  function WithInitialization(p: Project): Result<Project> {
    if Active in AllowedTransitions(p.status) then Ok(Moved(p, Active).(initialized := true)) else Err(InvalidTransition)
  }

  function WithReport(p: Project): Result<Project> {
    if p.status != Active then Err(NotActive)
    else if p.completionReport then Err(ReportExists)
    else Ok(p.(completionReport := true))
  }

  function WithCompletionApproval(p: Project, approval: Approval): Result<Project> {
    if p.status != Active then Err(NotActive)
    else if !p.completionReport then Err(ReportMissing)
    else
      match Approve(p.completionApprovals, approval)
      case Err(e) => Err(e)
      case Ok(approvals) => Ok(p.(completionApprovals := approvals))
  }

  // ----- role-guarded operations -----

  datatype Operation =
    | CreateProposal(name: string)
    | ApproveProposal(actorId: string)
    | Initialize(guildId: string)
    | SubmitReport
    | ApproveCompletion(actorId: string)
    | FinalizeCompletion
    | Pause
    | Resume
    | Terminate
    | Archive

  function NormalizeRole(role: string): string {
    Lower(Strip(role))
  }

  /** The roles each operation is open to. */
  function RolesFor(op: Operation): set<string> {
    match op
    case CreateProposal(_) => TRIAD
    case ApproveProposal(_) => TRIAD
    case Initialize(_) => {"cwo"}
    case SubmitReport => {"project_manager"}
    case ApproveCompletion(_) => C_SUITE
    case FinalizeCompletion => C_SUITE
    case Pause => {"project_manager", "cwo", "ceo"}
    case Resume => {"project_manager", "cwo", "ceo"}
    case Terminate => C_SUITE
    case Archive => C_SUITE
  }

  /** A finalization records the owner's notification even if completion is then refused. */
  function Finalized(projects: Projects, id: string, role: string): (Projects, Result<Project>) {
    if id !in projects then (projects, Err(ProjectMissing)) else
    Stored(projects[id := projects[id].(ownerNotified := true)], id, p => Transition(p, Completed, role))
  }

  /** One operation of one actor on one project. */
  function Perform(projects: Projects, id: string, role: string, op: Operation): (Projects, Result<Project>) {
    var r := NormalizeRole(role);
    if r !in RolesFor(op) then (projects, Err(RoleForbidden)) else
    match op
    case CreateProposal(name) =>
      if id in projects then (projects, Err(ProjectExists)) else (projects[id := NewProject(name)], Ok(NewProject(name)))
    case ApproveProposal(actorId) => Stored(projects, id, p => WithProposalApproval(p, Approval(Strip(actorId), r)))
    case Initialize(_) => Stored(projects, id, WithInitialization)
    case SubmitReport => Stored(projects, id, WithReport)
    case ApproveCompletion(actorId) => Stored(projects, id, p => WithCompletionApproval(p, Approval(Strip(actorId), r)))
    case FinalizeCompletion => Finalized(projects, id, r)
    case Pause => Stored(projects, id, p => Transition(p, Paused, r))
    case Resume => Stored(projects, id, p => Transition(p, Active, r))
    case Terminate => Stored(projects, id, p => Transition(p, ProjectStatus.Terminated, r))
    case Archive => Stored(projects, id, p => Transition(p, ProjectStatus.Archived, r))
  }

  /** The governance handlers over the repository. */
  method Handle(repository: PostgresProjectRepository, id: string, role: string, op: Operation) returns (r: Result<Project>)
    modifies repository
    ensures (repository.projects, r) == Perform(old(repository.projects), id, role, op)
  {
    hide Transition, WithProposalApproval, WithInitialization, WithReport, WithCompletionApproval, NormalizeRole, RolesFor;
    var normalized := NormalizeRole(role);
    if normalized !in RolesFor(op) {
      return Err(RoleForbidden);
    }
    match op
    case CreateProposal(name) => r := repository.CreateProject(id, name);
    case ApproveProposal(actorId) => r := repository.RecordProposalApproval(id, Approval(Strip(actorId), normalized));
    case Initialize(_) => r := repository.RecordInitialization(id);
    case SubmitReport => r := repository.SubmitCompletionReport(id);
    case ApproveCompletion(actorId) => r := repository.RecordCompletionApproval(id, Approval(Strip(actorId), normalized));
    case FinalizeCompletion =>
      if id !in repository.projects {
        return Err(ProjectMissing);
      }
      if !repository.projects[id].ownerNotified {
        repository.RecordCompletionOwnerNotified(id);
      }
      assert repository.projects == old(repository.projects)[id := old(repository.projects)[id].(ownerNotified := true)];
      r := repository.TransitionProjectStatus(id, Completed, normalized);
    case Pause => r := repository.TransitionProjectStatus(id, Paused, normalized);
    case Resume => r := repository.TransitionProjectStatus(id, Active, normalized);
    case Terminate => r := repository.TransitionProjectStatus(id, ProjectStatus.Terminated, normalized);
    case Archive => r := repository.TransitionProjectStatus(id, ProjectStatus.Archived, normalized);
  }

  // ----- what every stored project has behind it -----

  /** The history starts at proposed, moves only along the table, and ends at the current status. */
  ghost predicate LegalHistory(p: Project) {
    && (p.transitions == [] ==> p.status == Proposed)
    && (p.transitions != [] ==> p.transitions[0].source == Proposed && p.transitions[|p.transitions| - 1].target == p.status)
    && (forall i | 0 <= i < |p.transitions| :: p.transitions[i].target in AllowedTransitions(p.transitions[i].source))
    && (forall i | 0 < i < |p.transitions| :: p.transitions[i].source == p.transitions[i - 1].target)
  }

  predicate OncePerRole(approvals: seq<Approval>) {
    forall i, j | 0 <= i < j < |approvals| :: approvals[i].role != approvals[j].role
  }

  /** A project is past proposed exactly once the triad has approved it. Nobody gets to completion without report, both approvals
      and the owner's notification; initialization activates. */
  ghost predicate Governed(p: Project) {
    && LegalHistory(p)
    && OncePerRole(p.proposalApprovals) && OncePerRole(p.completionApprovals)
    && (!p.status.Proposed? <==> ApprovedByAll(p.proposalApprovals, TRIAD))
    && (p.initialized ==> Activated(p))
    && (Completed in Targets(p.transitions) ==>
          p.completionReport && ApprovedByAll(p.completionApprovals, C_SUITE) && p.ownerNotified)
    && (p.status.Completed? ==> Completed in Targets(p.transitions))
  }

  predicate Activated(p: Project) {
    !p.status.Proposed? && !p.status.Approved?
  }

  function Targets(moves: seq<Move>): set<ProjectStatus> {
    set m <- moves :: m.target
  }

  ghost predicate AllGoverned(projects: Projects) {
    forall id <- projects :: Governed(projects[id])
  }

  lemma NewIsGoverned(name: string)
    ensures Governed(NewProject(name))
  {
  }

  lemma MovedKeepsHistory(p: Project, next: ProjectStatus)
    requires LegalHistory(p) && next in AllowedTransitions(p.status)
    ensures LegalHistory(Moved(p, next))
    ensures Targets(Moved(p, next).transitions) == Targets(p.transitions) + {next}
  {
    hide AllowedTransitions;
    var after := Moved(p, next).transitions;
    assert after[|p.transitions|] == Move(p.status, next);
    assert forall m <- p.transitions :: m in after;
    assert after[|p.transitions|] in after;
  }

  lemma ApproveKeeps(approvals: seq<Approval>, a: Approval)
    requires Approve(approvals, a).Ok?
    ensures OncePerRole(approvals) ==> OncePerRole(Approve(approvals, a).value)
    ensures forall roles :: ApprovedByAll(approvals, roles) ==> ApprovedByAll(Approve(approvals, a).value, roles)
  {
    var after := Approve(approvals, a).value;
    assert forall x <- approvals :: x in after;
    assert forall role :: HasRole(approvals, role) ==> HasRole(after, role);
    if |after| > |approvals| {
      assert !HasRole(approvals, a.role);
      assert forall i | 0 <= i < |approvals| :: approvals[i] in approvals;
    }
  }

  lemma TransitionKeeps(p: Project, next: ProjectStatus, role: string)
    requires Governed(p) && Transition(p, next, role).Ok? && next in {Paused, Active, Completed, ProjectStatus.Terminated, ProjectStatus.Archived}
    ensures Governed(Transition(p, next, role).value)
  {
    MovedKeepsHistory(p, next);
    hide LegalHistory, Targets, OncePerRole, ApprovedByAll;
  }

  lemma ProposalApprovalKeeps(p: Project, a: Approval)
    requires Governed(p) && WithProposalApproval(p, a).Ok?
    ensures Governed(WithProposalApproval(p, a).value)
  {
    hide OncePerRole, ApprovedByAll, LegalHistory, Targets, Approve;
    ApproveKeeps(p.proposalApprovals, a);
    var recorded := p.(proposalApprovals := Approve(p.proposalApprovals, a).value);
    SameHistory(p, recorded);
    MovedKeepsHistory(recorded, Approved);
  }

  lemma SameHistory(p: Project, q: Project)
    requires p.transitions == q.transitions && p.status == q.status
    ensures LegalHistory(p) == LegalHistory(q)
  {
  }

  lemma InitializationKeeps(p: Project)
    requires Governed(p) && WithInitialization(p).Ok?
    ensures Governed(WithInitialization(p).value)
  {
    hide OncePerRole, ApprovedByAll, LegalHistory, Targets;
    MovedKeepsHistory(p, Active);
    SameHistory(Moved(p, Active), WithInitialization(p).value);
  }

  lemma CompletionWorkKeeps(p: Project, a: Approval)
    requires Governed(p)
    ensures WithReport(p).Ok? ==> Governed(WithReport(p).value)
    ensures WithCompletionApproval(p, a).Ok? ==> Governed(WithCompletionApproval(p, a).value)
    ensures Governed(p.(ownerNotified := true))
  {
    hide OncePerRole, ApprovedByAll, LegalHistory, Targets, Approve;
    SameHistory(p, p.(completionReport := true));
    SameHistory(p, p.(ownerNotified := true));
    if WithCompletionApproval(p, a).Ok? {
      ApproveKeeps(p.completionApprovals, a);
      SameHistory(p, WithCompletionApproval(p, a).value);
    }
  }

  lemma StoredKeeps(projects: Projects, id: string, op: Project -> Result<Project>)
    requires AllGoverned(projects)
    requires forall p | Governed(p) && op(p).Ok? :: Governed(op(p).value)
    ensures AllGoverned(Stored(projects, id, op).0)
  {
    hide Governed;
  }

  lemma TransitionOpKeeps(next: ProjectStatus, role: string)
    requires next in {Paused, Active, Completed, ProjectStatus.Terminated, ProjectStatus.Archived}
    ensures forall p | Governed(p) && Transition(p, next, role).Ok? :: Governed(Transition(p, next, role).value)
  {
    forall p | Governed(p) && Transition(p, next, role).Ok?
      ensures Governed(Transition(p, next, role).value)
    {
      TransitionKeeps(p, next, role);
    }
  }

  /** Every operation, by whoever, leaves every stored project governed. */
  lemma PerformKeepsGoverned(projects: Projects, id: string, role: string, op: Operation)
    requires AllGoverned(projects)
    ensures AllGoverned(Perform(projects, id, role, op).0)
  {
    var r := NormalizeRole(role);
    hide Governed, Transition, WithProposalApproval, WithInitialization, WithReport, WithCompletionApproval, NormalizeRole, RolesFor;
    match op
    case CreateProposal(name) => NewIsGoverned(name);
    case ApproveProposal(actorId) =>
      var a := Approval(Strip(actorId), r);
      forall p | Governed(p) && WithProposalApproval(p, a).Ok?
        ensures Governed(WithProposalApproval(p, a).value)
      {
        ProposalApprovalKeeps(p, a);
      }
      StoredKeeps(projects, id, p => WithProposalApproval(p, a));
    case Initialize(_) =>
      forall p | Governed(p) && WithInitialization(p).Ok?
        ensures Governed(WithInitialization(p).value)
      {
        InitializationKeeps(p);
      }
      StoredKeeps(projects, id, WithInitialization);
    case SubmitReport =>
      forall p | Governed(p) && WithReport(p).Ok?
        ensures Governed(WithReport(p).value)
      {
        CompletionWorkKeeps(p, Approval("", ""));
      }
      StoredKeeps(projects, id, WithReport);
    case ApproveCompletion(actorId) =>
      var a := Approval(Strip(actorId), r);
      forall p | Governed(p) && WithCompletionApproval(p, a).Ok?
        ensures Governed(WithCompletionApproval(p, a).value)
      {
        CompletionWorkKeeps(p, a);
      }
      StoredKeeps(projects, id, p => WithCompletionApproval(p, a));
    case FinalizeCompletion =>
      if id in projects {
        CompletionWorkKeeps(projects[id], Approval("", ""));
        TransitionOpKeeps(Completed, r);
        StoredKeeps(projects[id := projects[id].(ownerNotified := true)], id, p => Transition(p, Completed, r));
      }
    case Pause => TransitionOpKeeps(Paused, r); StoredKeeps(projects, id, p => Transition(p, Paused, r));
    case Resume => TransitionOpKeeps(Active, r); StoredKeeps(projects, id, p => Transition(p, Active, r));
    case Terminate =>
      TransitionOpKeeps(ProjectStatus.Terminated, r);
      StoredKeeps(projects, id, p => Transition(p, ProjectStatus.Terminated, r));
    case Archive =>
      TransitionOpKeeps(ProjectStatus.Archived, r);
      StoredKeeps(projects, id, p => Transition(p, ProjectStatus.Archived, r));
  }

  ghost predicate AllInitialized(projects: Projects) {
    forall id <- projects :: Activated(projects[id]) ==> projects[id].initialized
  }

  /** The one way into activity without the CWO's initialization: `resume`, which is meant for paused
      projects, sent for an approved one, since the table lets approved become active. */
  lemma InitializationSkippedIff(projects: Projects, id: string, role: string, op: Operation)
    requires AllGoverned(projects) && AllInitialized(projects)
    ensures !AllInitialized(Perform(projects, id, role, op).0) <==>
      op == Resume && NormalizeRole(role) in RolesFor(Resume) && id in projects && projects[id].status == Approved
  {
    hide NormalizeRole, RolesFor, LegalHistory, Targets, OncePerRole, ApprovedByAll, CompletionBar, Approve;
    var after := Perform(projects, id, role, op).0;
    if id in projects {
      assert Governed(projects[id]);
      if op == Resume && NormalizeRole(role) in RolesFor(Resume) && projects[id].status == Approved {
        assert Activated(after[id]) && !after[id].initialized;
      }
    }
  }

  predicate HasEnded(p: Project) {
    p.status.Completed? || p.status.Terminated? || p.status.Archived?
  }

  /** Only the CEO and the CWO end projects; the owner only proposes and approves, and the project
      manager only reports, pauses and resumes. */
  lemma EndingsAreExecutive(projects: Projects, id: string, role: string, op: Operation)
    requires id in projects && Perform(projects, id, role, op).1.Ok?
    ensures !HasEnded(projects[id]) && HasEnded(Perform(projects, id, role, op).0[id]) ==> NormalizeRole(role) in C_SUITE
    ensures NormalizeRole(role) == "owner" ==> Perform(projects, id, role, op).0[id].status in {projects[id].status, Approved}
    ensures NormalizeRole(role) == "project_manager" ==>
      Perform(projects, id, role, op).0[id].status in {projects[id].status, Active, Paused}
  {
    hide NormalizeRole, CompletionBar, ApprovedByAll, Approve;
    assert |"owner"| == 5 && |"ceo"| == 3 && |"cwo"| == 3 && |"project_manager"| == 15;
  }

  /** How far along a status is. */
  function Stage(s: ProjectStatus): nat {
    match s
    case Proposed => 0
    case Approved => 1
    case Active => 2
    case Paused => 2
    case Completed => 3
    case Terminated => 3
    case Archived => 4
  }

  lemma {:induction false} StagesGrow(p: Project, i: nat, j: nat)
    requires LegalHistory(p) && i < j < |p.transitions|
    ensures Stage(p.transitions[i].target) <= Stage(p.transitions[j].source)
    decreases j - i
  {
    if j == i + 1 {
      assert p.transitions[j].source == p.transitions[j - 1].target;
    } else {
      StagesGrow(p, i, j - 1);
      assert p.transitions[j - 1].target in AllowedTransitions(p.transitions[j - 1].source);
      assert p.transitions[j].source == p.transitions[j - 1].target;
    }
  }

  predicate IsEnding(s: ProjectStatus) {
    s.Completed? || s.Terminated?
  }

  /** A project is approved at most once, activated from approved at most once, ended at most once,
      whichever way, and archived at most once, from wherever; only pausing and resuming repeat. */
  lemma EachStageOnce(p: Project, i: nat, j: nat)
    requires LegalHistory(p) && i < j < |p.transitions|
    ensures !(p.transitions[i].target == Approved && p.transitions[j].target == Approved)
    ensures !(p.transitions[i].source == Approved && p.transitions[j].source == Approved)
    ensures !(IsEnding(p.transitions[i].target) && IsEnding(p.transitions[j].target))
    ensures !(p.transitions[i].target == Archived && p.transitions[j].target == Archived)
  {
    StagesGrow(p, i, j);
    assert p.transitions[i].target in AllowedTransitions(p.transitions[i].source);
    assert p.transitions[j].target in AllowedTransitions(p.transitions[j].source);
  }

  /** A refused finalization still records the owner's notification, exactly when a CEO or CWO asks
      for it, the owner had not been notified, and the project is not active with its report and both
      approvals. */
  lemma RefusalNotifiesIff(projects: Projects, id: string, role: string)
    ensures var (after, result) := Perform(projects, id, role, FinalizeCompletion);
      (result.Err? && id in projects && id in after && !projects[id].ownerNotified && after[id].ownerNotified) <==>
        && NormalizeRole(role) in C_SUITE && id in projects && !projects[id].ownerNotified
        && !(projects[id].status == Active && projects[id].completionReport
             && ApprovedByAll(projects[id].completionApprovals, C_SUITE))
  {
    hide NormalizeRole, ApprovedByAll;
  }

  /** Completion approvals never move a project, not even the second one. */
  lemma ApprovalNeverFinalizes(projects: Projects, id: string, role: string, actorId: string)
    ensures var after := Perform(projects, id, role, ApproveCompletion(actorId)).0;
      && after.Keys == projects.Keys
      && forall other <- projects :: after[other].status == projects[other].status && after[other].transitions == projects[other].transitions
  {
    hide NormalizeRole, RolesFor, Approve, Strip;
  }

  lemma RolesAreNormal()
    ensures NormalizeRole("owner") == "owner" && NormalizeRole("ceo") == "ceo" && NormalizeRole("cwo") == "cwo"
  {
    hide Strip, Lower;
    StripOfWord("owner");
    StripOfWord("ceo");
    StripOfWord("cwo");
    LowerOfSmall("owner");
    LowerOfSmall("ceo");
    LowerOfSmall("cwo");
  }
}
