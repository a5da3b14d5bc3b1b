/** Channel bindings of projects: creation, state transitions and lookup by inferred channel name
    (project_spaces/binding_service.py, project_spaces/binding_repository.py). */
module ProjectSpaces {
  import opened PyText
  import opened MessageLedger
  import Slugs

  datatype BindingState = Proposed | PendingApproval | Active | Archived | Locked

  datatype Binding = Binding(
    id: string, projectId: string, guildId: string, channelId: string, state: BindingState,
    defaultRecipient: string, updatedAt: nat)

  /** Where an event takes a binding, if anywhere. */
  function TargetState(event: string, state: BindingState): Option<BindingState> {
    if event == "approve" then
      if state.Proposed? then Some(PendingApproval) else None
    else if event == "activate" then
      if state.PendingApproval? || state.Proposed? then Some(Active) else None
    else if event == "archive" then
      if state.Active? then Some(Archived) else None
    else if event == "lock" then
      if state.Active? || state.Archived? then Some(Locked) else None
    else None
  }

  /** Bindings only go forward. */
  function Rank(s: BindingState): nat {
    match s
    case Proposed => 0
    case PendingApproval => 1
    case Active => 2
    case Archived => 3
    case Locked => 4
  }

  function Goal(event: string): nat {
    if event == "approve" then 1 else if event == "activate" then 2 else if event == "archive" then 3
    else if event == "lock" then 4 else 0
  }

  /** An event is legal exactly if it leads forward and does not leap over activation: approving and
      activating come before it, archiving and locking after. */
  lemma EventsGoForward(event: string, s: BindingState)
    ensures var target := TargetState(event, s);
      && (target.Some? <==> Rank(s) < Goal(event) && (Rank(s) >= 2 <==> Goal(event) > 2))
      && (target.Some? ==> Rank(target.value) == Goal(event))
  {
    assert |"approve"| == 7 && |"activate"| == 8 && |"archive"| == 7 && |"lock"| == 4 && "approve"[1] != "archive"[1];
  }

  /** The binding table in insertion order and the clock behind `updated_at`, taken to tick with
      every write. */
  datatype Spaces = Spaces(rows: seq<Binding>, now: nat)

  function Inserted(s: Spaces, projectId: string, guildId: string, channelId: string): Spaces {
    Spaces(s.rows + [Binding(FreshId(|s.rows|), projectId, guildId, channelId, Active, "project_manager", s.now)], s.now + 1)
  }

  function Updated(s: Spaces, i: nat, state: BindingState): Spaces
    requires i < |s.rows|
  {
    Spaces(s.rows[i := s.rows[i].(state := state, updatedAt := s.now)], s.now + 1)
  }

  /** Timestamps are distinct and in the past. */
  ghost predicate Clocked(s: Spaces) {
    && (forall i | 0 <= i < |s.rows| :: s.rows[i].updatedAt < s.now)
    && (forall i, j | 0 <= i < j < |s.rows| :: s.rows[i].updatedAt != s.rows[j].updatedAt)
  }

  /** `transition` on row i; nothing happens when the event leads nowhere from its state. */
  function Transitioned(s: Spaces, i: nat, event: string): Spaces
    requires i < |s.rows|
  {
    match TargetState(event, s.rows[i].state)
    case None => s
    case Some(target) => Updated(s, i, target)
  }

  datatype Outcome = Done | NoBinding | Illegal | ChannelFailed

  /** Illegal exactly without a target; failed exactly when a channel had to be touched and that failed. */
  function OutcomeOf(target: Option<BindingState>, channelFails: bool): Outcome {
    if target.None? then Illegal
    else if (target.value.Archived? || target.value.Locked?) && channelFails then ChannelFailed
    else Done
  }

  class ProjectSpaceBindingService {
    var rows: seq<Binding>
    var now: nat

    constructor ()
      ensures Value() == Spaces([], 0)
    {
      rows, now := [], 0;
    }

    function Value(): Spaces
      reads this
    {
      Spaces(rows, now)
    }

    /** `channel` is what Discord answers, `None` an API failure; `insertFails` a database error. */
    method CreateAndBind(projectId: string, guildId: string, channel: Option<string>, insertFails: bool)
      returns (binding: Option<Binding>)
      modifies this
      ensures channel.None? || insertFails ==> binding == None && Value() == old(Value())
      ensures channel.Some? && !insertFails ==>
        && Value() == Inserted(old(Value()), projectId, guildId, channel.value)
        && binding == Some(rows[|old(rows)|])
        && binding.value.projectId == projectId && binding.value.guildId == guildId && binding.value.channelId == channel.value
        && binding.value.state.Active? && binding.value.defaultRecipient == "project_manager"
    {
      if channel.None? || insertFails {
        return None;
      }
      var row := Binding(FreshId(|rows|), projectId, guildId, channel.value, Active, "project_manager", now);
      rows := rows + [row];
      now := now + 1;
      return Some(row);
    }

    /** Which of several rows of a project is found is up to the database. The new state is committed
        before the channel is touched, so a failing channel operation does not undo it. */
    method Transition(projectId: string, event: string, channelFails: bool) returns (outcome: Outcome, row: Option<int>)
      modifies this
      ensures row.None? <==> forall i | 0 <= i < |old(rows)| :: old(rows)[i].projectId != projectId
      ensures row.None? ==> outcome == NoBinding && Value() == old(Value())
      ensures row.Some? ==>
        && 0 <= row.value < |old(rows)| && old(rows)[row.value].projectId == projectId
        && Value() == Transitioned(old(Value()), row.value, event)
        && outcome == OutcomeOf(TargetState(event, old(rows)[row.value].state), channelFails)
    {
      if i :| 0 <= i < |rows| && rows[i].projectId == projectId {
        var target := TargetState(event, rows[i].state);
        if target.None? {
          return Illegal, Some(i);
        }
        rows := rows[i := rows[i].(state := target.value, updatedAt := now)];
        now := now + 1;
        if channelFails && (target.value.Archived? || target.value.Locked?) {
          return ChannelFailed, Some(i);
        }
        return Done, Some(i);
      }
      return NoBinding, None;
    }
  }

  // ----- lookup by channel name -----

  /** The channel name the lookup infers for a project. */
  function InferredName(projectName: string): string {
    Slugs.ChannelName(Slugs.LookupSlug(projectName))
  }

  /** What the join may return: the guild's bindings of known projects, most recently updated first. */
  ghost predicate IsListing(listing: seq<Binding>, rows: seq<Binding>, names: map<string, string>, guildId: string) {
    && (forall b :: b in listing <==> b in rows && b.guildId == guildId && b.projectId in names)
    && (forall i, j | 0 <= i < j < |listing| :: listing[i].updatedAt > listing[j].updatedAt)
  }

  /** The first row whose inferred name is the one asked for. */
  function FirstNamed(listing: seq<Binding>, names: map<string, string>, channel: string): (r: Option<Binding>)
    requires forall b <- listing :: b.projectId in names
    ensures r.Some? ==> r.value in listing && InferredName(names[r.value.projectId]) == channel
  {
    if listing == [] then None
    else if InferredName(names[listing[0].projectId]) == channel then Some(listing[0])
    else FirstNamed(listing[1..], names, channel)
  }

  /** `find_by_channel_name`, given the rows of its query. */
  method FindByChannelName(listing: seq<Binding>, names: map<string, string>, channelName: string)
    returns (found: Option<Binding>)
    requires forall b <- listing :: b.projectId in names
    ensures var channel := Lower(Strip(channelName));
      found == if channel == "" then None else FirstNamed(listing, names, channel)
  {
    hide Slugs.ChannelName, Slugs.SubRuns, Slugs.StripHyphens, Slugs.Collapse, Lower, Strip;
    var channel := Lower(Strip(channelName));
    if channel == "" {
      return None;
    }
    for i := 0 to |listing|
      invariant FirstNamed(listing, names, channel) == FirstNamed(listing[i..], names, channel)
    {
      var projectName := Lower(Strip(names[listing[i].projectId]));
      var slug := Slugs.CollapseHyphens(Slugs.SubRuns(projectName, false));
      slug := Slugs.StripHyphens(slug);
      if Slugs.ChannelName(slug) == channel {
        return Some(listing[i]);
      }
      assert listing[i..][1..] == listing[i + 1..];
    }
    return None;
  }

  /** `get_binding_by_name`: only an active binding is handed out. */
  method GetBindingByName(listing: seq<Binding>, names: map<string, string>, channelName: string)
    returns (binding: Option<Binding>)
    requires forall b <- listing :: b.projectId in names
    ensures binding == ActiveNamed(listing, names, channelName)
  {
    var found := FindByChannelName(listing, names, channelName);
    if found.None? || !found.value.state.Active? {
      return None;
    }
    return found;
  }

  function ActiveNamed(listing: seq<Binding>, names: map<string, string>, channelName: string): Option<Binding>
    requires forall b <- listing :: b.projectId in names
  {
    var channel := Lower(Strip(channelName));
    var found := if channel == "" then None else FirstNamed(listing, names, channel);
    if found.Some? && found.value.state.Active? then found else None
  }

  /** c hides b: it would be listed first under b's channel name. */
  predicate Shadows(c: Binding, b: Binding, names: map<string, string>) {
    && c.guildId == b.guildId && c.projectId in names && b.projectId in names
    && Slugs.SlugifyChannelName(names[c.projectId]) == Slugs.SlugifyChannelName(names[b.projectId])
    && c.updatedAt > b.updatedAt
  }

  /** Looking up the name a channel was created with returns its binding exactly when the binding is
      active and no binding of the guild whose project has the same (truncated) slug was updated
      later. */
  lemma CreatedNameFindsBinding(rows: seq<Binding>, listing: seq<Binding>, names: map<string, string>, b: Binding)
    requires IsListing(listing, rows, names, b.guildId) && b in rows && b.projectId in names
    ensures ActiveNamed(listing, names, Slugs.SlugifyChannelName(names[b.projectId])) == Some(b) <==>
      b.state.Active? && forall c <- rows :: !Shadows(c, b, names)
  {
    hide Slugs.ChannelName, Slugs.SlugifyChannelName, Lower, Strip, InferredName;
    var channel := Slugs.SlugifyChannelName(names[b.projectId]);
    Slugs.ChannelNameIsNormal(names[b.projectId]);
    forall p | p in names
      ensures InferredName(names[p]) == Slugs.SlugifyChannelName(names[p])
    {
      InferredIsCreated(names[p]);
    }
    FirstIsYoungest(listing, names, channel);
    assert b in listing;
    var i :| 0 <= i < |listing| && listing[i] == b;
  }

  lemma InferredIsCreated(name: string)
    ensures InferredName(name) == Slugs.SlugifyChannelName(name)
  {
    Slugs.SlugsAgree(name);
    hide Slugs.LookupSlug, Slugs.CreationSlug, Slugs.ChannelName;
  }

  lemma {:induction false} FirstIsYoungest(listing: seq<Binding>, names: map<string, string>, channel: string)
    requires forall b <- listing :: b.projectId in names
    requires forall i, j | 0 <= i < j < |listing| :: listing[i].updatedAt > listing[j].updatedAt
    ensures forall i | 0 <= i < |listing| && InferredName(names[listing[i].projectId]) == channel ::
      FirstNamed(listing, names, channel).Some? && FirstNamed(listing, names, channel).value.updatedAt >= listing[i].updatedAt
  {
    hide InferredName;
    if listing != [] && InferredName(names[listing[0].projectId]) != channel {
      FirstIsYoungest(listing[1..], names, channel);
      assert forall i | 0 < i < |listing| :: listing[i] == listing[1..][i - 1];
    }
  }

  /** Writing keeps timestamps distinct, which is what the listing order relies on. */
  lemma WritesKeepClock(s: Spaces, i: nat, state: BindingState, projectId: string, guildId: string, channelId: string)
    requires Clocked(s)
    ensures Clocked(Inserted(s, projectId, guildId, channelId))
    ensures i < |s.rows| ==> Clocked(Updated(s, i, state))
  {
  }
}
