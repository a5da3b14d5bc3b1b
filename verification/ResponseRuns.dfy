/** Who answers a message when, over every interleaving of its bots' coroutines
    (`_enter_response_order` and `_exit_response_order` in apps/discord_bot_worker.py). */
module ResponseRuns {
  import opened PyText
  import opened ResponseOrder
  import RoleOrder

  predicate Distinct(list: seq<string>) {
    forall i, j :: 0 <= i < j < |list| ==> list[i] != list[j]
  }

  /** All events have computed the same list, no role is listed twice or has two events, and every
      event's role is listed. Some listed roles may have no event. */
  ghost predicate AtMostOneEventPerRole(m: Message, ordered: seq<string>) {
    && Distinct(ordered)
    && (forall e <- m :: e.ordered == ordered && e.role in ordered)
    && (forall d, e :: 0 <= d < e < |m| ==> m[d].role != m[e].role)
  }

  /** Every listed role has an event. */
  predicate Complete(m: Message, ordered: seq<string>) {
    forall r <- ordered :: r in Roles(m)
  }

  /** Every role listed before position j has an event. */
  predicate EarlierPresent(m: Message, ordered: seq<string>, j: nat)
    requires j <= |ordered|
  {
    forall k :: 0 <= k < j ==> ordered[k] in Roles(m)
  }

  // ----- messages whose lists are computed -----

  /** The events of one message: each bot computes the list from the recipients and its own role. */
  function Computed(recipients: seq<(string, string)>, roles: seq<string>): Message {
    seq(|roles|, e requires 0 <= e < |roles| => Event(roles[e], RoleOrder.OrderedRecipientRoles(recipients, roles[e])))
  }

  /** Distinct bots that are all among the recipients agree on one list without repetitions. */
  lemma ComputedListsAgree(recipients: seq<(string, string)>, roles: seq<string>)
    requires Distinct(roles) && roles != []
    requires forall r <- roles :: RoleOrder.NormalizeRole(r) == r && r != "" && r in RoleOrder.NamedRoles(recipients, "")
    ensures AtMostOneEventPerRole(Computed(recipients, roles), RoleOrder.OrderedRecipientRoles(recipients, ""))
  {
    hide RoleOrder.OrderedRecipientRoles, RoleOrder.Sorted, RoleOrder.NormalizeRole, Strip, RoleOrder.NamedRoles;
    var ordered := RoleOrder.OrderedRecipientRoles(recipients, "");
    RoleOrder.OrderedRolesCorrect(recipients, "");
    forall i: nat, j: nat | i < j < |ordered|
      ensures ordered[i] != ordered[j]
    {
      RoleOrder.SortedDistinct(ordered, i, j);
    }
    assert roles[0] in roles;
    forall r | r in roles
      ensures RoleOrder.OrderedRecipientRoles(recipients, r) == ordered && r in ordered
    {
      OwnRoleAddsNothing(recipients, r);
      RoleOrder.OrderDependsOnlyOnRoleSet(recipients, r, recipients, "");
      assert r in RoleOrder.Elements(ordered);
    }
    assert forall e <- Computed(recipients, roles) :: e.role in roles && e.ordered == RoleOrder.OrderedRecipientRoles(recipients, e.role);
  }

  lemma OwnRoleAddsNothing(recipients: seq<(string, string)>, role: string)
    requires RoleOrder.NormalizeRole(role) == role && role in RoleOrder.NamedRoles(recipients, "")
    ensures RoleOrder.AddressedRoles(recipients, role) == RoleOrder.AddressedRoles(recipients, "")
    ensures role in RoleOrder.AddressedRoles(recipients, "")
  {
    hide Lower, Strip;
    StripOfTrimmed("");
  }

  // ----- bookkeeping -----

  ghost predicate HasExited(p: Phase) {
    p.Exited? || p.Done?
  }

  ghost predicate AllExited(w: World) {
    forall e :: 0 <= e < |w.phases| ==> HasExited(w.phases[e])
  }

  /** There is only ever one ordering state, it records exactly the exited roles, and it stays in the
      map until all listed roles have exited, hence for ever if one of them has no event. */
  ghost predicate Bookkeeping(m: Message, ordered: seq<string>, w: World)
    requires Shape(m, w)
  {
    && |w.states| <= 1
    && (|w.states| == 0 ==> forall e :: 0 <= e < |w.phases| ==> w.phases[e].Pending?)
    && (|w.states| == 1 ==>
          && w.states[0].orderedRoles == ordered
          && (forall e :: 0 <= e < |w.phases| ==>
                (HasExited(w.phases[e]) <==> m[e].role in w.states[0].completedRoles))
          && (w.entry == None ==> AllExited(w) && Complete(m, ordered))
          && (w.entry != None && AllExited(w) && Complete(m, ordered) ==>
                exists e :: 0 <= e < |w.phases| && w.phases[e] == Exited(0, true))
          && (forall e :: 0 <= e < |w.phases| && w.phases[e].Exited? && w.phases[e].finished ==>
                AllExited(w) && Complete(m, ordered)))
  }

  lemma {:induction false} DistinctCount(roles: seq<string>)
    requires Distinct(roles)
    ensures |RoleOrder.Elements(roles)| == |roles|
  {
    if roles != [] {
      var last, init := roles[|roles| - 1], roles[..|roles| - 1];
      DistinctCount(init);
      assert roles == init + [last];
      assert RoleOrder.Elements(roles) == RoleOrder.Elements(init) + {last};
    }
  }

  lemma SubsetCount(a: set<string>, b: set<string>)
    requires a <= b
    ensures |a| <= |b| && (|a| == |b| ==> a == b)
  {
    assert b == a + (b - a);
  }

  /** `finished` is computed from two sizes; it means that every listed role has completed. */
  lemma FinishedMeansAll(m: Message, ordered: seq<string>, s: OrderState)
    requires AtMostOneEventPerRole(m, ordered) && s.orderedRoles == ordered && s.completedRoles <= Roles(m)
    ensures Finished(s) <==> forall r <- ordered :: r in s.completedRoles
  {
    var all := RoleOrder.Elements(ordered);
    DistinctCount(ordered);
    assert s.completedRoles <= all;
    SubsetCount(s.completedRoles, all);
    if forall r <- ordered :: r in s.completedRoles {
      assert all <= s.completedRoles;
      SubsetCount(all, s.completedRoles);
    }
  }

  /** An exit reports the end exactly when all events have exited and no listed role lacks one. */
  lemma ExitCompletes(m: Message, ordered: seq<string>, w: World, e: nat)
    requires AtMostOneEventPerRole(m, ordered) && Shape(m, w) && Enabled(m, w, Exit(e)) && Bookkeeping(m, ordered, w)
    requires Shape(m, Next(m, w, Exit(e)))
    ensures var w' := Next(m, w, Exit(e));
      && w.phases[e].s == 0 && |w'.states| == 1 && w'.entry == w.entry && |w'.phases| == |w.phases|
      && w'.states[0].orderedRoles == ordered
      && (forall d :: 0 <= d < |w.phases| && d != e ==> w'.phases[d] == w.phases[d])
      && (forall d :: 0 <= d < |w'.phases| ==> (HasExited(w'.phases[d]) <==> m[d].role in w'.states[0].completedRoles))
      && w'.phases[e] == Exited(0, AllExited(w') && Complete(m, ordered))
  {
    hide AtLongestPrefix, PrefixFrom, Finished;
    var w' := Next(m, w, Exit(e));
    var s, s' := w.states[0], w'.states[0];
    assert s'.completedRoles == s.completedRoles + {m[e].role};
    FinishedMeansAll(m, ordered, s');
    assert forall d :: 0 <= d < |m| ==> m[d] in m;
  }

  lemma DeliveringAt(m: Message, w: World, e: nat)
    requires Shape(m, w) && Enabled(m, w, Exit(e))
    ensures e < |m| && w.phases[e].Delivering?
  {
  }

  lemma ExitKeepsBookkeeping(m: Message, ordered: seq<string>, w: World, e: nat)
    requires AtMostOneEventPerRole(m, ordered) && Shape(m, w) && Enabled(m, w, Exit(e)) && Bookkeeping(m, ordered, w)
    requires Shape(m, Next(m, w, Exit(e)))
    ensures Bookkeeping(m, ordered, Next(m, w, Exit(e)))
  {
    hide AtLongestPrefix, PrefixFrom, Next, AtMostOneEventPerRole, Complete, Roles, Lists, Enabled, Finished;
    ExitCompletes(m, ordered, w, e);
    assert w.phases[e].Delivering? by { DeliveringAt(m, w, e); }
    var w' := Next(m, w, Exit(e));
    assert !HasExited(w.phases[e]);
    if AllExited(w') && Complete(m, ordered) {
      assert w'.phases[e] == Exited(0, true);
    }
  }

  lemma ListOf(m: Message, ordered: seq<string>, e: nat)
    requires AtMostOneEventPerRole(m, ordered) && e < |m|
    ensures m[e].ordered == ordered
  {
    assert m[e] in m;
  }

  lemma NextKeepsBookkeeping(m: Message, ordered: seq<string>, w: World, a: Action)
    requires AtMostOneEventPerRole(m, ordered) && Shape(m, w) && Enabled(m, w, a) && Bookkeeping(m, ordered, w)
    requires Shape(m, Next(m, w, a))
    ensures Bookkeeping(m, ordered, Next(m, w, a))
  {
    hide AtLongestPrefix, PrefixFrom, AtMostOneEventPerRole, Complete, Roles, Lists, Finished, Ready;
    var w', e := Next(m, w, a), a.e;
    ListOf(m, ordered, e);
    if a.Exit? {
      ExitKeepsBookkeeping(m, ordered, w, e);
    } else {
      assert forall d :: 0 <= d < |w.phases| && d != e ==> w'.phases[d] == w.phases[d];
      assert !a.CleanUp? ==> !HasExited(w.phases[e]) && !HasExited(w'.phases[e]);
      if a.CleanUp? && w.entry != None && AllExited(w') && Complete(m, ordered) {
        assert AllExited(w);
        var d :| 0 <= d < |w.phases| && w.phases[d] == Exited(0, true);
        assert w'.entry != None ==> d != e && w'.phases[d] == Exited(0, true);
      }
    }
  }

  lemma {:induction false} BookkeepingHolds(m: Message, ordered: seq<string>, acts: seq<Action>, worlds: seq<World>, i: nat)
    requires AtMostOneEventPerRole(m, ordered) && IsRun(m, acts, worlds) && i < |worlds|
    ensures Shape(m, worlds[i]) && Bookkeeping(m, ordered, worlds[i])
  {
    hide AtMostOneEventPerRole, AtLongestPrefix, Next, Enabled, Bookkeeping;
    NextIndexAlwaysLongestPrefix(m, acts, worlds, i);
    if i == 0 {
      InitialBookkeeping(m, ordered);
    } else {
      BookkeepingHolds(m, ordered, acts, worlds, i - 1);
      NextKeepsBookkeeping(m, ordered, worlds[i - 1], acts[i - 1]);
    }
  }

  lemma InitialBookkeeping(m: Message, ordered: seq<string>)
    ensures Shape(m, InitialWorld(m)) && Bookkeeping(m, ordered, InitialWorld(m))
  {
  }

  /** When the map entry goes, with or without timeouts. It is there for every waiting or delivering
      event and goes only after every listed role has exited; once all coroutines have finished it is
      gone exactly when every listed role had an event. With a missing role it therefore stays for
      ever, and no exit ever reports the end. */
  lemma EntryGoesIff(m: Message, ordered: seq<string>, acts: seq<Action>, worlds: seq<World>, i: nat)
    requires AtMostOneEventPerRole(m, ordered) && IsRun(m, acts, worlds) && i < |worlds|
    ensures var w := worlds[i];
      && |w.phases| == |m|
      && (forall e :: 0 <= e < |w.phases| && (w.phases[e].Waiting? || w.phases[e].Delivering?)
            ==> w.entry == Some(w.phases[e].s))
      && (w.entry == None && |w.states| > 0 ==> AllExited(w) && Complete(m, ordered))
      && (|w.states| > 0 && (forall e :: 0 <= e < |w.phases| ==> w.phases[e].Done?) ==>
            (w.entry == None <==> Complete(m, ordered)))
      && (forall e :: 0 <= e < |w.phases| && w.phases[e].Exited? && w.phases[e].finished ==> Complete(m, ordered))
  {
    hide AtLongestPrefix, Complete, AtMostOneEventPerRole, Roles, Lists;
    BookkeepingHolds(m, ordered, acts, worlds, i);
  }

  // ----- order -----

  /** Every role listed before `role` has completed in `s`. */
  ghost predicate EarlierCompleted(ordered: seq<string>, s: OrderState, role: string) {
    forall i, j {:trigger ordered[i], ordered[j]} ::
      0 <= j < i < |ordered| && ordered[i] == role ==> ordered[j] in s.completedRoles
  }

  /** Every role before one that delivers or has delivered has completed. */
  ghost predicate InOrder(m: Message, ordered: seq<string>, w: World)
    requires Shape(m, w)
  {
    forall e :: 0 <= e < |w.phases| && !w.phases[e].Pending? && !w.phases[e].Waiting? ==>
      EarlierCompleted(ordered, w.states[w.phases[e].s], m[e].role)
  }

  lemma ReadyMeansEarlierCompleted(ordered: seq<string>, s: OrderState, role: string)
    requires Distinct(ordered) && s.orderedRoles == ordered && AtLongestPrefix(s) && Ready(s, role)
    ensures EarlierCompleted(ordered, s, role)
  {
    forall i, j | 0 <= j < i < |ordered| && ordered[i] == role
      ensures ordered[j] in s.completedRoles
    {
      assert s.nextIndex >= |s.orderedRoles| || i == s.nextIndex;
    }
  }

  lemma CompletedGrows(ordered: seq<string>, s: OrderState, s': OrderState, role: string)
    requires EarlierCompleted(ordered, s, role) && s.completedRoles <= s'.completedRoles
    ensures EarlierCompleted(ordered, s', role)
  {
  }

  lemma NextKeepsOrder(m: Message, ordered: seq<string>, w: World, a: Action)
    requires Distinct(ordered) && Shape(m, w) && Enabled(m, w, a)
    requires forall s <- w.states :: s.orderedRoles == ordered
    requires InOrder(m, ordered, w) && !a.TimeOut?
    requires Shape(m, Next(m, w, a))
    ensures InOrder(m, ordered, Next(m, w, a))
  {
    hide PrefixFrom, Finished, Distinct, AtLongestPrefix, EarlierCompleted, Ready, Roles, Lists;
    var w' := Next(m, w, a);
    forall e | 0 <= e < |w'.phases| && !w'.phases[e].Pending? && !w'.phases[e].Waiting?
      ensures EarlierCompleted(ordered, w'.states[w'.phases[e].s], m[e].role)
    {
      var s := w'.phases[e].s;
      if w.phases[e].Waiting? {
        ReadyMeansEarlierCompleted(ordered, w.states[s], m[e].role);
      } else {
        CompletedGrows(ordered, w.states[s], w'.states[s], m[e].role);
      }
    }
  }

  lemma {:induction false} OrderHolds(m: Message, ordered: seq<string>, acts: seq<Action>, worlds: seq<World>, i: nat)
    requires AtMostOneEventPerRole(m, ordered) && IsRun(m, acts, worlds) && i < |worlds| && NoTimeOut(acts)
    ensures Shape(m, worlds[i]) && Bookkeeping(m, ordered, worlds[i]) && InOrder(m, ordered, worlds[i])
  {
    hide AtLongestPrefix, Next, Enabled, Roles, Lists, EarlierCompleted, Distinct, HasExited, AllExited, Complete;
    BookkeepingHolds(m, ordered, acts, worlds, i);
    if i > 0 {
      OrderHolds(m, ordered, acts, worlds, i - 1);
      NextKeepsOrder(m, ordered, worlds[i - 1], acts[i - 1]);
    }
  }

  /** Without timeouts the answers come one at a time and in order: no two events deliver together,
      and an event delivers only after every event of an earlier role has exited. */
  lemma OneAtATimeInOrder(m: Message, ordered: seq<string>, acts: seq<Action>, worlds: seq<World>, i: nat, d: nat, e: nat)
    requires AtMostOneEventPerRole(m, ordered) && IsRun(m, acts, worlds) && i < |worlds| && NoTimeOut(acts)
    requires d < |m| && e < |m|
    ensures |worlds[i].phases| == |m|
    ensures worlds[i].phases[d].Delivering? && worlds[i].phases[e].Delivering? ==> d == e
    ensures forall x, y :: 0 <= x < y < |ordered| ==>
      ordered[x] == m[d].role && ordered[y] == m[e].role && worlds[i].phases[e].Delivering? ==>
        HasExited(worlds[i].phases[d])
  {
    hide AtLongestPrefix, Next, Enabled, Roles, Lists;
    OrderHolds(m, ordered, acts, worlds, i);
    var w := worlds[i];
    assert m[d] in m && m[e] in m;
    var x :| 0 <= x < |ordered| && ordered[x] == m[d].role;
    var y :| 0 <= y < |ordered| && ordered[y] == m[e].role;
    assert d != e ==> x != y;
  }

  // ----- progress -----

  /** Once every event has arrived and everything listed before e's role has one, e is never stuck: as
      long as e has not exited, some event is delivering or may start without a timeout. */
  lemma Progress(m: Message, ordered: seq<string>, acts: seq<Action>, worlds: seq<World>, i: nat, e: nat, j: nat)
    requires AtMostOneEventPerRole(m, ordered) && IsRun(m, acts, worlds) && i < |worlds|
    requires e < |m| && j < |ordered| && ordered[j] == m[e].role && EarlierPresent(m, ordered, j)
    ensures Shape(m, worlds[i])
    ensures var w := worlds[i];
      (forall d :: 0 <= d < |w.phases| ==> !w.phases[d].Pending?) && !HasExited(w.phases[e]) ==>
        exists d :: 0 <= d < |w.phases| && (w.phases[d].Delivering? || Enabled(m, w, Start(d)))
  {
    BookkeepingHolds(m, ordered, acts, worlds, i);
    hide IsRun;
    var w := worlds[i];
    if (forall d :: 0 <= d < |w.phases| ==> !w.phases[d].Pending?) && !HasExited(w.phases[e]) {
      var d := NextToDeliver(m, ordered, w, e, j);
    }
  }

  /** The event of the role at `next_index` has not exited, so it is delivering or may start. */
  lemma NextToDeliver(m: Message, ordered: seq<string>, w: World, e: nat, j: nat) returns (d: nat)
    requires AtMostOneEventPerRole(m, ordered) && Shape(m, w) && Bookkeeping(m, ordered, w)
    requires forall d :: 0 <= d < |w.phases| ==> !w.phases[d].Pending?
    requires e < |m| && j < |ordered| && ordered[j] == m[e].role && EarlierPresent(m, ordered, j)
    requires !HasExited(w.phases[e])
    ensures d < |w.phases| && (w.phases[d].Delivering? || Enabled(m, w, Start(d)))
  {
    hide Lists, PrefixFrom;
    var s := w.states[0];
    assert m[e].role in Roles(m) by { assert m[e] in m; }
    assert s.nextIndex <= j;
    var role := ordered[s.nextIndex];
    assert role in Roles(m);
    var event :| event in m && event.role == role;
    d :| 0 <= d < |m| && m[d] == event;
    assert role !in s.completedRoles;
    assert !HasExited(w.phases[d]);
    assert w.phases[d].Waiting? || w.phases[d].Delivering?;
  }

  // ----- runs end -----

  function Rank(p: Phase): nat {
    match p
    case Pending => 4
    case Waiting(_) => 3
    case Delivering(_) => 2
    case Exited(_, _) => 1
    case Done(_) => 0
  }

  function TotalRank(phases: seq<Phase>): nat {
    if phases == [] then 0 else Rank(phases[0]) + TotalRank(phases[1..])
  }

  lemma {:induction false} TotalRankUpdate(phases: seq<Phase>, e: nat, p: Phase)
    requires e < |phases|
    ensures TotalRank(phases[e := p]) == TotalRank(phases) - Rank(phases[e]) + Rank(p)
  {
    if e == 0 {
      assert phases[e := p][1..] == phases[1..];
    } else {
      assert phases[e := p][1..] == phases[1..][e - 1 := p];
      TotalRankUpdate(phases[1..], e - 1, p);
    }
  }

  lemma {:induction false} TotalRankZero(phases: seq<Phase>)
    ensures TotalRank(phases) == 0 <==> forall e :: 0 <= e < |phases| ==> phases[e].Done?
  {
    if phases != [] {
      TotalRankZero(phases[1..]);
      assert forall e :: 0 < e < |phases| ==> phases[e] == phases[1..][e - 1];
    }
  }

  lemma {:induction false} TotalRankInitial(n: nat)
    ensures TotalRank(seq(n, _ => Pending)) == 4 * n
  {
    if n > 0 {
      assert seq(n, _ => Pending)[1..] == seq(n - 1, _ => Pending);
      TotalRankInitial(n - 1);
    }
  }

  /** Every step brings one coroutine one step nearer its end. */
  lemma NextLowersRank(m: Message, w: World, a: Action)
    requires Shape(m, w) && Enabled(m, w, a)
    ensures TotalRank(Next(m, w, a).phases) == TotalRank(w.phases) - 1
  {
    hide AtLongestPrefix, PrefixFrom, TotalRank, Roles, Lists;
    var w' := Next(m, w, a);
    TotalRankUpdate(w.phases, a.e, w'.phases[a.e]);
    assert w'.phases == w.phases[a.e := w'.phases[a.e]];
  }

  /** Every run makes at most four steps per event, and one that made them all is finished. */
  lemma {:induction false} RunsAreBounded(m: Message, acts: seq<Action>, worlds: seq<World>, i: nat)
    requires IsRun(m, acts, worlds) && i < |worlds|
    ensures i + TotalRank(worlds[i].phases) == 4 * |m|
    ensures i == 4 * |m| <==> forall e :: 0 <= e < |worlds[i].phases| ==> worlds[i].phases[e].Done?
  {
    hide AtLongestPrefix, TotalRank, Next, Enabled, Shape;
    TotalRankZero(worlds[i].phases);
    if i == 0 {
      TotalRankInitial(|m|);
    } else {
      RunsAreBounded(m, acts, worlds, i - 1);
      NextLowersRank(m, worlds[i - 1], acts[i - 1]);
    }
  }

  /** Nothing can happen any more without a timeout. */
  ghost predicate Stuck(m: Message, w: World)
    requires Shape(m, w)
  {
    forall a: Action :: Enabled(m, w, a) ==> a.TimeOut?
  }

  // ----- who is served -----

  lemma StuckPhases(m: Message, w: World, e: nat)
    requires Shape(m, w) && Stuck(m, w) && e < |m|
    ensures w.phases[e].Done? || (w.phases[e].Waiting? && !Enabled(m, w, Start(e)))
  {
    hide AtLongestPrefix, Ready;
    assert !Enabled(m, w, Arrive(e)) && !Enabled(m, w, Exit(e)) && !Enabled(m, w, CleanUp(e)) && !Enabled(m, w, Start(e));
  }

  /** Service without a timeout, exactly: whatever the interleaving, once nothing can happen any more
      without one, an event has been served if and only if every role listed before its own has an
      event. So a missing role holds up all roles behind it and none before it. */
  lemma ServedIff(m: Message, ordered: seq<string>, acts: seq<Action>, worlds: seq<World>, e: nat, j: nat)
    requires AtMostOneEventPerRole(m, ordered) && IsRun(m, acts, worlds) && NoTimeOut(acts)
    requires Shape(m, worlds[|acts|]) && Stuck(m, worlds[|acts|])
    requires e < |m| && j < |ordered| && ordered[j] == m[e].role
    ensures HasExited(worlds[|acts|].phases[e]) <==> EarlierPresent(m, ordered, j)
  {
    var w := worlds[|acts|];
    OrderHolds(m, ordered, acts, worlds, |acts|);
    if EarlierPresent(m, ordered, j) {
      if !HasExited(w.phases[e]) {
        forall d: nat | d < |w.phases|
          ensures !w.phases[d].Pending?
        {
          StuckPhases(m, w, d);
        }
        var d := NextToDeliver(m, ordered, w, e, j);
        StuckPhases(m, w, d);
      }
    } else if HasExited(w.phases[e]) {
      DeliveredMeansPresent(m, ordered, w, e, j);
    }
  }

  lemma DeliveredMeansPresent(m: Message, ordered: seq<string>, w: World, e: nat, j: nat)
    requires Shape(m, w) && InOrder(m, ordered, w)
    requires e < |m| && j < |ordered| && ordered[j] == m[e].role
    requires !w.phases[e].Pending? && !w.phases[e].Waiting?
    ensures EarlierPresent(m, ordered, j)
  {
    hide AtLongestPrefix, Lists;
    assert EarlierCompleted(ordered, w.states[w.phases[e].s], m[e].role);
  }

  /** Any timeout-free run can be continued until nothing is left but timeouts. */
  lemma {:induction false} RunOut(m: Message, acts: seq<Action>, worlds: seq<World>) returns (acts': seq<Action>, worlds': seq<World>)
    requires IsRun(m, acts, worlds) && NoTimeOut(acts)
    ensures IsRun(m, acts', worlds') && NoTimeOut(acts')
    ensures Shape(m, worlds'[|acts'|]) && Stuck(m, worlds'[|acts'|])
    decreases TotalRank(worlds[|acts|].phases)
  {
    hide AtLongestPrefix, Next, Enabled, Shape, TotalRank;
    var w := worlds[|acts|];
    NextIndexAlwaysLongestPrefix(m, acts, worlds, |acts|);
    if Stuck(m, w) {
      acts', worlds' := acts, worlds;
    } else {
      var a :| Enabled(m, w, a) && !a.TimeOut?;
      NextLowersRank(m, w, a);
      acts', worlds' := RunOut(m, acts + [a], worlds + [Next(m, w, a)]);
    }
  }

  /** Whoever has exited was delivering before. */
  lemma {:induction false} WasDelivering(m: Message, acts: seq<Action>, worlds: seq<World>, i: nat, e: nat) returns (k: nat)
    requires IsRun(m, acts, worlds) && i < |worlds| && e < |m|
    requires |worlds[i].phases| == |m| && HasExited(worlds[i].phases[e])
    ensures k < |worlds| && |worlds[k].phases| == |m| && worlds[k].phases[e].Delivering?
  {
    hide AtLongestPrefix, Roles, Lists, PrefixFrom, Finished;
    var w, a := worlds[i - 1], acts[i - 1];
    if w.phases[e].Delivering? {
      k := i - 1;
    } else {
      k := WasDelivering(m, acts, worlds, i - 1, e);
    }
  }

  /** In this run, at this point, event e is delivering, and nobody has timed out. */
  ghost predicate DeliversAt(m: Message, acts: seq<Action>, worlds: seq<World>, i: int, e: nat) {
    IsRun(m, acts, worlds) && NoTimeOut(acts) && 0 <= i < |worlds| && e < |worlds[i].phases| && worlds[i].phases[e].Delivering?
  }

  /** An event can deliver without any timeout if and only if every role listed before its own has an
      event. */
  lemma DeliversIff(m: Message, ordered: seq<string>, e: nat, j: nat)
    requires AtMostOneEventPerRole(m, ordered) && e < |m| && j < |ordered| && ordered[j] == m[e].role
    ensures EarlierPresent(m, ordered, j) <==> exists acts, worlds, i :: DeliversAt(m, acts, worlds, i, e)
  {
    hide AtMostOneEventPerRole, EarlierPresent, Shape, Enabled, Next, Bookkeeping, InOrder, Stuck;
    if EarlierPresent(m, ordered, j) {
      var acts, worlds := RunOut(m, [], [InitialWorld(m)]);
      ServedIff(m, ordered, acts, worlds, e, j);
      NextIndexAlwaysLongestPrefix(m, acts, worlds, |acts|);
      PhasesMatch(m, worlds[|acts|]);
      var i := WasDelivering(m, acts, worlds, |acts|, e);
      assert DeliversAt(m, acts, worlds, i, e);
    } else if acts, worlds, i :| DeliversAt(m, acts, worlds, i, e) {
      OrderHolds(m, ordered, acts, worlds, i);
      DeliveredMeansPresent(m, ordered, worlds[i], e, j);
    }
  }

  lemma PhasesMatch(m: Message, w: World)
    requires Shape(m, w)
    ensures |w.phases| == |m|
  {
  }

  // ----- lists that disagree -----

  /** The position of a role in a list, its length if it is not there. */
  function FirstAt(list: seq<string>, role: string): (i: nat)
    ensures i <= |list|
    ensures i < |list| ==> list[i] == role
    ensures forall k :: 0 <= k < i ==> list[k] != role
  {
    if list == [] || list[0] == role then 0 else 1 + FirstAt(list[1..], role)
  }

  /** Everything before the role, in the whole list if it is not there, has an event. */
  predicate Servable(m: Message, list: seq<string>, role: string) {
    EarlierPresent(m, list, FirstAt(list, role))
  }

  ghost predicate ServableByAny(m: Message, role: string) {
    exists list <- Lists(m) :: Servable(m, list, role)
  }

  lemma ReadyMeansServable(m: Message, s: OrderState, role: string)
    requires AtLongestPrefix(s) && Ready(s, role) && s.completedRoles <= Roles(m)
    ensures Servable(m, s.orderedRoles, role)
  {
    hide Roles;
    var first := FirstAt(s.orderedRoles, role);
    assert first <= s.nextIndex;
  }

  /** With any lists whatever, and whoever else times out: an event that does not time out itself
      delivers only if some event's list has every role before its own filled. */
  lemma {:induction false} MissingRoleBlocks(m: Message, acts: seq<Action>, worlds: seq<World>, i: nat, e: nat)
    requires IsRun(m, acts, worlds) && i < |worlds| && e < |m|
    requires TimeOut(e) !in acts[..i]
    ensures Shape(m, worlds[i])
    ensures worlds[i].phases[e].Pending? || worlds[i].phases[e].Waiting? || ServableByAny(m, m[e].role)
  {
    hide AtLongestPrefix, PrefixFrom, Finished, Servable, Roles, Lists, Ready;
    NextIndexAlwaysLongestPrefix(m, acts, worlds, i);
    if i > 0 {
      var w, a := worlds[i - 1], acts[i - 1];
      assert acts[..i][..i - 1] == acts[..i - 1] && acts[..i][i - 1] == a;
      MissingRoleBlocks(m, acts, worlds, i - 1, e);
      if w.phases[e].Waiting? && a == Start(e) {
        var s := w.states[w.phases[e].s];
        ReadyMeansServable(m, s, m[e].role);
        assert s.orderedRoles in Lists(m) && Servable(m, s.orderedRoles, m[e].role);
      }
    }
  }

  // ----- free text -----

  const PLACEHOLDER := [("runtime", "runtime")]

  /** A free-text message to a group that mentions no bot keeps the placeholder role `runtime`, which no
      bot has; elsewhere the placeholder is resolved. Whichever bots answer such a message, the secretary,
      sorting after the placeholder, never answers before its own timeout. */
  lemma PlaceholderBlocksSecretary(roles: seq<string>, acts: seq<Action>, worlds: seq<World>, i: nat, e: nat)
    requires forall r <- roles :: RoleOrder.NormalizeRole(r) == r && r != "" && r != "runtime"
    requires e < |roles| && roles[e] == "secretary"
    requires IsRun(Computed(PLACEHOLDER, roles), acts, worlds) && i < |worlds| && TimeOut(e) !in acts[..i]
    ensures |worlds[i].phases| == |roles| && (worlds[i].phases[e].Pending? || worlds[i].phases[e].Waiting?)
  {
    hide RoleOrder.OrderedRecipientRoles, RoleOrder.NormalizeRole, IsRun, Strip, Servable;
    var m := Computed(PLACEHOLDER, roles);
    ComputedEvents(PLACEHOLDER, roles);
    MissingRoleBlocks(m, acts, worlds, i, e);
    PhasesMatch(m, worlds[i]);
    hide Shape;
    forall f | f in m
      ensures !Servable(m, f.ordered, "secretary")
    {
      PlaceholderComesFirst(f.role);
      NotServable(m, f.ordered, "secretary", "runtime");
    }
  }

  lemma ComputedEvents(recipients: seq<(string, string)>, roles: seq<string>)
    ensures forall f <- Computed(recipients, roles) ::
      f.role in roles && f.ordered == RoleOrder.OrderedRecipientRoles(recipients, f.role)
    ensures Roles(Computed(recipients, roles)) <= RoleOrder.Elements(roles)
  {
    hide RoleOrder.OrderedRecipientRoles;
  }

  lemma NotServable(m: Message, list: seq<string>, role: string, missing: string)
    requires missing !in Roles(m) && exists k :: 0 <= k < FirstAt(list, role) && list[k] == missing
    ensures !Servable(m, list, role)
  {
    hide FirstAt, Roles;
  }

  /** In every list a bot computes for free text the placeholder stands before the secretary, or the
      secretary is not in it. */
  lemma PlaceholderComesFirst(role: string)
    requires RoleOrder.NormalizeRole(role) == role && role != ""
    ensures var ordered := RoleOrder.OrderedRecipientRoles(PLACEHOLDER, role);
      exists k :: 0 <= k < FirstAt(ordered, "secretary") && ordered[k] == "runtime"
  {
    hide RoleOrder.OrderedRecipientRoles;
    var ordered := RoleOrder.OrderedRecipientRoles(PLACEHOLDER, role);
    PlaceholderMembers(role);
    RoleOrder.OrderedRolesCorrect(PLACEHOLDER, role);
    hide RoleOrder.NormalizeRole, Strip;
    assert "runtime" in RoleOrder.Elements(ordered);
    var k :| 0 <= k < |ordered| && ordered[k] == "runtime";
    var first := FirstAt(ordered, "secretary");
    if first < |ordered| {
      RuntimeBeforeSecretary();
      RoleOrder.BeforeOrder("runtime", "secretary", "secretary");
      hide RoleOrder.Before;
      assert k != first;
    }
  }

  lemma PlaceholderMembers(role: string)
    ensures "runtime" in RoleOrder.AddressedRoles(PLACEHOLDER, role)
  {
    hide Strip;
    RoleOrder.PlainWord("runtime");
    StripOfTrimmed("runtime");
    hide RoleOrder.NormalizeRole;
    assert ("runtime", "runtime") in PLACEHOLDER;
  }

  lemma RuntimeBeforeSecretary()
    ensures RoleOrder.Before("runtime", "secretary")
  {
    hide *;
    RoleOrder.PlainWord("runtime");
    RoleOrder.PlainWord("secretary");
    RoleOrder.StrLessByFirst("runtime", "secretary");
    assert |"runtime"| == 7 && |"secretary"| == 9 && "runtime"[0] != "auditor"[0];
    assert |"administrator"| == 13 && |"ceo"| == 3 && |"cwo"| == 3 && |"project_manager"| == 15 && |"runtime_agent"| == 13;
    assert |"auditor"| == 7;
    RoleOrder.UnrankedByName("runtime", "secretary");
  }

  /** And when the secretary alone answers such a message, its map entry is never removed. */
  lemma PlaceholderKeepsEntry(acts: seq<Action>, worlds: seq<World>, i: nat)
    requires IsRun(Computed(PLACEHOLDER, ["secretary"]), acts, worlds) && i < |worlds|
    ensures |worlds[i].states| > 0 ==> worlds[i].entry != None
  {
    hide *;
    var m, ordered := Computed(PLACEHOLDER, ["secretary"]), RoleOrder.OrderedRecipientRoles(PLACEHOLDER, "secretary");
    SecretaryAlone();
    EntryGoesIff(m, ordered, acts, worlds, i);
  }

  lemma SecretaryAlone()
    ensures var m, ordered := Computed(PLACEHOLDER, ["secretary"]), RoleOrder.OrderedRecipientRoles(PLACEHOLDER, "secretary");
      AtMostOneEventPerRole(m, ordered) && !Complete(m, ordered)
  {
    hide RoleOrder.OrderedRecipientRoles, RoleOrder.Sorted, RoleOrder.NormalizeRole, Strip, RoleOrder.AddressedRoles,
         RoleOrder.NamedRoles, RoleOrder.Before;
    var m, ordered := Computed(PLACEHOLDER, ["secretary"]), RoleOrder.OrderedRecipientRoles(PLACEHOLDER, "secretary");
    RoleOrder.OrderedRolesCorrect(PLACEHOLDER, "secretary");
    forall i: nat, j: nat | i < j < |ordered|
      ensures ordered[i] != ordered[j]
    {
      RoleOrder.SortedDistinct(ordered, i, j);
    }
    PlaceholderMembers("secretary");
    RoleOrder.PlainWord("secretary");
    StripOfWord("secretary");
    OwnRoleIsAddressed(PLACEHOLDER, "secretary");
    assert "runtime" in RoleOrder.Elements(ordered) && "secretary" in RoleOrder.Elements(ordered);
    ComputedEvents(PLACEHOLDER, ["secretary"]);
    assert "runtime"[0] != "secretary"[0];
  }

  lemma OwnRoleIsAddressed(recipients: seq<(string, string)>, role: string)
    requires RoleOrder.NormalizeRole(role) == role && Strip(role) != ""
    ensures role in RoleOrder.AddressedRoles(recipients, role)
  {
    hide Lower, Strip;
  }
}
