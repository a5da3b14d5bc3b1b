/** Ordered delivery of several role bots' answers to one Discord message
    (`_enter_response_order` and `_exit_response_order` in apps/discord_bot_worker.py). */
module ResponseOrder {
  import opened PyText

  /** The contents of one `_RoleResponseOrderingState`. */
  datatype OrderState = OrderState(orderedRoles: seq<string>, completedRoles: set<string>, nextIndex: nat)

  function InitialState(ordered: seq<string>): OrderState {
    OrderState(ordered, {}, 0)
  }

  /** The end of the stretch of completed roles that starts at `i`. */
  function PrefixFrom(ordered: seq<string>, completed: set<string>, i: nat): (r: nat)
    requires i <= |ordered|
    ensures i <= r <= |ordered|
    ensures forall k :: i <= k < r ==> ordered[k] in completed
    ensures r < |ordered| ==> ordered[r] !in completed
    decreases |ordered| - i
  {
    if i < |ordered| && ordered[i] in completed then PrefixFrom(ordered, completed, i + 1) else i
  }

  /** `next_index` is exactly the length of the longest completed prefix. */
  ghost predicate AtLongestPrefix(s: OrderState) {
    && s.nextIndex <= |s.orderedRoles|
    && (forall k :: 0 <= k < s.nextIndex ==> s.orderedRoles[k] in s.completedRoles)
    && (s.nextIndex < |s.orderedRoles| ==> s.orderedRoles[s.nextIndex] !in s.completedRoles)
  }

  /** The negated wait guard: this role may deliver now. */
  predicate Ready(s: OrderState, role: string) {
    s.nextIndex >= |s.orderedRoles| || s.orderedRoles[s.nextIndex] == role
  }

  function AfterExit(s: OrderState, role: string): OrderState
    requires s.nextIndex <= |s.orderedRoles|
  {
    var completed := s.completedRoles + {role};
    OrderState(s.orderedRoles, completed, PrefixFrom(s.orderedRoles, completed, s.nextIndex))
  }

  predicate Finished(s: OrderState) {
    |s.completedRoles| >= |s.orderedRoles|
  }

  /** The mutable record shared by the coroutines of one message. */
  class RoleResponseOrderingState {
    const orderedRoles: seq<string>
    var completedRoles: set<string>
    var nextIndex: nat

    constructor (ordered: seq<string>)
      ensures Value() == InitialState(ordered) && AtLongestPrefix(Value())
    {
      orderedRoles := ordered;
      completedRoles := {};
      nextIndex := 0;
    }

    function Value(): OrderState
      reads this
    {
      OrderState(orderedRoles, completedRoles, nextIndex)
    }

    /** The part of `_exit_response_order` that runs under the condition. */
    method Exit(role: string) returns (finished: bool)
      requires nextIndex <= |orderedRoles|
      modifies this
      ensures Value() == AfterExit(old(Value()), role)
      ensures old(AtLongestPrefix(Value())) ==> AtLongestPrefix(Value())
      ensures finished == Finished(Value())
    {
      completedRoles := completedRoles + {role};
      while nextIndex < |orderedRoles| && orderedRoles[nextIndex] in completedRoles
        invariant old(nextIndex) <= nextIndex <= |orderedRoles|
        invariant completedRoles == old(completedRoles) + {role}
        invariant forall k :: old(nextIndex) <= k < nextIndex ==> orderedRoles[k] in completedRoles
      {
        nextIndex := nextIndex + 1;
      }
      PrefixUnique(orderedRoles, completedRoles, old(nextIndex), nextIndex);
      finished := |completedRoles| >= |orderedRoles|;
    }
  }

  lemma PrefixUnique(ordered: seq<string>, completed: set<string>, i: nat, r: nat)
    requires i <= r <= |ordered|
    requires forall k :: i <= k < r ==> ordered[k] in completed
    requires r < |ordered| ==> ordered[r] !in completed
    ensures r == PrefixFrom(ordered, completed, i)
  {
  }

  type MessageKey = (string, string, string)

  /** The fan-in's map from source message to ordering state. */
  class DiscordIngressFanIn {
    var orderingByMessageKey: map<MessageKey, RoleResponseOrderingState>

    constructor ()
      ensures orderingByMessageKey == map[]
    {
      orderingByMessageKey := map[];
    }

    /** The look-up or creation done by `_enter_response_order` under the fan-in lock. */
    method EnterLookup(key: MessageKey, ordered: seq<string>) returns (state: RoleResponseOrderingState)
      modifies this
      ensures key in old(orderingByMessageKey) ==>
        state == old(orderingByMessageKey)[key] && orderingByMessageKey == old(orderingByMessageKey)
      ensures key !in old(orderingByMessageKey) ==>
        && fresh(state) && state.Value() == InitialState(ordered)
        && orderingByMessageKey == old(orderingByMessageKey)[key := state]
    {
      if key in orderingByMessageKey {
        return orderingByMessageKey[key];
      }
      state := new RoleResponseOrderingState(ordered);
      orderingByMessageKey := orderingByMessageKey[key := state];
    }

    /** The clean-up tail of `_exit_response_order`: only the very same state is removed. */
    method CleanUp(key: MessageKey, state: RoleResponseOrderingState, finished: bool)
      modifies this
      ensures orderingByMessageKey ==
        if finished && key in old(orderingByMessageKey) && old(orderingByMessageKey)[key] == state
        then old(orderingByMessageKey) - {key} else old(orderingByMessageKey)
    {
      if finished {
        if key in orderingByMessageKey && orderingByMessageKey[key] == state {
          orderingByMessageKey := orderingByMessageKey - {key};
        }
      }
    }
  }

  // ---------------------------------------------------------------------------------------------
  // The coroutines of one message as an interleaved step system. Each step is one critical section
  // of the source: nothing is awaited inside it.

  /** One bot's event for the message: its role, and the ordered roles it has computed. */
  datatype Event = Event(role: string, ordered: seq<string>)

  type Message = seq<Event>

  function Roles(m: Message): set<string> {
    set e <- m :: e.role
  }

  function Lists(m: Message): set<seq<string>> {
    set e <- m :: e.ordered
  }

  /** Where one event's coroutine stands; `s` indexes the ordering state it holds. */
  datatype Phase =
    | Pending
    | Waiting(s: nat)
    | Delivering(s: nat)
    | Exited(s: nat, finished: bool)
    | Done(s: nat)

  /** `states` are the ordering states ever created, `entry` the one in the map, if any. */
  datatype World = World(states: seq<OrderState>, entry: Option<nat>, phases: seq<Phase>)

  datatype Action =
    | Arrive(e: nat)
    | Start(e: nat)
    | TimeOut(e: nat)
    | Exit(e: nat)
    | CleanUp(e: nat)

  function InitialWorld(m: Message): World {
    World([], None, seq(|m|, _ => Pending))
  }

  /** Every state's list is that of some event, its completed roles are roles of events, and its index
      is right. */
  ghost predicate Shape(m: Message, w: World) {
    && |w.phases| == |m|
    && (w.entry.Some? ==> w.entry.value < |w.states|)
    && (forall e :: 0 <= e < |w.phases| && !w.phases[e].Pending? ==> w.phases[e].s < |w.states|)
    && (forall g :: 0 <= g < |w.states| ==>
          w.states[g].orderedRoles in Lists(m) && w.states[g].completedRoles <= Roles(m) && AtLongestPrefix(w.states[g]))
  }

  ghost predicate Enabled(m: Message, w: World, a: Action)
    requires Shape(m, w)
  {
    && a.e < |m|
    && match a
       case Arrive(e) => w.phases[e].Pending?
       case Start(e) => w.phases[e].Waiting? && Ready(w.states[w.phases[e].s], m[e].role)
       case TimeOut(e) => w.phases[e].Waiting? && !Ready(w.states[w.phases[e].s], m[e].role)
       case Exit(e) => w.phases[e].Delivering?
       case CleanUp(e) => w.phases[e].Exited?
  }

  /** The first to arrive fixes the list of the state it creates. */
  ghost function Next(m: Message, w: World, a: Action): World
    requires Shape(m, w) && Enabled(m, w, a)
  {
    var e := a.e;
    match a
    case Arrive(_) =>
      if w.entry.Some? then w.(phases := w.phases[e := Waiting(w.entry.value)])
      else World(w.states + [InitialState(m[e].ordered)], Some(|w.states|), w.phases[e := Waiting(|w.states|)])
    case Start(_) => w.(phases := w.phases[e := Delivering(w.phases[e].s)])
    case TimeOut(_) => w.(phases := w.phases[e := Delivering(w.phases[e].s)])
    case Exit(_) =>
      var s := w.phases[e].s;
      var state := AfterExit(w.states[s], m[e].role);
      w.(states := w.states[s := state], phases := w.phases[e := Exited(s, Finished(state))])
    case CleanUp(_) =>
      var last := w.phases[e].finished && w.entry == Some(w.phases[e].s);
      w.(entry := if last then None else w.entry, phases := w.phases[e := Done(w.phases[e].s)])
  }

  lemma NextKeepsShape(m: Message, w: World, a: Action)
    requires Shape(m, w) && Enabled(m, w, a)
    ensures Shape(m, Next(m, w, a))
  {
    assert m[a.e].role in Roles(m) && m[a.e].ordered in Lists(m);
    hide Roles, Lists;
  }

  /** A run is a sequence of enabled actions from the initial world. */
  ghost predicate IsRun(m: Message, acts: seq<Action>, worlds: seq<World>) {
    && |worlds| == |acts| + 1
    && worlds[0] == InitialWorld(m)
    && forall i :: 0 <= i < |acts| ==>
         Shape(m, worlds[i]) && Enabled(m, worlds[i], acts[i]) && worlds[i + 1] == Next(m, worlds[i], acts[i])
  }

  ghost predicate NoTimeOut(acts: seq<Action>) {
    forall k :: 0 <= k < |acts| ==> !acts[k].TimeOut?
  }

  /** In every reachable world, with or without timeouts and whatever lists the events have computed,
      every ordering state's `next_index` is the length of its longest completed prefix. */
  lemma {:induction false} NextIndexAlwaysLongestPrefix(m: Message, acts: seq<Action>, worlds: seq<World>, i: nat)
    requires IsRun(m, acts, worlds) && i < |worlds|
    ensures Shape(m, worlds[i])
  {
    if i > 0 {
      NextIndexAlwaysLongestPrefix(m, acts, worlds, i - 1);
      NextKeepsShape(m, worlds[i - 1], acts[i - 1]);
    }
  }

  /** Event e has exited through state g. */
  predicate Left(w: World, e: int, g: int) {
    0 <= e < |w.phases| && (w.phases[e].Exited? || w.phases[e].Done?) && w.phases[e].s == g
  }

  /** Every state's completed roles are exactly the roles that have exited through it, so that an exit
      reports the end exactly when as many roles have left as the state's list is long. */
  ghost predicate CountsExits(m: Message, w: World)
    requires |w.phases| == |m|
  {
    forall g, r | 0 <= g < |w.states| ::
      r in w.states[g].completedRoles <==> exists e :: Left(w, e, g) && m[e].role == r
  }

  lemma NextCountsExits(m: Message, w: World, a: Action)
    requires Shape(m, w) && Enabled(m, w, a) && CountsExits(m, w)
    ensures |Next(m, w, a).phases| == |m| && CountsExits(m, Next(m, w, a))
  {
    hide AtLongestPrefix, PrefixFrom, Finished, Ready, Roles, Lists;
    var w' := Next(m, w, a);
    forall e, g | 0 <= g < |w'.states|
      ensures Left(w', e, g) <==> Left(w, e, g) || (a.Exit? && a.e == e && w.phases[a.e].s == g)
    {
    }
    forall g, r | 0 <= g < |w'.states|
      ensures r in w'.states[g].completedRoles <==> exists e :: Left(w', e, g) && m[e].role == r
    {
      if a.Exit? && g == w.phases[a.e].s && r == m[a.e].role {
        assert Left(w', a.e, g);
      } else if g < |w.states| {
        assert r in w'.states[g].completedRoles <==> r in w.states[g].completedRoles;
      }
    }
  }

  lemma {:induction false} CompletedAreExited(m: Message, acts: seq<Action>, worlds: seq<World>, i: nat)
    requires IsRun(m, acts, worlds) && i < |worlds|
    ensures |worlds[i].phases| == |m| && CountsExits(m, worlds[i])
  {
    hide Next, Enabled, AtLongestPrefix;
    NextIndexAlwaysLongestPrefix(m, acts, worlds, i);
    if i > 0 {
      CompletedAreExited(m, acts, worlds, i - 1);
      NextCountsExits(m, worlds[i - 1], acts[i - 1]);
    }
  }

  /** The roles that have exited through state g. */
  ghost function RolesThrough(m: Message, w: World, g: int): set<string>
    requires |w.phases| == |m|
  {
    set e | 0 <= e < |m| && Left(w, e, g) :: m[e].role
  }

  /** An exit reports the end exactly when as many roles have exited through its state as the state's
      list is long, whichever roles they are. */
  lemma EndReportedIff(m: Message, acts: seq<Action>, worlds: seq<World>, i: nat, e: nat)
    requires IsRun(m, acts, worlds) && i < |acts| && acts[i] == Exit(e)
    ensures var w := worlds[i + 1];
      && |w.phases| == |m| && e < |m| && w.phases[e].Exited? && w.phases[e].s < |w.states|
      && (w.phases[e].finished <==> |RolesThrough(m, w, w.phases[e].s)| >= |w.states[w.phases[e].s].orderedRoles|)
  {
    CompletedAreExited(m, acts, worlds, i + 1);
    hide AtLongestPrefix, PrefixFrom, Roles, Lists;
    var w := worlds[i + 1];
    var s := w.phases[e].s;
    assert w.states[s].completedRoles == RolesThrough(m, w, s);
  }

  /** Who may start, in any interleaving: a waiting event exactly if its role is the first on the state's
      list that has not exited through the state, or if the whole list has, whoever it is then. */
  lemma StartsIff(m: Message, acts: seq<Action>, worlds: seq<World>, i: nat, e: nat)
    requires IsRun(m, acts, worlds) && i < |worlds| && e < |m| && |worlds[i].phases| == |m| && worlds[i].phases[e].Waiting?
    ensures var w := worlds[i];
      && Shape(m, w)
      && var list, gone := w.states[w.phases[e].s].orderedRoles, RolesThrough(m, w, w.phases[e].s);
      Enabled(m, w, Start(e)) <==>
        || (forall r <- list :: r in gone)
        || exists k: nat :: k < |list| && list[k] == m[e].role && list[k] !in gone && forall j | 0 <= j < k :: list[j] in gone
  {
    NextIndexAlwaysLongestPrefix(m, acts, worlds, i);
    CompletedAreExited(m, acts, worlds, i);
    hide Roles, Lists, PrefixFrom;
    var w := worlds[i];
    var s := w.states[w.phases[e].s];
    assert s.completedRoles == RolesThrough(m, w, w.phases[e].s);
    assert AtLongestPrefix(s);
    if s.nextIndex < |s.orderedRoles| {
      assert s.orderedRoles[s.nextIndex] in s.orderedRoles;
    }
  }

  // ---------------------------------------------------------------------------------------------
  // The objects of the source take the steps of the system.

  /** The world as the fan-in's map and the states created so far for one message. */
  ghost predicate Represents(fanIn: DiscordIngressFanIn, key: MessageKey, objects: seq<RoleResponseOrderingState>, w: World)
    reads fanIn, objects
  {
    && |objects| == |w.states|
    && (forall g, h :: 0 <= g < h < |objects| ==> objects[g] != objects[h])
    && (forall g :: 0 <= g < |objects| ==> objects[g].Value() == w.states[g])
    && (key in fanIn.orderingByMessageKey <==> w.entry.Some?)
    && (w.entry.Some? ==> w.entry.value < |objects| && fanIn.orderingByMessageKey[key] == objects[w.entry.value])
  }

  method ArriveStep(fanIn: DiscordIngressFanIn, key: MessageKey, ordered: seq<string>,
                    ghost objects: seq<RoleResponseOrderingState>, ghost m: Message, ghost w: World, ghost e: nat)
    returns (state: RoleResponseOrderingState, ghost objects': seq<RoleResponseOrderingState>)
    requires Shape(m, w) && Enabled(m, w, Arrive(e)) && m[e].ordered == ordered
    requires Represents(fanIn, key, objects, w)
    modifies fanIn
    ensures Represents(fanIn, key, objects', Next(m, w, Arrive(e)))
    ensures objects <= objects' && Next(m, w, Arrive(e)).phases[e].s < |objects'|
    ensures state == objects'[Next(m, w, Arrive(e)).phases[e].s]
  {
    hide AtLongestPrefix, Roles, Lists;
    state := fanIn.EnterLookup(key, ordered);
    objects' := if w.entry.Some? then objects else objects + [state];
  }

  method ExitStep(state: RoleResponseOrderingState, role: string, ghost fanIn: DiscordIngressFanIn, ghost key: MessageKey,
                  ghost objects: seq<RoleResponseOrderingState>, ghost m: Message, ghost w: World, ghost e: nat)
    returns (finished: bool)
    requires Shape(m, w) && Enabled(m, w, Exit(e)) && m[e].role == role
    requires Represents(fanIn, key, objects, w) && state == objects[w.phases[e].s]
    modifies state
    ensures Represents(fanIn, key, objects, Next(m, w, Exit(e)))
    ensures Next(m, w, Exit(e)).phases[e] == Exited(w.phases[e].s, finished)
  {
    hide Roles, Lists, PrefixFrom, Finished;
    assert AtLongestPrefix(w.states[w.phases[e].s]);
    finished := state.Exit(role);
  }

  method CleanUpStep(fanIn: DiscordIngressFanIn, key: MessageKey, state: RoleResponseOrderingState, finished: bool,
                     ghost objects: seq<RoleResponseOrderingState>, ghost m: Message, ghost w: World, ghost e: nat)
    requires Shape(m, w) && Enabled(m, w, CleanUp(e)) && w.phases[e].finished == finished
    requires Represents(fanIn, key, objects, w) && state == objects[w.phases[e].s]
    modifies fanIn
    ensures Represents(fanIn, key, objects, Next(m, w, CleanUp(e)))
  {
    hide Roles, Lists, AtLongestPrefix;
    fanIn.CleanUp(key, state, finished);
  }
}
