/** The canonical order in which role bots answer one message
    (`_role_priority` and `_ordered_recipient_roles` in apps/discord_bot_worker.py). */
module RoleOrder {
  import opened PyText

  /** Python's `<` on strings: lexicographic by code point. */
  predicate StrLess(a: string, b: string) {
    b != [] && (a == [] || a[0] < b[0] || (a[0] == b[0] && StrLess(a[1..], b[1..])))
  }

  function NormalizeRole(role: string): string {
    Lower(Strip(role))
  }

  function RolePriority(role: string): nat {
    var name := NormalizeRole(role);
    if name == "administrator" then 0
    else if name == "auditor" then 1
    else if name == "ceo" then 2
    else if name == "cwo" then 3
    else if name == "project_manager" then 4
    else if name == "runtime_agent" then 5
    else 50
  }

  /** The sort key `(_role_priority(item), item)`. */
  predicate Before(a: string, b: string) {
    || RolePriority(a) < RolePriority(b)
    || (RolePriority(a) == RolePriority(b) && StrLess(a, b))
  }

  lemma {:induction false} StrLessTotal(a: string, b: string)
    ensures a == b || StrLess(a, b) || StrLess(b, a)
    ensures !(StrLess(a, b) && StrLess(b, a)) && !StrLess(a, a)
    decreases |a|
  {
    if a != [] && b != [] && a[0] == b[0] {
      StrLessTotal(a[1..], b[1..]);
      assert a[1..] == b[1..] ==> a == [a[0]] + a[1..] == [b[0]] + b[1..] == b;
    }
    if a != [] {
      StrLessTotal(a[1..], a[1..]);
    }
  }

  lemma {:induction false} StrLessTransitive(a: string, b: string, c: string)
    requires StrLess(a, b) && StrLess(b, c)
    ensures StrLess(a, c)
  {
    if a != [] && a[0] == b[0] == c[0] {
      StrLessTransitive(a[1..], b[1..], c[1..]);
    }
  }

  lemma BeforeOrder(a: string, b: string, c: string)
    ensures a == b || Before(a, b) || Before(b, a)
    ensures !(Before(a, b) && Before(b, a)) && !Before(a, a)
    ensures Before(a, b) && Before(b, c) ==> Before(a, c)
  {
    hide StrLess, RolePriority;
    StrLessTotal(a, b);
    StrLessTotal(a, a);
    if StrLess(a, b) && StrLess(b, c) {
      StrLessTransitive(a, b, c);
    }
  }

  ghost predicate Sorted(roles: seq<string>) {
    forall i, j :: 0 <= i < j < |roles| ==> Before(roles[i], roles[j])
  }

  function Elements(roles: seq<string>): set<string> {
    set r | r in roles
  }

  /** One insertion of the sort; a role already present is not repeated. */
  function Insert(roles: seq<string>, role: string): seq<string> {
    if roles == [] then [role]
    else if roles[0] == role then roles
    else if Before(role, roles[0]) then [role] + roles
    else [roles[0]] + Insert(roles[1..], role)
  }

  lemma {:induction false} InsertSorted(roles: seq<string>, role: string)
    requires Sorted(roles)
    ensures Sorted(Insert(roles, role))
    ensures forall r :: r in Insert(roles, role) <==> r in roles || r == role
  {
    hide Before;
    if roles != [] {
      var head, tail := roles[0], roles[1..];
      assert roles == [head] + tail;
      BeforeOrder(role, head, head);
      if Before(role, head) {
        forall j | 0 <= j < |roles| ensures Before(role, roles[j]) {
          BeforeOrder(role, head, roles[j]);
        }
      } else if role != head {
        InsertSorted(tail, role);
        var rest := Insert(tail, role);
        forall j | 0 <= j < |rest| ensures Before(head, rest[j]) {
          assert rest[j] in rest;
        }
      }
    }
  }

  /** `sorted(set, key=...)` over the members of a list. */
  function SortRoles(roles: seq<string>): seq<string> {
    if roles == [] then [] else Insert(SortRoles(roles[1..]), roles[0])
  }

  lemma {:induction false} SortRolesCorrect(roles: seq<string>)
    ensures Sorted(SortRoles(roles))
    ensures forall r :: r in SortRoles(roles) <==> r in roles
  {
    if roles != [] {
      SortRolesCorrect(roles[1..]);
      InsertSorted(SortRoles(roles[1..]), roles[0]);
    }
  }

  /** The normalised, non-blank roles collected before sorting. */
  function CollectRoles(recipients: seq<(string, string)>, fallback: string): seq<string> {
    if recipients == [] then
      if Strip(fallback) == [] then [] else [NormalizeRole(fallback)]
    else
      (if Strip(recipients[0].1) == [] then [] else [NormalizeRole(recipients[0].1)])
      + CollectRoles(recipients[1..], fallback)
  }

  /** `_ordered_recipient_roles`. A blank fallback with no other role yields the runtime agent. */
  function OrderedRecipientRoles(recipients: seq<(string, string)>, fallback: string): (ordered: seq<string>)
  {
    var roles := CollectRoles(recipients, fallback);
    if roles == [] then ["runtime_agent"] else SortRoles(roles)
  }

  /** The non-blank roles a message names, plus the bot's own role unless blank; case and outer whitespace
      do not matter. */
  function NamedRoles(recipients: seq<(string, string)>, fallback: string): set<string> {
    (set r | r in recipients && Strip(r.1) != "" :: Lower(Strip(r.1)))
    + (if Strip(fallback) == "" then {} else {Lower(Strip(fallback))})
  }

  /** The set of roles a message addresses, from the point of view of one bot. */
  function AddressedRoles(recipients: seq<(string, string)>, fallback: string): set<string> {
    var named := NamedRoles(recipients, fallback);
    if named == {} then {"runtime_agent"} else named
  }

  lemma {:induction false} CollectRolesMembers(recipients: seq<(string, string)>, fallback: string)
    ensures forall r :: r in CollectRoles(recipients, fallback) <==> r in NamedRoles(recipients, fallback)
  {
    hide Strip, Lower;
    if recipients != [] {
      CollectRolesMembers(recipients[1..], fallback);
      assert recipients == [recipients[0]] + recipients[1..];
    }
  }

  /** The result lists exactly the addressed roles, each once, in priority order. */
  lemma OrderedRolesCorrect(recipients: seq<(string, string)>, fallback: string)
    ensures OrderedRecipientRoles(recipients, fallback) != []
    ensures Sorted(OrderedRecipientRoles(recipients, fallback))
    ensures Elements(OrderedRecipientRoles(recipients, fallback)) == AddressedRoles(recipients, fallback)
    ensures NamedRoles(recipients, fallback) == {} ==> OrderedRecipientRoles(recipients, fallback) == ["runtime_agent"]
    ensures NamedRoles(recipients, fallback) != {} ==>
      Elements(OrderedRecipientRoles(recipients, fallback)) == NamedRoles(recipients, fallback)
  {
    hide NamedRoles, CollectRoles, SortRoles, Before;
    var roles := CollectRoles(recipients, fallback);
    CollectRolesMembers(recipients, fallback);
    SortRolesCorrect(roles);
    var named := NamedRoles(recipients, fallback);
    if roles == [] {
      assert named == {};
      assert Elements(["runtime_agent"]) == {"runtime_agent"};
    } else {
      assert roles[0] in roles && roles[0] in named && roles[0] in SortRoles(roles);
      assert Elements(SortRoles(roles)) == named;
    }
  }

  /** A strictly sorted list is determined by its elements. */
  lemma {:induction false} SortedUnique(a: seq<string>, b: seq<string>)
    requires Sorted(a) && Sorted(b)
    requires forall r :: r in a <==> r in b
    ensures a == b
  {
    hide Before;
    assert a != [] ==> a[0] in a;
    assert b != [] ==> b[0] in b;
    if a != [] {
      assert a[0] in b;
      assert b[0] in a;
      BeforeOrder(a[0], b[0], b[0]);
      assert a[0] == b[0];
      forall r ensures r in a[1..] <==> r in b[1..] {
        BeforeOrder(a[0], a[0], a[0]);
        if r in a[1..] {
          assert Before(a[0], r) && r in a && r in b;
        }
        if r in b[1..] {
          assert Before(b[0], r) && r in b && r in a;
        }
      }
      SortedUnique(a[1..], b[1..]);
      assert a == [a[0]] + a[1..] && b == [b[0]] + b[1..];
    }
  }

  /** Two events compute the same order exactly when they address the same set of roles: the order
      and repetition of recipients never matter, but a bot outside the recipients does. */
  lemma OrderDependsOnlyOnRoleSet(
      recipients1: seq<(string, string)>, fallback1: string,
      recipients2: seq<(string, string)>, fallback2: string)
    ensures OrderedRecipientRoles(recipients1, fallback1) == OrderedRecipientRoles(recipients2, fallback2)
       <==> AddressedRoles(recipients1, fallback1) == AddressedRoles(recipients2, fallback2)
  {
    hide OrderedRecipientRoles, AddressedRoles, Before;
    OrderedRolesCorrect(recipients1, fallback1);
    OrderedRolesCorrect(recipients2, fallback2);
    var a := OrderedRecipientRoles(recipients1, fallback1);
    var b := OrderedRecipientRoles(recipients2, fallback2);
    if Elements(a) == Elements(b) {
      forall r ensures r in a <==> r in b {
        assert r in Elements(a) <==> r in Elements(b);
      }
      SortedUnique(a, b);
    }
  }

  /** No role appears twice. */
  lemma SortedDistinct(roles: seq<string>, i: nat, j: nat)
    requires Sorted(roles) && i < j < |roles|
    ensures roles[i] != roles[j]
  {
    hide Before;
    BeforeOrder(roles[i], roles[j], roles[j]);
  }

  /** The six ranked roles come first, in this order, whatever other roles a message names. */
  lemma RankedRolesFirst(other: string)
    requires NormalizeRole(other) == other
    requires other !in {"administrator", "auditor", "ceo", "cwo", "project_manager", "runtime_agent"}
    ensures Sorted(["administrator", "auditor", "ceo", "cwo", "project_manager", "runtime_agent", other])
  {
    hide NormalizeRole, StrLess;
    RankedRoles();
    assert RolePriority(other) == 50;
    hide RolePriority;
  }

  lemma StrLessByFirst(a: string, b: string)
    requires a != [] && b != [] && a[0] < b[0]
    ensures StrLess(a, b)
  {
  }

  /** Roles without a rank are ordered by name. */
  lemma UnrankedByName(a: string, b: string)
    requires NormalizeRole(a) == a && NormalizeRole(b) == b && StrLess(a, b)
    requires a !in {"administrator", "auditor", "ceo", "cwo", "project_manager", "runtime_agent"}
    requires b !in {"administrator", "auditor", "ceo", "cwo", "project_manager", "runtime_agent"}
    ensures Before(a, b)
  {
    hide NormalizeRole, StrLess;
    assert RolePriority(a) == 50 && RolePriority(b) == 50;
  }

  lemma RankedRoles()
    ensures RolePriority("administrator") == 0 && RolePriority("auditor") == 1 && RolePriority("ceo") == 2
    ensures RolePriority("cwo") == 3 && RolePriority("project_manager") == 4
    ensures RolePriority("runtime_agent") == 5
  {
    hide NormalizeRole;
    PlainWord("administrator");
    PlainWord("auditor");
    PlainWord("ceo");
    PlainWord("cwo");
    PlainWord("project_manager");
    PlainWord("runtime_agent");
  }

  /** Lower-case identifiers are already normalised. */
  lemma PlainWord(role: string)
    requires forall i :: 0 <= i < |role| ==> 'a' <= role[i] <= 'z' || role[i] == '_'
    ensures NormalizeRole(role) == role
  {
    hide Strip, Lower;
    LowerOfWord(role);
    assert Trimmed(role);
    hide Trimmed, IsSpace;
    StripOfTrimmed(role);
  }

  lemma {:induction false} LowerOfWord(role: string)
    requires forall i :: 0 <= i < |role| ==> 'a' <= role[i] <= 'z' || role[i] == '_'
    ensures Lower(role) == role
  {
    if role != [] {
      LowerOfWord(role[1..]);
    }
  }
}
