/** Keys that are several fields joined by colons, as the delivery key and the stream key are: when do
    equal keys mean equal fields? */
module JoinedKeys {

  function Joined(fields: seq<string>): string
    requires fields != []
  {
    if |fields| == 1 then fields[0] else fields[0] + ":" + Joined(fields[1..])
  }

  /** Only the fields at these positions may contain a colon. */
  predicate ColonsOnlyIn(fields: seq<string>, free: set<nat>) {
    forall k: nat | k < |fields| && k !in free :: ':' !in fields[k]
  }

  lemma {:induction false} JoinedLast(fields: seq<string>)
    requires |fields| >= 2
    ensures Joined(fields) == Joined(fields[..|fields| - 1]) + ":" + fields[|fields| - 1]
  {
    if |fields| > 2 {
      JoinedLast(fields[1..]);
      assert fields[..|fields| - 1][1..] == fields[1..][..|fields| - 2];
    }
  }

  lemma SameFirst(x: string, s: string, y: string, t: string)
    requires ':' !in x && ':' !in y && x + ":" + s == y + ":" + t
    ensures x == y && s == t
  {
    var whole := x + ":" + s;
    assert whole[|x|] == ':' && whole[|y|] == ':';
    assert forall k | 0 <= k < |x| :: whole[k] == x[k];
    assert forall k | 0 <= k < |y| :: whole[k] == y[k];
    assert |x| == |y|;
    assert x == whole[..|x|] && y == whole[..|y|] && s == whole[|x| + 1..] && t == whole[|y| + 1..];
  }

  lemma SameLast(s: string, x: string, t: string, y: string)
    requires ':' !in x && ':' !in y && s + ":" + x == t + ":" + y
    ensures x == y && s == t
  {
    var whole := s + ":" + x;
    assert whole[|s|] == ':' && whole[|t|] == ':';
    assert forall k | 0 <= k < |x| :: whole[|s| + 1 + k] == x[k];
    assert forall k | 0 <= k < |y| :: whole[|t| + 1 + k] == y[k];
    assert |s| == |t|;
    assert s == whole[..|s|] && t == whole[..|t|] && x == whole[|s| + 1..] && y == whole[|t| + 1..];
  }

  /** With one field at most that may contain colons, the fields before it can be read off from the front
      and those behind it from the back. */
  lemma {:induction false} JoinedTellsFields(a: seq<string>, b: seq<string>, p: nat)
    requires |a| == |b| && p < |a| && Joined(a) == Joined(b)
    requires ColonsOnlyIn(a, {p}) && ColonsOnlyIn(b, {p})
    ensures a == b
    decreases |a|
  {
    var last := |a| - 1;
    if p > 0 {
      SameFirst(a[0], Joined(a[1..]), b[0], Joined(b[1..]));
      JoinedTellsFields(a[1..], b[1..], p - 1);
    } else if last > 0 {
      JoinedLast(a);
      JoinedLast(b);
      SameLast(Joined(a[..last]), a[last], Joined(b[..last]), b[last]);
      JoinedTellsFields(a[..last], b[..last], 0);
    }
  }

  /** A difference in one field alone always shows, whatever the fields contain. */
  lemma {:induction false} OneFieldShows(a: seq<string>, b: seq<string>, p: nat)
    requires |a| == |b| && p < |a| && Joined(a) == Joined(b)
    requires forall k | 0 <= k < |a| && k != p :: a[k] == b[k]
    ensures a[p] == b[p]
    decreases |a|
  {
    if p > 0 {
      var front := a[0] + ":";
      assert (front + Joined(a[1..]))[|front|..] == (front + Joined(b[1..]))[|front|..];
      OneFieldShows(a[1..], b[1..], p - 1);
    } else if |a| > 1 {
      assert a[1..] == b[1..];
      assert |a[0]| == |b[0]|;
      assert (a[0] + ":" + Joined(a[1..]))[..|a[0]|] == a[0] && (b[0] + ":" + Joined(b[1..]))[..|b[0]|] == b[0];
    }
  }

  // ----- and when they do not -----

  function Same(n: nat): seq<string> {
    seq(n, _ => "x")
  }

  /** n fields, the i-th of which contains a colon. */
  function Doubled(n: nat, i: nat): seq<string>
    requires i < n
  {
    Same(n)[i := "x:x"]
  }

  lemma {:induction false} DoubledLooksLonger(n: nat, i: nat)
    requires i < n
    ensures Joined(Doubled(n, i)) == Joined(Same(n + 1))
  {
    assert Same(n + 1)[1..] == Same(n);
    if i > 0 {
      DoubledLooksLonger(n - 1, i - 1);
      assert Doubled(n, i)[1..] == Doubled(n - 1, i - 1);
    } else if n == 1 {
      assert Joined(Same(2)) == "x" + ":" + "x" == "x:x";
    } else {
      assert Doubled(n, 0)[1..] == Same(n - 1) == Same(n)[1..];
      assert "x:x" + ":" + Joined(Same(n - 1)) == "x" + ":" + ("x" + ":" + Joined(Same(n - 1)));
    }
  }

  /** A key that two fields may bring colons into stands for more than one list of fields. */
  lemma TwoFreeFieldsCollide(n: nat, i: nat, j: nat)
    requires i < n && j < n && i != j
    ensures Joined(Doubled(n, i)) == Joined(Doubled(n, j)) && Doubled(n, i)[i] != Doubled(n, j)[i]
    ensures ColonsOnlyIn(Doubled(n, i), {i}) && ColonsOnlyIn(Doubled(n, j), {j})
  {
    DoubledLooksLonger(n, i);
    DoubledLooksLonger(n, j);
    hide Joined;
  }
}
