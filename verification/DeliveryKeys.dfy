/** Which requests share a delivery key, and what that means for a run of publish calls
    (communication_gateway/storage/idempotency_store.py, communication_gateway/delivery/publisher.py). */
module DeliveryKeys {
  import opened PyText
  import opened MessageLedger
  import opened Delivery
  import opened Publisher
  import opened PublisherRuns
  import opened JoinedKeys

  predicate Unspecified(projectId: Option<string>) {
    projectId in {None, Some(""), Some("project-unspecified")}
  }

  /** The two requests agree in the k-th of the six parts of a key. */
  predicate SamePart(a: PublishRequest, b: PublishRequest, k: nat) {
    match k
    case 0 => a.dispatch.connector == b.dispatch.connector
    case 1 => a.principalId == b.principalId
    case 2 => a.projectId == b.projectId || (Unspecified(a.projectId) && Unspecified(b.projectId))
    case 3 => a.idempotencyKey == b.idempotencyKey
    case 4 => a.dispatch.messageId == b.dispatch.messageId
    case 5 => a.dispatch.externalMessageId == b.dispatch.externalMessageId
    case _ => true
  }

  predicate SameParts(a: PublishRequest, b: PublishRequest) {
    forall k: nat | k < 6 :: SamePart(a, b, k)
  }

  function Fields(r: PublishRequest): (fields: seq<string>)
    ensures |fields| == 6
  {
    [r.dispatch.connector, r.principalId, ProjectScope(r.projectId), r.idempotencyKey, r.dispatch.messageId,
     r.dispatch.externalMessageId]
  }

  lemma KeyIsJoined(r: PublishRequest)
    ensures DeliveryKey(r) == Joined(Fields(r))
  {
    var f := Fields(r);
    SixJoined(f[0], f[1], f[2], f[3], f[4], f[5]);
    assert f == [f[0], f[1], f[2], f[3], f[4], f[5]];
    hide Joined;
  }

  lemma SixJoined(a: string, b: string, c: string, d: string, e: string, f: string)
    ensures Joined([a, b, c, d, e, f]) == a + ":" + b + ":" + c + ":" + d + ":" + e + ":" + f
  {
    assert [a, b, c, d, e, f][1..] == [b, c, d, e, f] && [b, c, d, e, f][1..] == [c, d, e, f];
    assert [c, d, e, f][1..] == [d, e, f] && [d, e, f][1..] == [e, f] && [e, f][1..] == [f];
    assert Joined([e, f]) == e + ":" + f;
    assert Joined([d, e, f]) == d + ":" + Joined([e, f]);
    assert Joined([c, d, e, f]) == c + ":" + Joined([d, e, f]);
    assert Joined([b, c, d, e, f]) == b + ":" + Joined([c, d, e, f]);
    assert Joined([a, b, c, d, e, f]) == a + ":" + Joined([b, c, d, e, f]);
    hide Joined;
  }

  lemma PartsAreFields(a: PublishRequest, b: PublishRequest)
    ensures forall k: nat | k < 6 :: SamePart(a, b, k) <==> Fields(a)[k] == Fields(b)[k]
  {
  }

  /** Apart from part p the requests agree, or no other part of either contains colons. */
  predicate ToldApartBy(a: PublishRequest, b: PublishRequest, p: nat) {
    || (forall k: nat | k < 6 && k != p :: SamePart(a, b, k))
    || (ColonsOnlyIn(Fields(a), {p}) && ColonsOnlyIn(Fields(b), {p}))
  }

  ghost predicate ToldApart(a: PublishRequest, b: PublishRequest) {
    exists p: nat :: p < 6 && ToldApartBy(a, b, p)
  }

  /** Such requests share a key exactly when connector, principal, project, idempotency key and both
      message ids agree. */
  lemma SameKeyIff(a: PublishRequest, b: PublishRequest)
    requires ToldApart(a, b)
    ensures DeliveryKey(a) == DeliveryKey(b) <==> SameParts(a, b)
  {
    hide Joined, DeliveryKey, Fields, SamePart, ColonsOnlyIn;
    KeyIsJoined(a);
    KeyIsJoined(b);
    PartsAreFields(a, b);
    if SameParts(a, b) {
      assert Fields(a) == Fields(b);
    } else if DeliveryKey(a) == DeliveryKey(b) {
      var p: nat :| p < 6 && ToldApartBy(a, b, p);
      if ColonsOnlyIn(Fields(a), {p}) && ColonsOnlyIn(Fields(b), {p}) {
        JoinedTellsFields(Fields(a), Fields(b), p);
      } else {
        OneFieldShows(Fields(a), Fields(b), p);
      }
    }
  }

  /** A request made of the given parts. */
  function RequestOf(fields: seq<string>): (r: PublishRequest)
    requires |fields| == 6
  {
    PublishRequest(Dispatch("", "", fields[4], fields[5], fields[0], "", "", "", ""), fields[1], fields[3], [], Some(fields[2]))
  }

  lemma RequestHasFields(fields: seq<string>)
    requires |fields| == 6 && fields[2] != ""
    ensures Fields(RequestOf(fields)) == fields
  {
  }

  ghost predicate CollideWithin(a: PublishRequest, b: PublishRequest, free: set<nat>) {
    && ColonsOnlyIn(Fields(a), free) && ColonsOnlyIn(Fields(b), free)
    && DeliveryKey(a) == DeliveryKey(b) && !SameParts(a, b)
  }

  /** Keys are unambiguous exactly as long as colons can come in through one of the six parts only. */
  lemma KeysCollideIff(free: set<nat>)
    requires forall k <- free :: k < 6
    ensures (exists a, b :: CollideWithin(a, b, free)) <==> |free| >= 2
  {
    hide Joined, DeliveryKey, Fields, SamePart, Doubled, RequestOf;
    if |free| >= 2 {
      var i :| i in free;
      assert |free - {i}| == |free| - 1;
      var j :| j in free - {i};
      FreeFieldsCollide(i, j, free);
    } else if a, b :| CollideWithin(a, b, free) {
      var p := OnlyPosition(free);
      hide ColonsOnlyIn;
      ColonsWithinMore(a, free, p);
      ColonsWithinMore(b, free, p);
      assert ToldApartBy(a, b, p);
      SameKeyIff(a, b);
    }
  }

  lemma OnlyPosition(free: set<nat>) returns (p: nat)
    requires |free| <= 1 && forall k <- free :: k < 6
    ensures p < 6 && free <= {p}
  {
    p := 0;
    if free != {} {
      p :| p in free;
      assert |free - {p}| == 0;
    }
  }

  lemma ColonsWithinMore(r: PublishRequest, free: set<nat>, p: nat)
    requires ColonsOnlyIn(Fields(r), free) && free <= {p}
    ensures ColonsOnlyIn(Fields(r), {p})
  {
    hide Fields;
  }

  lemma FreeFieldsCollide(i: nat, j: nat, free: set<nat>)
    requires i in free && j in free && i != j && i < 6 && j < 6
    ensures CollideWithin(RequestOf(Doubled(6, i)), RequestOf(Doubled(6, j)), free)
  {
    hide Joined, DeliveryKey, Fields, SamePart, RequestOf;
    var a, b := RequestOf(Doubled(6, i)), RequestOf(Doubled(6, j));
    RequestHasFields(Doubled(6, i));
    RequestHasFields(Doubled(6, j));
    TwoFreeFieldsCollide(6, i, j);
    KeyIsJoined(a);
    KeyIsJoined(b);
    PartsAreFields(a, b);
    hide Doubled;
  }

  /** Over a run: a call that its key tells apart from the earlier ones sends something exactly when it
      differs from each of them in at least one part, and otherwise does nothing at all. */
  lemma CallSendsIff(policy: RetryPolicy, script: Script, calls: seq<PublishRequest>, i: nat)
    requires i < |calls| && forall j | 0 <= j < i :: ToldApart(calls[j], calls[i])
    ensures var w, w' := WorldAt(policy, script, calls, i), WorldAt(policy, script, calls, i + 1);
      && (|w'.sent| > |w.sent| <==> forall j | 0 <= j < i :: !SameParts(calls[j], calls[i]))
      && (|w'.sent| <= |w.sent| ==> w' == w)
  {
    hide Publish, DeliveryKey, LastAttempt, Wellformed, SameParts, ToldApart, Retryable;
    var w := WorldAt(policy, script, calls, i);
    KeysAreThoseUsed(policy, script, calls, i, DeliveryKey(calls[i]));
    forall j | 0 <= j < i
      ensures DeliveryKey(calls[j]) == DeliveryKey(calls[i]) <==> SameParts(calls[j], calls[i])
    {
      SameKeyIff(calls[j], calls[i]);
    }
    if DeliveryKey(calls[i]) in w.store {
      LaterCallIsInert(w, calls[i], policy, script);
    } else {
      RunKeepsLedgerWellformed(policy, script, calls, i);
      WinningPublishIsFold(w, calls[i], policy, script);
    }
  }
}
