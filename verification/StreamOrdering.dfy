/** Duplicate and ordering guards for communication streams
    (communication_gateway/validators/ordering_validator.py). */
module StreamOrdering {
  import opened PyText
  import opened JoinedKeys

  datatype Envelope = Envelope(
    messageId: string, connector: string, principalId: string, projectId: Option<string>, target: string,
    createdAt: int)

  datatype Verdict = Accepted | DuplicateMessageId | OutOfOrderDelivery

  function StreamKey(e: Envelope): string {
    var project := if e.projectId.Some? && e.projectId.value != "" then e.projectId.value else "project-unspecified";
    e.connector + ":" + e.principalId + ":" + project + ":" + e.target
  }

  function Fields(e: Envelope): (fields: seq<string>)
    ensures |fields| == 4
  {
    [e.connector, e.principalId, if e.projectId.Some? && e.projectId.value != "" then e.projectId.value else "project-unspecified", e.target]
  }

  lemma KeyIsJoined(e: Envelope)
    ensures StreamKey(e) == Joined(Fields(e))
  {
    var f := Fields(e);
    assert f[1..] == [f[1], f[2], f[3]] && f[1..][1..] == [f[2], f[3]] && [f[2], f[3]][1..] == [f[3]];
    assert Joined([f[2], f[3]]) == f[2] + ":" + f[3];
    assert Joined([f[1], f[2], f[3]]) == f[1] + ":" + Joined([f[2], f[3]]);
    assert Joined(f) == f[0] + ":" + Joined([f[1], f[2], f[3]]);
    hide Joined;
  }

  predicate Unspecified(projectId: Option<string>) {
    projectId in {None, Some(""), Some("project-unspecified")}
  }

  predicate SameParties(a: Envelope, b: Envelope) {
    && a.connector == b.connector && a.principalId == b.principalId && a.target == b.target
    && (a.projectId == b.projectId || (Unspecified(a.projectId) && Unspecified(b.projectId)))
  }

  /** As long as colons come in through one field only, two messages belong to one stream exactly if
      connector, principal, project and target agree. */
  lemma SameStreamIff(a: Envelope, b: Envelope, p: nat)
    requires p < 4 && ColonsOnlyIn(Fields(a), {p}) && ColonsOnlyIn(Fields(b), {p})
    ensures SameStream(a, b) <==> SameParties(a, b)
  {
    hide Joined, StreamKey, ColonsOnlyIn;
    KeyIsJoined(a);
    KeyIsJoined(b);
    var f, g := Fields(a), Fields(b);
    assert f == g <==> f[0] == g[0] && f[1] == g[1] && f[2] == g[2] && f[3] == g[3];
    if SameStream(a, b) {
      JoinedTellsFields(f, g, p);
    }
  }

  predicate SameStream(a: Envelope, b: Envelope) {
    StreamKey(a) == StreamKey(b)
  }

  /** The stream already holds this message id. */
  ghost predicate SeenBefore(accepted: seq<Envelope>, e: Envelope) {
    exists a <- accepted :: SameStream(a, e) && a.messageId == e.messageId
  }

  /** The stream already holds something younger. */
  ghost predicate Overtaken(accepted: seq<Envelope>, e: Envelope) {
    exists a <- accepted :: SameStream(a, e) && e.createdAt < a.createdAt
  }

  /** The verdict as a statement about everything accepted so far, with no running maximum. */
  ghost function Judge(accepted: seq<Envelope>, e: Envelope): Verdict {
    if SeenBefore(accepted, e) then DuplicateMessageId
    else if Overtaken(accepted, e) then OutOfOrderDelivery
    else Accepted
  }

  /** The two dictionaries summarise the accepted history stream by stream: its ids, and its
      youngest timestamp. */
  ghost predicate Summarises(latest: map<string, int>, ids: map<string, set<string>>, accepted: seq<Envelope>) {
    && (forall a <- accepted :: StreamKey(a) in ids && a.messageId in ids[StreamKey(a)])
    && (forall k, id | k in ids && id in ids[k] :: Holds(accepted, k, id))
    && (forall a <- accepted :: StreamKey(a) in latest && a.createdAt <= latest[StreamKey(a)])
    && (forall k <- latest :: Reaches(accepted, k, latest[k]))
  }

  ghost predicate Holds(accepted: seq<Envelope>, key: string, id: string) {
    exists a <- accepted :: StreamKey(a) == key && a.messageId == id
  }

  ghost predicate Reaches(accepted: seq<Envelope>, key: string, time: int) {
    exists a <- accepted :: StreamKey(a) == key && a.createdAt == time
  }

  /** What the two dictionary tests of `validate` find out. */
  lemma SummaryDecides(latest: map<string, int>, ids: map<string, set<string>>, accepted: seq<Envelope>, e: Envelope)
    requires Summarises(latest, ids, accepted)
    ensures SeenBefore(accepted, e) <==> StreamKey(e) in ids && e.messageId in ids[StreamKey(e)]
    ensures Overtaken(accepted, e) <==> StreamKey(e) in latest && e.createdAt < latest[StreamKey(e)]
  {
    hide StreamKey;
    var key := StreamKey(e);
    if key in ids && e.messageId in ids[key] {
      assert Holds(accepted, key, e.messageId);
    }
    if key in latest && e.createdAt < latest[key] {
      assert Reaches(accepted, key, latest[key]);
    }
  }

  lemma SummaryGrows(latest: map<string, int>, ids: map<string, set<string>>, accepted: seq<Envelope>, e: Envelope)
    requires Summarises(latest, ids, accepted) && !Overtaken(accepted, e)
    requires StreamKey(e) in ids
    ensures Summarises(latest[StreamKey(e) := e.createdAt],
                       ids[StreamKey(e) := ids[StreamKey(e)] + {e.messageId}],
                       accepted + [e])
  {
    hide StreamKey;
    var key := StreamKey(e);
    var latest', ids', all := latest[key := e.createdAt], ids[key := ids[key] + {e.messageId}], accepted + [e];
    assert all[|accepted|] == e;
    assert forall a <- accepted :: a in all;
    forall k, id | k in ids' && id in ids'[k]
      ensures Holds(all, k, id)
    {
      assert (k in ids && id in ids[k]) ==> Holds(accepted, k, id);
    }
    forall k | k in latest'
      ensures Reaches(all, k, latest'[k])
    {
      assert k != key ==> Reaches(accepted, k, latest[k]);
    }
  }

  class LocalOrderingValidator {
    var latestSeenAt: map<string, int>
    var messageIds: map<string, set<string>>
    ghost var accepted: seq<Envelope>

    ghost predicate Valid()
      reads this
    {
      Summarises(latestSeenAt, messageIds, accepted)
    }

    constructor ()
      ensures Valid() && accepted == []
    {
      latestSeenAt, messageIds, accepted := map[], map[], [];
    }

    method Validate(e: Envelope) returns (verdict: Verdict)
      requires Valid()
      modifies this
      ensures Valid()
      ensures verdict == Judge(old(accepted), e)
      ensures accepted == if verdict.Accepted? then old(accepted) + [e] else old(accepted)
    {
      hide StreamKey, SeenBefore, Overtaken, Holds, Reaches;
      var key := StreamKey(e);
      SummaryDecides(latestSeenAt, messageIds, accepted, e);
      if key !in messageIds {
        messageIds := messageIds[key := {}];
      }
      if e.messageId in messageIds[key] {
        return DuplicateMessageId;
      }
      if key in latestSeenAt && e.createdAt < latestSeenAt[key] {
        return OutOfOrderDelivery;
      }
      SummaryGrows(latestSeenAt, messageIds, accepted, e);
      messageIds := messageIds[key := messageIds[key] + {e.messageId}];
      latestSeenAt := latestSeenAt[key := e.createdAt];
      accepted := accepted + [e];
      return Accepted;
    }
  }

  /** What a fresh validator has accepted after a run of calls. */
  ghost function AcceptedOf(calls: seq<Envelope>): seq<Envelope> {
    if calls == [] then [] else
    var before, e := AcceptedOf(calls[..|calls| - 1]), calls[|calls| - 1];
    if Judge(before, e).Accepted? then before + [e] else before
  }

  /** Within a stream no id repeats and no timestamp steps back. */
  ghost predicate WellOrdered(accepted: seq<Envelope>) {
    forall i, j | 0 <= i < j < |accepted| && SameStream(accepted[i], accepted[j]) ::
      accepted[i].messageId != accepted[j].messageId && accepted[i].createdAt <= accepted[j].createdAt
  }

  lemma {:induction false} AcceptedIsWellOrdered(calls: seq<Envelope>)
    ensures WellOrdered(AcceptedOf(calls))
  {
    hide StreamKey;
    if calls != [] {
      AcceptedIsWellOrdered(calls[..|calls| - 1]);
    }
  }

  /** The envelopes of one stream, in order. */
  function OfStream(key: string, calls: seq<Envelope>): seq<Envelope> {
    if calls == [] then [] else
    var before, e := OfStream(key, calls[..|calls| - 1]), calls[|calls| - 1];
    if StreamKey(e) == key then before + [e] else before
  }

  lemma {:induction false} OfStreamMembers(key: string, calls: seq<Envelope>)
    ensures forall e :: e in OfStream(key, calls) <==> e in calls && StreamKey(e) == key
  {
    hide StreamKey;
    if calls != [] {
      OfStreamMembers(key, calls[..|calls| - 1]);
      assert calls == calls[..|calls| - 1] + [calls[|calls| - 1]];
    }
  }

  /** A stream judges its messages by its own history alone. */
  lemma JudgedByOwnStream(accepted: seq<Envelope>, e: Envelope)
    ensures Judge(accepted, e) == Judge(OfStream(StreamKey(e), accepted), e)
  {
    OfStreamMembers(StreamKey(e), accepted);
    hide StreamKey, OfStream;
  }

  /** Streams do not disturb each other: what a run accepts in one stream is what the calls of that
      stream alone would have had accepted. */
  lemma {:induction false} StreamsAreIndependent(key: string, calls: seq<Envelope>)
    ensures OfStream(key, AcceptedOf(calls)) == AcceptedOf(OfStream(key, calls))
  {
    hide Judge, StreamKey;
    if calls != [] {
      var before, e := AcceptedOf(calls[..|calls| - 1]), calls[|calls| - 1];
      StreamsAreIndependent(key, calls[..|calls| - 1]);
      JudgedByOwnStream(before, e);
      assert (before + [e])[..|before|] == before;
      var own := OfStream(key, calls[..|calls| - 1]);
      assert (own + [e])[..|own|] == own;
    }
  }

  /** The first message between its parties is always accepted, whatever other streams hold. */
  lemma FirstOfItsPartiesIsAccepted(accepted: seq<Envelope>, e: Envelope, p: nat)
    requires p < 4 && ColonsOnlyIn(Fields(e), {p})
    requires forall a <- accepted :: ColonsOnlyIn(Fields(a), {p}) && !SameParties(a, e)
    ensures Judge(accepted, e).Accepted?
  {
    hide Fields, SameStream, ColonsOnlyIn, SameParties;
    forall a | a in accepted
      ensures !SameStream(a, e)
    {
      SameStreamIff(a, e, p);
    }
  }
}
