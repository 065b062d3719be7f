/** What holds of every ledger the service writes without interference, one append at a time. */
module LedgerHealth {
  import opened ByteStrings
  import opened JsonText
  import opened Canonical
  import opened Models
  import opened Datetime
  import opened Merkle
  import opened Chain
  import opened PolicyEngine
  import opened PolicyTheorems
  import opened Verifier
  import opened Envelope
  import opened SignedCheckpoints
  import opened Ceremony
  import opened Reads
  import opened Records
  import opened Operations

  /** The request's policy is at hand, and is the one the request pinned. */
  predicate Pinned(env: Env, r: Request) {
    r.policyId in env.policies && PolicyDigest(env.gate.H, env.policies[r.policyId]) == r.policyDigest
  }

  /** The entry is the one opening of the request it holds. */
  predicate CreatedOk(env: Env, log: seq<LedgerEntry>, e: LedgerEntry) {
    && RequestFromJson(e.payload).Some?
    && var r := RequestFromJson(e.payload).value;
       && e.requestId == Some(RequestId(env.gate.H, r)) && LoadRequest(log, RequestId(env.gate.H, r)) == Found(r)
       && Pinned(env, r)
  }

  /** The decision in the entry is filed under its request, bound to it as the ledger holds it,
      signed by a key that may speak for its approver, and dated inside the window up to the skew. */
  predicate Vetted(env: Env, log: seq<LedgerEntry>, e: LedgerEntry) {
    && DecodeDecision(e.payload).Some?
    && var d := DecodeDecision(e.payload).value;
       && e.requestId == Some(d.requestId) && e.recordedAt == d.decidedAt
       && MayDecide(env.gate, e.payload, d) == Some(true)
       && LoadRequest(log, d.requestId).Found?
       && var r := LoadRequest(log, d.requestId).request;
          && d.contextDigest == ContextDigest(env.gate.H, r)
          && Within(env.gate.trust.parse, d.decidedAt, r.notValidAfter, env.gate.skew)
  }

  ghost predicate PublishedOk(env: Env, log: seq<LedgerEntry>, e: LedgerEntry) {
    && CheckpointFromJson(e.payload).Some?
    && e.requestId == None && CommitsTo(env.gate.H, CheckpointFromJson(e.payload).value, log)
  }

  /** Only statuses that are not pending are recorded. */
  ghost predicate SettledName(status: Json) {
    exists v: Verdict :: !v.Pending? && status == Str(StatusName(v))
  }

  ghost predicate ChangedOk(log: seq<LedgerEntry>, e: LedgerEntry) {
    e.requestId.Some? && LoadRequest(log, e.requestId.value).Found? && SettledName(StatusIn(e.payload))
  }

  ghost predicate EntryOk(env: Env, log: seq<LedgerEntry>, e: LedgerEntry) {
    && (e.eventType == CREATED ==> CreatedOk(env, log, e))
    && (e.eventType == RECORDED ==> Vetted(env, log, e))
    && (e.eventType == PUBLISHED ==> PublishedOk(env, log, e))
    && (e.eventType == STATUS_CHANGED ==> ChangedOk(log, e))
  }

  ghost predicate EntriesOk(env: Env, log: seq<LedgerEntry>) {
    forall e :: e in log ==> EntryOk(env, log, e)
  }

  lemma EntryStaysOk(env: Env, log: seq<LedgerEntry>, more: seq<LedgerEntry>, e: LedgerEntry)
    requires EntryOk(env, log, e)
    ensures EntryOk(env, log + more, e)
  {
    hide LoadRequest, RequestFromJson, RequestId, DecodeDecision, MayDecide, ContextDigest, Within, CheckpointFromJson, Pinned;
    hide CommitsTo, SettledName;
    if e.eventType == CREATED {
      LoadRequestIsStable(log, more, RequestId(env.gate.H, RequestFromJson(e.payload).value));
    }
    if e.eventType == RECORDED {
      LoadRequestIsStable(log, more, DecodeDecision(e.payload).value.requestId);
    }
    if e.eventType == STATUS_CHANGED {
      LoadRequestIsStable(log, more, e.requestId.value);
    }
    if e.eventType == PUBLISHED {
      CommitsLonger(env.gate.H, CheckpointFromJson(e.payload).value, log, more);
    }
  }

  lemma CommitsLonger(H: Hash, cp: Checkpoint, log: seq<LedgerEntry>, more: seq<LedgerEntry>)
    requires CommitsTo(H, cp, log)
    ensures CommitsTo(H, cp, log + more)
  {
    hide MerkleRoot, Leaves;
    assert (log + more)[..cp.treeSize] == log[..cp.treeSize];
  }

  lemma EntriesStayOk(env: Env, log: seq<LedgerEntry>, e: LedgerEntry)
    requires EntriesOk(env, log) && EntryOk(env, log + [e], e)
    ensures EntriesOk(env, log + [e])
  {
    hide EntryOk;
    forall x | x in log + [e]
      ensures EntryOk(env, log + [e], x)
    {
      if x in log {
        EntryStaysOk(env, log, [e], x);
      }
    }
  }

  /** The request loaded by an id has that id. */
  lemma LoadedHasItsId(env: Env, log: seq<LedgerEntry>, id: string)
    requires EntriesOk(env, log)
    ensures !LoadRequest(log, id).Malformed?
    ensures LoadRequest(log, id).Found? ==>
              var r := LoadRequest(log, id).request;
              RequestId(env.gate.H, r) == id && Pinned(env, r)
  {
    hide RequestFromJson, RequestId, LoadRequest, Pinned, EntryOk;
    EventsForOnly(log, id);
    forall e | e in EventsFor(log, id) && e.eventType == CREATED
      ensures RequestFromJson(e.payload).Some?
    {
      CreatedHere(env, log, e);
    }
    NeverMalformed(log, id);
    if LoadRequest(log, id).Found? {
      var e := LoadedFromEntry(log, id);
      CreatedHere(env, log, e);
    }
  }

  lemma CreatedHere(env: Env, log: seq<LedgerEntry>, e: LedgerEntry)
    requires EntriesOk(env, log) && e in log && e.eventType == CREATED
    ensures CreatedOk(env, log, e)
  {
    hide CreatedOk;
    assert EntryOk(env, log, e);
  }

  lemma NeverMalformed(log: seq<LedgerEntry>, id: string)
    requires forall e :: e in EventsFor(log, id) && e.eventType == CREATED ==> RequestFromJson(e.payload).Some?
    ensures !LoadRequest(log, id).Malformed?
  {
    hide RequestFromJson, EventsFor;
    NeverMalformedAmong(EventsFor(log, id));
  }

  // ---------------------------------------------------------------- decisions

  function Decoded(envelopes: seq<Json>): seq<Decision> {
    if envelopes == [] then []
    else
      var n := |envelopes| - 1;
      var d := DecodeDecision(envelopes[n]);
      Decoded(envelopes[..n]) + if d.Some? then [d.value] else []
  }

  /** Every decision recorded among a request's events. */
  function DecisionsIn(events: seq<LedgerEntry>): seq<Decision> {
    Decoded(Envelopes(events))
  }

  lemma {:induction false} EnvelopesAre(events: seq<LedgerEntry>)
    ensures forall j :: j in Envelopes(events) <==> exists e :: e in events && e.eventType == RECORDED && e.payload == j
  {
    if events != [] {
      var init, last := events[..|events| - 1], events[|events| - 1];
      EnvelopesAre(init);
      assert events == init + [last];
      assert forall e :: e in events <==> e in init || e == last;
    }
  }

  lemma {:induction false} DecodedAre(envelopes: seq<Json>, d: Decision)
    ensures d in Decoded(envelopes) <==> exists j :: j in envelopes && DecodeDecision(j) == Some(d)
  {
    hide DecodeDecision;
    if envelopes != [] {
      var init, last := envelopes[..|envelopes| - 1], envelopes[|envelopes| - 1];
      DecodedAre(init, d);
      assert envelopes == init + [last];
    }
  }

  lemma {:induction false} AllAuthorized(g: Gate, envelopes: seq<Json>)
    requires forall j :: j in envelopes ==>
               DecodeDecision(j).Some? && MayDecide(g, j, DecodeDecision(j).value) == Some(true)
    ensures AuthorizedAmong(g, envelopes) == Some(Decoded(envelopes))
  {
    hide DecodeDecision, MayDecide;
    if envelopes != [] {
      var n := |envelopes| - 1;
      AllAuthorized(g, envelopes[..n]);
      assert envelopes[n] in envelopes;
    }
  }

  /** The decision can be compared with the closing time of the request it is filed under. */
  predicate Timely(env: Env, log: seq<LedgerEntry>, id: string, d: Decision) {
    LoadRequest(log, id).Found?
    && Within(env.gate.trust.parse, d.decidedAt, LoadRequest(log, id).request.notValidAfter, env.gate.skew)
  }

  lemma RecordedHere(env: Env, log: seq<LedgerEntry>, e: LedgerEntry)
    requires EntriesOk(env, log) && e in log && e.eventType == RECORDED
    ensures Vetted(env, log, e)
  {
    hide Vetted;
    assert EntryOk(env, log, e);
  }

  lemma RecordedEnvelopes(env: Env, log: seq<LedgerEntry>, id: string, j: Json)
    requires EntriesOk(env, log) && j in Envelopes(EventsFor(log, id))
    ensures DecodeDecision(j).Some? && MayDecide(env.gate, j, DecodeDecision(j).value) == Some(true)
    ensures Timely(env, log, id, DecodeDecision(j).value)
  {
    hide DecodeDecision, MayDecide, EventsFor, Envelopes, LoadRequest, ContextDigest, Within, EntriesOk;
    EventsForOnly(log, id);
    EnvelopesAre(EventsFor(log, id));
    var e :| e in EventsFor(log, id) && e.eventType == RECORDED && e.payload == j;
    RecordedHere(env, log, e);
  }

  lemma RecordedAreReadable(env: Env, log: seq<LedgerEntry>, id: string)
    requires EntriesOk(env, log)
    ensures AuthorizedAmong(env.gate, Envelopes(EventsFor(log, id))) == Some(DecisionsIn(EventsFor(log, id)))
    ensures forall d :: d in DecisionsIn(EventsFor(log, id)) ==> Timely(env, log, id, d)
  {
    hide DecodeDecision, MayDecide, EventsFor, Envelopes, EntriesOk, Timely;
    var envelopes := Envelopes(EventsFor(log, id));
    forall j | j in envelopes
      ensures DecodeDecision(j).Some? && MayDecide(env.gate, j, DecodeDecision(j).value) == Some(true)
      ensures Timely(env, log, id, DecodeDecision(j).value)
    {
      RecordedEnvelopes(env, log, id, j);
    }
    AllAuthorized(env.gate, envelopes);
    forall d | d in DecisionsIn(EventsFor(log, id))
      ensures Timely(env, log, id, d)
    {
      DecodedAre(envelopes, d);
    }
  }

  // -------------------------------------------------------------- re-deriving

  /** The fixed part of every evaluation of the request; `None` when its deadline cannot be told. */
  function CaseFor(env: Env, r: Request): Option<Case> {
    if r.policyId !in env.policies then None
    else CaseOf(env.gate.H, env.gate.trust.parse, r, env.policies[r.policyId], env.gate.identities)
  }

  /** The request's deadline can be told: both of its times parse, the policy's age limit can be added
      to the creation time, and both have an offset or neither has. */
  predicate WindowOpens(env: Env, r: Request) {
    && r.policyId in env.policies
    && var closes, created := env.gate.trust.parse(r.notValidAfter), env.gate.trust.parse(r.createdAt);
       && closes.Some? && created.Some? && Aware(closes.value) == Aware(created.value)
       && 0 <= created.value.wall + env.policies[r.policyId].maxAgeSeconds * 1000000 < WALL_END
  }

  lemma CaseExactly(env: Env, r: Request)
    ensures CaseFor(env, r).Some? <==> WindowOpens(env, r)
    ensures CaseFor(env, r).Some? ==>
              && CaseFor(env, r).value.parse == env.gate.trust.parse
              && CaseFor(env, r).value.aware == Aware(env.gate.trust.parse(r.notValidAfter).value)
  {
    hide ContextDigest;
  }

  /** On a sound ledger a request's record is its decisions, judged; it cannot be re-derived exactly
      when the request's deadline cannot be told. */
  lemma Derives(env: Env, log: seq<LedgerEntry>, id: string, at: string)
    requires EntriesOk(env, log) && LoadRequest(log, id).Found? && env.gate.trust.parse(at).Some?
    requires var r := LoadRequest(log, id).request;
             WindowOpens(env, r) ==> Aware(env.gate.trust.parse(at).value) == Aware(env.gate.trust.parse(r.notValidAfter).value)
    ensures var r := LoadRequest(log, id).request;
            && CaseFor(env, r).Some? == WindowOpens(env, r)
            && Recompute(env, log, r, at)
               == if CaseFor(env, r).None? then Raised
                  else var ds := DecisionsIn(EventsFor(log, id));
                       var c := CaseFor(env, r).value;
                       Derived(Record(r, ds, Judge(c, Voices(c, ds), Instant(env.gate.trust.parse(at).value))))
  {
    hide LoadRequest, EntriesOk, RequestId, PolicyDigest, DecisionsIn, Envelopes, EventsFor, AuthorizedAmong, Voices, Judge;
    hide ContextDigest, Admissible, Deadline;
    var r := LoadRequest(log, id).request;
    LoadedHasItsId(env, log, id);
    RecordedAreReadable(env, log, id);
    CaseExactly(env, r);
    if CaseFor(env, r).Some? {
      AllReadable(env, log, id, CaseFor(env, r).value, DecisionsIn(EventsFor(log, id)));
    }
  }

  lemma AllReadable(env: Env, log: seq<LedgerEntry>, id: string, c: Case, ds: seq<Decision>)
    requires LoadRequest(log, id).Found? && env.gate.trust.parse(LoadRequest(log, id).request.notValidAfter).Some?
    requires c.parse == env.gate.trust.parse && c.aware == Aware(env.gate.trust.parse(LoadRequest(log, id).request.notValidAfter).value)
    requires forall d :: d in ds ==> Timely(env, log, id, d)
    ensures forall d :: d in ds ==> Readable(c, d)
  {
    hide LoadRequest, Admissible;
  }

  // --------------------------------------------------- the recorded status is true

  /** The status the record has at the instant `t`. */
  function StatusAt(env: Env, r: Request, ds: seq<Decision>, t: int): Option<Verdict> {
    var c :- CaseFor(env, r);
    Some(Judge(c, Voices(c, ds), t).status)
  }

  /** The last recorded status was the status, over the present decisions, at some instant up to
      `clock`; unless it was pending then, which is not recorded, and is ruled out if `firm`. */
  ghost predicate StatusOk(env: Env, events: seq<LedgerEntry>, clock: int, firm: bool) {
    LastStatus(events) == Null
    || (FirstCreated(events).Found? && exists t :: t <= clock && Tracked(env, events, FirstCreated(events).request, t, firm))
  }

  ghost predicate Tracked(env: Env, events: seq<LedgerEntry>, r: Request, t: int, firm: bool) {
    var v := StatusAt(env, r, DecisionsIn(events), t);
    v.Some? && (if v.value.Pending? then !firm else LastStatus(events) == Str(StatusName(v.value)))
  }

  lemma StatusOkLater(env: Env, events: seq<LedgerEntry>, clock: int, later: int, firm: bool)
    requires StatusOk(env, events, clock, firm) && clock <= later
    ensures StatusOk(env, events, later, firm)
  {
    hide Tracked, FirstCreated, LastStatus;
  }

  /** With the decisions fixed, a later instant can only turn pending into expired. */
  lemma StatusMoves(env: Env, r: Request, ds: seq<Decision>, t: int, later: int)
    requires t <= later && StatusAt(env, r, ds, t).Some?
    ensures StatusAt(env, r, ds, later) == StatusAt(env, r, ds, t)
         || (StatusAt(env, r, ds, t) == Some(Pending) && StatusAt(env, r, ds, later) == Some(Expired))
  {
    hide CaseFor, Voices, SortedKeys, RolesSatisfied, Voters;
  }

  lemma {:induction false} LastStatusIsThere(events: seq<LedgerEntry>)
    requires LastStatus(events) != Null
    ensures exists e :: e in events && e.eventType == STATUS_CHANGED && LastStatus(events) == StatusIn(e.payload)
  {
    hide StatusIn;
    if events[|events| - 1].eventType != STATUS_CHANGED {
      LastStatusIsThere(events[..|events| - 1]);
    }
  }

  /** Pending is never the last recorded status. */
  lemma LastStatusIsSettled(env: Env, log: seq<LedgerEntry>, id: string)
    requires EntriesOk(env, log)
    ensures LastStatus(EventsFor(log, id)) == Null || SettledName(LastStatus(EventsFor(log, id)))
  {
    hide LastStatus, EventsFor, StatusIn, SettledName, LoadRequest;
    EventsForOnly(log, id);
    if LastStatus(EventsFor(log, id)) != Null {
      LastStatusIsThere(EventsFor(log, id));
      var e :| e in EventsFor(log, id) && e.eventType == STATUS_CHANGED && LastStatus(EventsFor(log, id)) == StatusIn(e.payload);
      ChangedHere(env, log, e);
    }
  }

  lemma ChangedHere(env: Env, log: seq<LedgerEntry>, e: LedgerEntry)
    requires EntriesOk(env, log) && e in log && e.eventType == STATUS_CHANGED
    ensures ChangedOk(log, e)
  {
    hide ChangedOk;
    assert EntryOk(env, log, e);
  }

  lemma SettledNamesAreNotPending(status: Json)
    requires SettledName(status)
    ensures status != Null && status != Str(StatusName(Pending))
  {
    assert "pending"[0] != "expired"[0];
  }
}
