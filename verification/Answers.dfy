/** What callers are told, and what is written for them, said in terms of what they asked and of the
    ledger. */
module Answers {
  import opened ByteStrings
  import opened JsonText
  import opened Canonical
  import opened Models
  import opened Datetime
  import opened Chain
  import opened PolicyEngine
  import opened Keys
  import opened Verifier
  import opened Envelope
  import opened SignedCheckpoints
  import opened Ceremony
  import opened Reads
  import opened Records
  import opened Operations
  import opened LedgerHealth
  import opened SequentialRuns
  import FalseAlarms
  import ServiceGuarantees
  import opened Renderings
  import V = Verdicts
  import Protocol

  // --------------------------------------------------------- the ledger, read plainly

  /** Some request was opened under the id. */
  ghost predicate OpenedUnder(log: seq<LedgerEntry>, id: string) {
    exists e :: e in log && e.eventType == "request.created" && e.requestId == Some(id)
  }

  /** The decisions recorded under the id, in ledger order. */
  function RecordedUnder(log: seq<LedgerEntry>, id: string): seq<Decision> {
    if log == [] then []
    else
      var last := log[|log| - 1];
      var d := DecodeDecision(last.payload);
      RecordedUnder(log[..|log| - 1], id)
      + if last.eventType == "decision.recorded" && last.requestId == Some(id) && d.Some? then [d.value] else []
  }

  lemma {:induction false} RecordedAreIn(log: seq<LedgerEntry>, id: string)
    ensures DecisionsIn(EventsFor(log, id)) == RecordedUnder(log, id)
  {
    hide DecisionsIn, EventsFor, DecodeDecision;
    if log == [] {
      FalseAlarms.NoEvents(id);
      FalseAlarms.NoDecisions();
    } else {
      var init, last := log[..|log| - 1], log[|log| - 1];
      RecordedAreIn(init, id);
      assert log == init + [last];
      EventsForOneMore(init, last, id);
      if last.requestId == Some(id) {
        FalseAlarms.DecisionsInAppend(EventsFor(init, id), last);
      } else {
        assert EventsFor(init, id) + [] == EventsFor(init, id);
      }
    }
  }

  lemma RecordedOneMore(log: seq<LedgerEntry>, e: LedgerEntry, id: string)
    ensures RecordedUnder(log + [e], id) == RecordedUnder(log, id)
         + if e.eventType == "decision.recorded" && e.requestId == Some(id) && DecodeDecision(e.payload).Some?
           then [DecodeDecision(e.payload).value] else []
  {
    hide DecodeDecision;
    assert (log + [e])[..|log|] == log;
  }

  lemma LoadsIfOpened(env: Env, log: seq<LedgerEntry>, id: string)
    requires EntriesOk(env, log)
    ensures LoadRequest(log, id).Found? <==> OpenedUnder(log, id)
    ensures LoadRequest(log, id).NotFound? <==> !OpenedUnder(log, id)
  {
    hide EntriesOk, LoadRequest, RequestFromJson, RequestId, Pinned;
    LoadedHasItsId(env, log, id);
    if e :| e in log && e.eventType == CREATED && e.requestId == Some(id) {
      CreatedHere(env, log, e);
    }
    if LoadRequest(log, id).Found? {
      var e := LoadedFromEntry(log, id);
    }
  }

  // ------------------------------------------------------------------ true records

  /** An evaluation at this time has an answer. */
  ghost predicate Tellable(env: Env, r: Request, ds: seq<Decision>, now: string) {
    && r.policyId in env.policies && env.gate.trust.parse(now).Some?
    && V.Told(MatterOf(env, r))
    && (V.Comparable(MatterOf(env, r), now)
        || V.Settled(MatterOf(env, r), ds, Instant(env.gate.trust.parse(now).value)))
  }

  /** The record is the truth about the id at this time: the request opened under it, the decisions
      recorded under it, and the answer that is due. */
  ghost predicate TrueRecord(env: Env, log: seq<LedgerEntry>, id: string, now: string, record: Record) {
    && LoadRequest(log, id) == Found(record.request) && RequestId(env.gate.H, record.request) == id
    && record.decisions == RecordedUnder(log, id)
    && Tellable(env, record.request, record.decisions, now)
    && V.Due(MatterOf(env, record.request), record.decisions, Instant(env.gate.trust.parse(now).value), record.result)
  }

  /** A record is derived exactly when an evaluation has an answer, and it is then the truth. */
  lemma DerivesTruth(env: Env, log: seq<LedgerEntry>, id: string, now: string)
    requires EntriesOk(env, log) && LoadRequest(log, id).Found?
    ensures var r := LoadRequest(log, id).request;
            var result := Recompute(env, log, r, now);
            && RequestId(env.gate.H, r) == id && r.policyId in env.policies
            && !result.NoSuchPolicy? && !result.PolicyChanged?
            && (result.Derived? <==> Tellable(env, r, RecordedUnder(log, id), now))
            && (result.Derived? ==> TrueRecord(env, log, id, now, result.record))
  {
    hide EntriesOk, LoadRequest, RequestId, PolicyDigest, DecisionsIn, EventsFor, Envelopes, AuthorizedAmong, Evaluate, V.Due, V.Told;
    hide V.Comparable, V.Settled, V.TimesRead, RecordedUnder;
    var r := LoadRequest(log, id).request;
    LoadedHasItsId(env, log, id);
    RecordedAreReadable(env, log, id);
    RecordedAreIn(log, id);
    var ds := RecordedUnder(log, id);
    V.EvaluateExactly(MatterOf(env, r), ds, now);
    if V.Told(MatterOf(env, r)) {
      TimelyAreRead(env, log, id, ds);
    }
  }

  lemma TimelyAreRead(env: Env, log: seq<LedgerEntry>, id: string, ds: seq<Decision>)
    requires LoadRequest(log, id).Found? && LoadRequest(log, id).request.policyId in env.policies
    requires V.Told(MatterOf(env, LoadRequest(log, id).request))
    requires forall d :: d in ds ==> Timely(env, log, id, d)
    ensures V.TimesRead(MatterOf(env, LoadRequest(log, id).request), ds)
  {
    hide LoadRequest, V.MayVote, ContextDigest;
  }

  // ------------------------------------------------------- ledgers written by anyone

  /** Every decision recorded under the id decodes, and whether it is authorized can be told. */
  ghost predicate AllRead(g: Gate, log: seq<LedgerEntry>, id: string) {
    forall e :: e in log && e.eventType == "decision.recorded" && e.requestId == Some(id) ==>
      DecodeDecision(e.payload).Some? && MayDecide(g, e.payload, DecodeDecision(e.payload).value).Some?
  }

  /** The authorized decisions recorded under the id, in ledger order. */
  function AuthorizedUnder(g: Gate, log: seq<LedgerEntry>, id: string): seq<Decision> {
    if log == [] then []
    else
      var last := log[|log| - 1];
      var d := DecodeDecision(last.payload);
      var before := AuthorizedUnder(g, log[..|log| - 1], id);
      if last.eventType == "decision.recorded" && last.requestId == Some(id) && d.Some? && MayDecide(g, last.payload, d.value) == Some(true)
      then before + [d.value] else before
  }

  /** On every ledger, whoever wrote it, only authorized decisions are read, and every one is. */
  lemma {:induction false} OnlyAuthorizedAreRead(g: Gate, log: seq<LedgerEntry>, id: string)
    ensures AuthorizedAmong(g, Envelopes(EventsFor(log, id))) == if AllRead(g, log, id) then Some(AuthorizedUnder(g, log, id)) else None
  {
    hide DecodeDecision, MayDecide, AuthorizedAmong, Envelopes, AllRead;
    if log == [] {
      NothingToRead(g, id);
    } else {
      var init, last := log[..|log| - 1], log[|log| - 1];
      assert log == init + [last];
      OnlyAuthorizedAreRead(g, init, id);
      assert EventsFor(log, id) == if last.requestId == Some(id) then EventsFor(init, id) + [last] else EventsFor(init, id);
      OneMoreIsRead(g, EventsFor(init, id), last);
      OneMoreToRead(g, init, last, id);
    }
  }

  lemma NothingToRead(g: Gate, id: string)
    ensures AllRead(g, [], id) && AuthorizedAmong(g, Envelopes([])) == Some([])
  {
  }

  lemma OneMoreToRead(g: Gate, log: seq<LedgerEntry>, e: LedgerEntry, id: string)
    ensures AllRead(g, log + [e], id)
       <==> && AllRead(g, log, id)
            && (e.eventType == "decision.recorded" && e.requestId == Some(id) ==>
                 DecodeDecision(e.payload).Some? && MayDecide(g, e.payload, DecodeDecision(e.payload).value).Some?)
  {
    hide DecodeDecision, MayDecide;
    assert forall x :: x in log + [e] <==> x in log || x == e;
  }

  lemma OneMoreIsRead(g: Gate, events: seq<LedgerEntry>, e: LedgerEntry)
    ensures var before, d := AuthorizedAmong(g, Envelopes(events)), DecodeDecision(e.payload);
            AuthorizedAmong(g, Envelopes(events + [e]))
            == if e.eventType != "decision.recorded" then before
               else if before.None? || d.None? || MayDecide(g, e.payload, d.value).None? then None
               else Some(if MayDecide(g, e.payload, d.value).value then before.value + [d.value] else before.value)
  {
    hide DecodeDecision, MayDecide;
    assert (events + [e])[..|events|] == events;
    var envelopes := Envelopes(events);
    assert (envelopes + [e.payload])[..|envelopes|] == envelopes;
    assert envelopes + [] == envelopes;
  }

  /** On every ledger, whoever wrote it: a record is derived exactly when the policy is at hand and is
      the one pinned, every recorded decision can be read, and an evaluation has an answer; and it then
      holds the authorized decisions, in ledger order, and the answer due on them. */
  lemma DerivesExactly(env: Env, log: seq<LedgerEntry>, r: Request, now: string)
    ensures var result, id := Recompute(env, log, r, now), RequestId(env.gate.H, r);
            var ds := AuthorizedUnder(env.gate, log, id);
            && (result.NoSuchPolicy? <==> r.policyId !in env.policies)
            && (result.PolicyChanged? <==> r.policyId in env.policies && PolicyDigest(env.gate.H, env.policies[r.policyId]) != r.policyDigest)
            && (result.Derived? <==>
                 && r.policyId in env.policies && PolicyDigest(env.gate.H, env.policies[r.policyId]) == r.policyDigest
                 && AllRead(env.gate, log, id) && Tellable(env, r, ds, now) && V.TimesRead(MatterOf(env, r), ds))
            && (result.Derived? ==>
                 && result.record.request == r && result.record.decisions == ds
                 && V.Due(MatterOf(env, r), ds, Instant(env.gate.trust.parse(now).value), result.record.result))
  {
    hide RequestId, PolicyDigest, EventsFor, Envelopes, AuthorizedAmong, Evaluate, V.Due, V.Told, V.Comparable, V.Settled, V.TimesRead;
    hide AuthorizedUnder, AllRead;
    var id := RequestId(env.gate.H, r);
    OnlyAuthorizedAreRead(env.gate, log, id);
    if r.policyId in env.policies {
      V.EvaluateExactly(MatterOf(env, r), AuthorizedUnder(env.gate, log, id), now);
    }
  }

  /** Asking for a status, on every ledger: an answer holds the first request opened under the id, the
      authorized decisions recorded under its id, and the answer due on them. */
  lemma StatusExactly(env: Env, log: seq<LedgerEntry>, id: string, now: string)
    ensures var outcome := StatusOf(env, log, id, now);
            && (outcome.NoSuchRequest? <==> LoadRequest(log, id).NotFound?)
            && (outcome.NoSuchRequest? || outcome.Replayed? || outcome.SubmitRaised?)
            && (outcome.Replayed? ==>
                 && LoadRequest(log, id) == Found(outcome.current.request)
                 && var r := outcome.current.request;
                    && r.policyId in env.policies && PolicyDigest(env.gate.H, env.policies[r.policyId]) == r.policyDigest
                    && outcome.current.decisions == AuthorizedUnder(env.gate, log, RequestId(env.gate.H, r))
                    && Tellable(env, r, outcome.current.decisions, now)
                    && V.Due(MatterOf(env, r), outcome.current.decisions, Instant(env.gate.trust.parse(now).value), outcome.current.result))
  {
    hide LoadRequest, Recompute, AuthorizedUnder, PolicyDigest, RequestId, V.Due, Tellable, AllRead, V.TimesRead;
    if LoadRequest(log, id).Found? {
      DerivesExactly(env, log, LoadRequest(log, id).request, now);
    }
  }

  // ---------------------------------------------------------------------- reading

  /** What `get_status` should answer. */
  ghost predicate StatusTold(env: Env, log: seq<LedgerEntry>, id: string, now: string, outcome: SubmitOutcome) {
    && (outcome.NoSuchRequest? <==> !OpenedUnder(log, id))
    && (outcome.Replayed? ==> TrueRecord(env, log, id, now, outcome.current))
    && (OpenedUnder(log, id) ==>
         && LoadRequest(log, id).Found?
         && var r := LoadRequest(log, id).request;
            && (outcome.Replayed? <==> Tellable(env, r, RecordedUnder(log, id), now))
            && (outcome.SubmitRaised? <==> !Tellable(env, r, RecordedUnder(log, id), now)))
  }

  lemma StatusIsTold(env: Env, log: seq<LedgerEntry>, id: string, now: string)
    requires EntriesOk(env, log)
    ensures StatusTold(env, log, id, now, StatusOf(env, log, id, now))
  {
    hide EntriesOk, LoadRequest, Recompute, TrueRecord, Tellable, OpenedUnder, RecordedUnder;
    LoadsIfOpened(env, log, id);
    if LoadRequest(log, id).Found? {
      DerivesTruth(env, log, id, now);
    }
  }

  /** In every run, asking for the status of an id is answered with "no such request" exactly when
      nothing was opened under it, and otherwise with the truth, or an exception exactly when there is
      no answer to tell. */
  lemma StatusAnswers(s: Service, ops: seq<Op>, id: string, now: string)
    ensures StatusTold(s.env, RunAll(s, ops).log, id, now, StatusOf(s.env, RunAll(s, ops).log, id, now))
  {
    hide RunAll, StatusOf, StatusTold, EntriesOk, Linked;
    EveryRunIsSound(s, ops);
    StatusIsTold(s.env, RunAll(s, ops).log, id, now);
  }

  // ---------------------------------------------------------------------- opening

  /** The request is the one the opening asks for, at this time. */
  predicate AsksFor(env: Env, o: Opening, now: string, r: Request) {
    && r.kind == o.kind && r.subject == Obj(o.subject) && r.requestedBy == o.requestedBy && r.policyId == o.policyId
    && r.notValidAfter == o.notValidAfter && r.nonce == o.nonce && r.createdAt == now && r.schema == "approvo/request/v1"
    && o.policyId in env.policies && r.policyDigest == PolicyDigest(env.gate.H, env.policies[o.policyId])
  }

  /** The policy is known, and the subject has every field it requires. */
  predicate Acceptable(env: Env, o: Opening) {
    && o.policyId in env.policies
    && forall f :: f in env.policies[o.policyId].requiredSubjectFields ==> f in o.subject
  }

  /** The entry opens this request. */
  predicate OpeningEntry(H: Hash, e: LedgerEntry, r: Request) {
    && e.eventType == "request.created" && e.requestId == Some(RequestId(H, r)) && e.recordedAt == r.createdAt
    && RequestFromJson(e.payload) == Some(r)
  }

  /** The deadline of the request can be told. */
  predicate DeadlineTold(env: Env, r: Request) {
    r.policyId in env.policies && V.Told(MatterOf(env, r))
  }

  /** What `create_request` should answer and leave, given the request asked for: the request already
      open under its id, which differs from it in the time at most; or the new one, opened by one more
      entry, unless a view is to be stored and the deadline cannot be told. */
  ghost predicate CreateTold(s: Service, st: Stores, r: Request, after: Stores, outcome: CreateOutcome) {
    var H, id := s.env.gate.H, RequestId(s.env.gate.H, r);
    && after.keys == st.keys
    && (if OpenedUnder(st.log, id) then
          && after == st && outcome.AlreadyOpen?
          && LoadRequest(st.log, id) == Found(outcome.existing)
          && (outcome.existing == r.(createdAt := outcome.existing.createdAt)
              || Collides(H, HashClash(Obj(IdentityFields(outcome.existing)), Obj(IdentityFields(r)))))
        else
          && |after.log| == |st.log| + 1 && after.log[..|st.log|] == st.log && OpeningEntry(H, after.log[|st.log|], r)
          && LoadRequest(after.log, id) == Found(r)
          && outcome == (if s.projects && !DeadlineTold(s.env, r) then CreateRaised else Opened(r))
          && if s.projects && DeadlineTold(s.env, r) then NewViewStored(s.env, r, st.views, after.views, after.log[|st.log|].seqNo)
             else after.views == st.views)
  }

  /** The view of the request just opened is stored: no decisions, and the answer due without any. */
  ghost predicate NewViewStored(env: Env, r: Request, before: map<string, View>, after: map<string, View>, lastSeq: int)
    requires DeadlineTold(env, r)
  {
    exists result :: V.Due(MatterOf(env, r), [], Instant(env.gate.trust.parse(r.createdAt).value), result)
                  && Stored(env, before, after, Record(r, [], result), r.createdAt, lastSeq)
  }

  /** An opening is refused for its policy exactly when the policy is unknown, and for its subject
      exactly when a required field is missing; nothing is then written. */
  lemma RefusesExactly(s: Service, st: Stores, o: Opening, now: string)
    ensures var (after, outcome) := Create(s, st, o, now);
            && (outcome.PolicyUnknown? <==> o.policyId !in s.env.policies)
            && (outcome.SubjectIncomplete? <==> o.policyId in s.env.policies && !Acceptable(s.env, o))
            && (!Acceptable(s.env, o) ==> after == st)
  {
    hide LoadRequest, RequestId, Project, CreatedDraft, EntryFor, PolicyDigest;
  }

  lemma CreateIsTold(s: Service, st: Stores, o: Opening, now: string, r: Request)
    requires EntriesOk(s.env, st.log) && Acceptable(s.env, o) && AsksFor(s.env, o, now, r)
    ensures CreateTold(s, st, r, Create(s, st, o, now).0, Create(s, st, o, now).1)
  {
    hide EntriesOk, LoadRequest, RequestId, PolicyDigest, Project, EntryFor, CreatedDraft, OpeningEntry, OpenedUnder, DeadlineTold, Collides;
    hide IdentityFields, NewViewStored;
    var H, id := s.env.gate.H, RequestId(s.env.gate.H, r);
    assert r == RequestFor(H, o, s.env.policies[o.policyId], now);
    LoadsIfOpened(s.env, st.log, id);
    if OpenedUnder(st.log, id) {
      LoadedHasItsId(s.env, st.log, id);
      RequestIdBinds(H, LoadRequest(st.log, id).request, r);
    } else {
      OpeningIsWritten(H, st.log, r);
      var log := Appended(H, st.log, CreatedDraft(H, r));
      if s.projects {
        NewViewIsTold(s, st, r);
      } else {
        NoProjections(s, log, st.views, r, now, log[|st.log|].seqNo);
      }
      assert Create(s, st, o, now).0.log == log;
    }
  }

  lemma NoProjections(s: Service, log: seq<LedgerEntry>, views: map<string, View>, r: Request, at: string, lastSeq: int)
    requires !s.projects
    ensures Project(s, log, views, r, at, lastSeq) == Some(views)
  {
  }

  lemma OpeningIsWritten(H: Hash, log: seq<LedgerEntry>, r: Request)
    requires LoadRequest(log, RequestId(H, r)).NotFound?
    ensures var after := Appended(H, log, CreatedDraft(H, r));
            && |after| == |log| + 1 && after[..|log|] == log && OpeningEntry(H, after[|log|], r)
            && LoadRequest(after, RequestId(H, r)) == Found(r)
  {
    hide RequestId, RequestJson, RequestFromJson, CanonicalHash, LoadRequest;
    RequestRoundTrip(H, r);
    ServiceGuarantees.CreatedIsFound(H, log, r);
  }

  /** A view of a request just opened can be rendered exactly when its deadline can be told. */
  lemma NewViewIsTold(s: Service, st: Stores, r: Request)
    requires s.projects && EntriesOk(s.env, st.log) && r.policyId in s.env.policies
    requires r.policyDigest == PolicyDigest(s.env.gate.H, s.env.policies[r.policyId])
    requires LoadRequest(st.log, RequestId(s.env.gate.H, r)).NotFound?
    ensures var log := Appended(s.env.gate.H, st.log, CreatedDraft(s.env.gate.H, r));
            var views := Project(s, log, st.views, r, r.createdAt, log[|st.log|].seqNo);
            && (views.Some? <==> DeadlineTold(s.env, r))
            && (views.Some? ==> NewViewStored(s.env, r, st.views, views.value, log[|st.log|].seqNo))
  {
    hide EntriesOk, LoadRequest, RequestId, PolicyDigest, ProjectRecord, EntryFor, RequestJson, DecisionsFor, V.Told, V.Due, V.Comparable;
    hide Evaluate, Stored;
    var H, id := s.env.gate.H, RequestId(s.env.gate.H, r);
    var log := Appended(H, st.log, CreatedDraft(H, r));
    NothingRecordedYet(s.env, st.log, r);
    V.EvaluateExactly(MatterOf(s.env, r), [], r.createdAt);
    CreationIsComparable(MatterOf(s.env, r));
    var derived := Recompute(s.env, log, r, r.createdAt);
    if derived.Derived? {
      ProjectedIsStored(s, st.views, derived.record, r.createdAt, log[|st.log|].seqNo);
      assert derived.record == Record(r, [], derived.record.result);
    }
  }

  lemma CreationIsComparable(m: V.Matter)
    ensures V.Told(m) ==> V.Comparable(m, m.request.createdAt) && V.TimesRead(m, [])
  {
  }

  lemma NothingRecordedYet(env: Env, log: seq<LedgerEntry>, r: Request)
    requires EntriesOk(env, log) && LoadRequest(log, RequestId(env.gate.H, r)).NotFound?
    ensures DecisionsFor(env.gate, Appended(env.gate.H, log, CreatedDraft(env.gate.H, r)), r) == Some([])
  {
    hide EntriesOk, LoadRequest, RequestId, EntryFor, EventsFor, RequestJson, DecodeDecision, MayDecide;
    var H, id := env.gate.H, RequestId(env.gate.H, r);
    var e := EntryFor(H, log, CreatedDraft(H, r));
    OpeningDraftIs(H, log, r);
    EventsForOneMore(log, e, id);
    var events := EventsFor(log, id);
    EnvelopesAppend(events, [e]);
    FalseAlarms.NoEnvelope(e);
    if Envelopes(events) != [] {
      var j := Envelopes(events)[0];
      RecordedEnvelopes(env, log, id, j);
    }
  }

  lemma OpeningDraftIs(H: Hash, log: seq<LedgerEntry>, r: Request)
    ensures var e := EntryFor(H, log, CreatedDraft(H, r));
            e.eventType == "request.created" && e.requestId == Some(RequestId(H, r)) && e.payload == RequestJson(H, r)
  {
    hide RequestId, RequestJson, CanonicalHash;
  }

  /** In every run, an acceptable opening is answered as it should be. */
  lemma CreateAnswers(s: Service, ops: seq<Op>, o: Opening, now: string, r: Request)
    requires Acceptable(s.env, o) && AsksFor(s.env, o, now, r)
    ensures CreateTold(s, RunAll(s, ops), r, Create(s, RunAll(s, ops), o, now).0, Create(s, RunAll(s, ops), o, now).1)
  {
    hide RunAll, Create, CreateTold, EntriesOk, Linked, Acceptable, AsksFor;
    EveryRunIsSound(s, ops);
    CreateIsTold(s, RunAll(s, ops), o, now, r);
  }

  /** Openings whose requests share an id are the same opening, and of the same policy, or two texts
      with one hash have been found: those of the requests, or those of the policies. */
  lemma OpeningIdsBind(env: Env, later: Env, o: Opening, p: Opening, now: string, at: string, r: Request, q: Request)
    requires env.gate.H == later.gate.H && AsksFor(env, o, now, r) && AsksFor(later, p, at, q)
    requires RequestId(env.gate.H, r) == RequestId(env.gate.H, q)
    ensures || (o == p && env.policies[o.policyId] == later.policies[p.policyId])
            || Collides(env.gate.H, HashClash(Obj(IdentityFields(r)), Obj(IdentityFields(q))))
            || Collides(env.gate.H, HashClash(PolicyJson(env.policies[o.policyId]), PolicyJson(later.policies[p.policyId])))
  {
    hide RequestId, IdentityFields, PolicyDigest, PolicyJson, Collides, HashClash;
    var H := env.gate.H;
    RequestIdBinds(H, r, q);
    if PolicyDigest(H, env.policies[o.policyId]) == PolicyDigest(H, later.policies[p.policyId]) {
      PolicyDigestBinds(H, env.policies[o.policyId], later.policies[p.policyId]);
    }
  }

  /** The entry opens what the operation asked for. */
  ghost predicate OpensWhatWasAsked(env: Env, op: Op, e: LedgerEntry) {
    op.CreateOp? && Acceptable(env, op.opening)
    && exists r :: AsksFor(env, op.opening, op.now, r) && OpeningEntry(env.gate.H, e, r)
  }

  lemma OpensAsAsked(s: Service, st: Stores, op: Op, e: LedgerEntry)
    requires e in Perform(s, st, op).log && e.eventType == "request.created" && e !in st.log
    ensures OpensWhatWasAsked(s.env, op, e)
  {
    hide LoadRequest, RequestId, Project, PolicyDigest, CreatedDraft, Submit, LatestCheckpoint, RebuildAll, EntryFor, BuildCheckpoint;
    hide SignCheckpoint, PublishedDraft;
    match op
    case CreateOp(o, now) =>
      var H := s.env.gate.H;
      var r := RequestFor(H, o, s.env.policies[o.policyId], now);
      OpeningIsWritten(H, st.log, r);
      assert AsksFor(s.env, o, now, r);
    case SubmitOp(envelope, times) =>
      ServiceGuarantees.SubmitOpensNothing(s, st, envelope, times, e);
      assert false;
    case PublishOp(signer, at) =>
      PublishedIsNoOpening(s, st, signer, at, e);
      assert false;
    case RebuildOp(_) =>
      assert false;
  }

  lemma PublishedIsNoOpening(s: Service, st: Stores, signer: Signer, at: string, e: LedgerEntry)
    requires e in Publish(s, st, signer, at).0.log && e.eventType == "request.created"
    ensures e in st.log
  {
    hide CanonicalHash, LatestCheckpoint, SignCheckpoint, BuildCheckpoint, CheckpointJson;
  }

  /** Nothing is opened that nobody asked for: in every run, every opening entry holds, as read back,
      exactly the request some operation asked for, of the policy at hand and at that operation's time. */
  lemma {:induction false} OpenedWasAsked(s: Service, ops: seq<Op>, e: LedgerEntry)
    requires e in RunAll(s, ops).log && e.eventType == "request.created"
    ensures exists op :: op in ops && OpensWhatWasAsked(s.env, op, e)
  {
    hide Perform, OpensWhatWasAsked;
    if ops != [] {
      var init, op := ops[..|ops| - 1], ops[|ops| - 1];
      if e in RunAll(s, init).log {
        OpenedWasAsked(s, init, e);
      } else {
        OpensAsAsked(s, RunAll(s, init), op, e);
      }
      assert ops == init + [op];
    }
  }
}
