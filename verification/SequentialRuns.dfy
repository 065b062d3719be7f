/** Sequential runs of the service: what holds of the ledger after every one of them, whatever the
    clock reads, whoever signs checkpoints and whatever is submitted. */
module SequentialRuns {
  import opened ByteStrings
  import opened JsonText
  import opened Canonical
  import opened Models
  import opened Datetime
  import opened Merkle
  import opened Chain
  import opened PolicyEngine
  import opened Keys
  import opened Verifier
  import opened Envelope
  import opened SignedCheckpoints
  import opened Ceremony
  import opened Reads
  import opened Records
  import opened Operations
  import opened LedgerHealth
  import Protocol

  datatype Op =
    | CreateOp(opening: Opening, now: string)
    | SubmitOp(envelope: Json, times: Times)
    | PublishOp(signer: Signer, at: string)
    | RebuildOp(asOf: string)

  function Perform(s: Service, st: Stores, op: Op): Stores {
    match op
    case CreateOp(opening, now) => Create(s, st, opening, now).0
    case SubmitOp(envelope, times) => Submit(s, st, envelope, times).0
    case PublishOp(signer, at) => Publish(s, st, signer, at).0
    case RebuildOp(asOf) => Rebuild(s, st, asOf).0
  }

  function RunAll(s: Service, ops: seq<Op>): Stores {
    if ops == [] then EMPTY else Perform(s, RunAll(s, ops[..|ops| - 1]), ops[|ops| - 1])
  }

  // ---------------------------------------------------------- one append at a time

  /** The chain is linked, and every entry is what its type says. */
  ghost predicate Sound(env: Env, log: seq<LedgerEntry>) {
    Linked(env.gate.H, log, 0, ZERO_HASH) && EntriesOk(env, log)
  }

  lemma AppendedIsLinked(H: Hash, log: seq<LedgerEntry>, d: Draft)
    requires Linked(H, log, 0, ZERO_HASH)
    ensures Linked(H, Appended(H, log, d), 0, ZERO_HASH)
    ensures EntryFor(H, log, d).seqNo == |log|
  {
    hide CoreHash;
    var more := Appended(H, log, d);
    var e := EntryFor(H, log, d);
    var n := |log|;
    if n > 0 {
      assert LinkedAt(H, log, n - 1, 0, ZERO_HASH);
    }
    SealedHash(H, log, d);
    forall i | 0 <= i < |more|
      ensures LinkedAt(H, more, i, 0, ZERO_HASH)
    {
      if i < n {
        assert LinkedAt(H, log, i, 0, ZERO_HASH);
      }
    }
  }

  lemma SealedHash(H: Hash, log: seq<LedgerEntry>, d: Draft)
    ensures var e := EntryFor(H, log, d); e.entryHash == CoreHash(H, e)
  {
    hide CanonicalHash;
    var e := EntryFor(H, log, d);
    assert CoreJson(e.(entryHash := "")) == CoreJson(e);
  }

  lemma SoundAppend(env: Env, log: seq<LedgerEntry>, d: Draft)
    requires Sound(env, log) && EntryOk(env, Appended(env.gate.H, log, d), EntryFor(env.gate.H, log, d))
    ensures Sound(env, Appended(env.gate.H, log, d))
  {
    hide Linked, EntryOk, EntryFor;
    AppendedIsLinked(env.gate.H, log, d);
    EntriesStayOk(env, log, EntryFor(env.gate.H, log, d));
  }

  lemma CreateStep(env: Env, log: seq<LedgerEntry>, r: Request)
    requires Sound(env, log) && Pinned(env, r) && LoadRequest(log, RequestId(env.gate.H, r)).NotFound?
    ensures Sound(env, Appended(env.gate.H, log, CreatedDraft(env.gate.H, r)))
  {
    hide Sound, EntryOk, LoadRequest, RequestId, RequestJson, Pinned;
    var d := CreatedDraft(env.gate.H, r);
    CreatedEntryOk(env, log, EntryFor(env.gate.H, log, d), r);
    SoundAppend(env, log, d);
  }

  lemma CreatedEntryOk(env: Env, log: seq<LedgerEntry>, e: LedgerEntry, r: Request)
    requires e.eventType == CREATED && e.requestId == Some(RequestId(env.gate.H, r)) && e.payload == RequestJson(env.gate.H, r)
    requires Pinned(env, r) && LoadRequest(log, RequestId(env.gate.H, r)).NotFound?
    ensures EntryOk(env, log + [e], e)
  {
    hide RequestId, RequestJson, RequestFromJson, Pinned, EventsFor;
    var id := RequestId(env.gate.H, r);
    RequestRoundTrip(env.gate.H, r);
    EventsForOneMore(log, e, id);
    FirstCreatedAppends(EventsFor(log, id), [e]);
  }

  lemma PublishStep(env: Env, log: seq<LedgerEntry>, signer: Signer, now: string, previous: Option<Checkpoint>)
    requires Sound(env, log)
    ensures var cp := SignCheckpoint(BuildCheckpoint(env.gate.H, Leaves(log), env.gate.logId, now, previous), signer);
            Sound(env, Appended(env.gate.H, log, PublishedDraft(cp)))
  {
    hide Sound, EntryOk, MerkleRoot, CheckpointJson, CommitsTo, SignatureEntry, Leaves, CheckpointFromJson, CheckpointSignable;
    var H := env.gate.H;
    var unsigned := BuildCheckpoint(H, Leaves(log), env.gate.logId, now, previous);
    var cp := SignCheckpoint(unsigned, signer);
    BuiltCheckpointCommits(H, log, env.gate.logId, now, previous);
    SignedCommits(H, unsigned, signer, log);
    CheckpointRoundTrip(cp);
    var e := EntryFor(H, log, PublishedDraft(cp));
    CommitsLonger(H, cp, log, [e]);
    PublishedEntryOk(env, log + [e], e, cp);
    SoundAppend(env, log, PublishedDraft(cp));
  }

  lemma PublishedEntryOk(env: Env, log: seq<LedgerEntry>, e: LedgerEntry, cp: Checkpoint)
    requires e.eventType == PUBLISHED && e.requestId == None && CheckpointFromJson(e.payload) == Some(cp)
    requires CommitsTo(env.gate.H, cp, log)
    ensures EntryOk(env, log, e)
  {
    hide CommitsTo, CheckpointFromJson;
  }

  lemma SignedCommits(H: Hash, cp: Checkpoint, signer: Signer, log: seq<LedgerEntry>)
    requires CommitsTo(H, cp, log)
    ensures CommitsTo(H, SignCheckpoint(cp, signer), log)
  {
    hide MerkleRoot, Leaves, CheckpointSignable, SignatureEntry;
  }

  /** A decision that has passed every check. */
  lemma RecordedStep(env: Env, log: seq<LedgerEntry>, envelope: Json, d: Decision, r: Request, now: string)
    requires Sound(env, log) && DecodeDecision(envelope) == Some(d) && LoadRequest(log, d.requestId) == Found(r)
    requires Screen(env.gate, envelope, d, r, now).Passed?
    ensures Sound(env, Appended(env.gate.H, log, RecordedDraft(envelope, d)))
  {
    hide Sound, LoadRequest, DecodeDecision, MayDecide, ContextDigest, Past, Within;
    var e := EntryFor(env.gate.H, log, RecordedDraft(envelope, d));
    NotPastIsWithin(env.gate.trust.parse, d.decidedAt, r.notValidAfter, env.gate.skew);
    LoadRequestIsStable(log, [e], d.requestId);
    VettedEntryOk(env, log + [e], e, d);
    SoundAppend(env, log, RecordedDraft(envelope, d));
  }

  lemma VettedEntryOk(env: Env, log: seq<LedgerEntry>, e: LedgerEntry, d: Decision)
    requires e.eventType == RECORDED && DecodeDecision(e.payload) == Some(d)
    requires e.requestId == Some(d.requestId) && e.recordedAt == d.decidedAt
    requires MayDecide(env.gate, e.payload, d) == Some(true) && LoadRequest(log, d.requestId).Found?
    requires d.contextDigest == ContextDigest(env.gate.H, LoadRequest(log, d.requestId).request)
    requires Within(env.gate.trust.parse, d.decidedAt, LoadRequest(log, d.requestId).request.notValidAfter, env.gate.skew)
    ensures EntryOk(env, log, e)
  {
    hide LoadRequest, DecodeDecision, MayDecide, ContextDigest, Within;
  }

  /** A status that is not pending. */
  lemma ChangeStep(env: Env, log: seq<LedgerEntry>, record: Record, evaluated: string, at: string)
    requires Sound(env, log) && LoadRequest(log, RequestId(env.gate.H, record.request)).Found? && !record.result.status.Pending?
    ensures Sound(env, Appended(env.gate.H, log, StatusDraft(env, record, evaluated, at)))
  {
    hide Sound, LoadRequest, StatusIn, StatusPayload, StatusName, RequestId;
    var d := StatusDraft(env, record, evaluated, at);
    var e := EntryFor(env.gate.H, log, d);
    StatusIsInPayload(env, record, evaluated);
    LoadRequestIsStable(log, [e], RequestId(env.gate.H, record.request));
    assert EntryOk(env, log + [e], e);
    SoundAppend(env, log, d);
  }

  // ------------------------------------------------------------------- every run

  lemma RecordIsSound(s: Service, st: Stores, r: Request, d: Decision, envelope: Json, t: Times)
    requires Sound(s.env, st.log) && DecodeDecision(envelope) == Some(d) && LoadRequest(st.log, d.requestId) == Found(r)
    requires Screen(s.env.gate, envelope, d, r, t.screened).Passed?
    ensures Sound(s.env, RecordDecision(s, st, r, d, envelope, t).0.log)
  {
    hide Linked, EntriesOk, LoadRequest, DecodeDecision, Screen, Recompute, StatusPayload, RequestId, ProjectRecord;
    var log := Appended(s.env.gate.H, st.log, RecordedDraft(envelope, d));
    RecordedStep(s.env, st.log, envelope, d, r, t.screened);
    LoadedHasItsId(s.env, st.log, d.requestId);
    LoadRequestIsStable(st.log, [EntryFor(s.env.gate.H, st.log, RecordedDraft(envelope, d))], d.requestId);
    if Recompute(s.env, log, r, t.evaluated).Derived? {
      var record := Recompute(s.env, log, r, t.evaluated).record;
      DerivedFor(s.env, log, r, t.evaluated);
      if !record.result.status.Pending? {
        ChangeStep(s.env, log, record, t.evaluated, t.changed);
      }
    }
  }

  lemma SubmitIsSound(s: Service, st: Stores, envelope: Json, t: Times)
    requires Sound(s.env, st.log)
    ensures Sound(s.env, Submit(s, st, envelope, t).0.log)
  {
    hide Sound, RecordDecision, LoadRequest, DecodeDecision, Screen, StatusOf, Fingerprint;
    var d := DecodeDecision(envelope);
    if d.Some? && LoadRequest(st.log, d.value.requestId).Found? {
      var r := LoadRequest(st.log, d.value.requestId).request;
      if Screen(s.env.gate, envelope, d.value, r, t.screened).Passed? {
        RecordIsSound(s, st, r, d.value, envelope, t);
      }
    }
  }

  lemma CreateIsSound(s: Service, st: Stores, o: Opening, now: string)
    requires Sound(s.env, st.log)
    ensures Sound(s.env, Create(s, st, o, now).0.log)
  {
    hide Sound, LoadRequest, Project, CreatedDraft, PolicyDigest, RequestId;
    if o.policyId in s.env.policies {
      var r := RequestFor(s.env.gate.H, o, s.env.policies[o.policyId], now);
      if LoadRequest(st.log, RequestId(s.env.gate.H, r)).NotFound? {
        CreateStep(s.env, st.log, r);
      }
    }
  }

  lemma PerformIsSound(s: Service, st: Stores, op: Op)
    requires Sound(s.env, st.log)
    ensures Sound(s.env, Perform(s, st, op).log)
  {
    hide Sound, Create, Submit, LatestCheckpoint, SignCheckpoint, BuildCheckpoint, PublishedDraft, RebuildAll, Appended;
    match op
    case CreateOp(opening, now) =>
      CreateIsSound(s, st, opening, now);
    case SubmitOp(envelope, times) =>
      SubmitIsSound(s, st, envelope, times);
    case PublishOp(signer, at) =>
      if LatestCheckpoint(st.log).Some? {
        PublishStep(s.env, st.log, signer, at, LatestCheckpoint(st.log).value);
      }
    case RebuildOp(_) =>
  }

  /** In every run the chain is intact, and every entry is what its type says: an opening is the one
      opening of the request it holds, a decision is vetted, a checkpoint commits to entries of this
      ledger, a status belongs to a request and is not pending. */
  lemma {:induction false} EveryRunIsSound(s: Service, ops: seq<Op>)
    ensures Sound(s.env, RunAll(s, ops).log)
  {
    hide Perform, Sound;
    if ops == [] {
      EmptyIsSound(s.env);
    } else {
      EveryRunIsSound(s, ops[..|ops| - 1]);
      PerformIsSound(s, RunAll(s, ops[..|ops| - 1]), ops[|ops| - 1]);
    }
  }

  lemma EmptyIsSound(env: Env)
    ensures Sound(env, [])
  {
  }

  lemma SubmitExtends(s: Service, st: Stores, envelope: Json, t: Times)
    ensures st.log <= Submit(s, st, envelope, t).0.log
  {
    hide LoadRequest, RecordDecision, Screen, DecodeDecision, StatusOf, Fingerprint;
    forall r, d
      ensures st.log <= RecordDecision(s, st, r, d, envelope, t).0.log
    {
      RecordExtends(s, st, r, d, envelope, t);
    }
  }

  lemma RecordExtends(s: Service, st: Stores, r: Request, d: Decision, envelope: Json, t: Times)
    ensures st.log <= RecordDecision(s, st, r, d, envelope, t).0.log
  {
    hide Recompute, EntryFor, ProjectRecord, StatusDraft;
  }

  lemma PerformExtends(s: Service, st: Stores, op: Op)
    ensures st.log <= Perform(s, st, op).log
  {
    hide Submit, LoadRequest, EntryFor, LatestCheckpoint, RebuildAll, Project, RequestId, PolicyDigest, SignCheckpoint, BuildCheckpoint;
    if op.SubmitOp? {
      SubmitExtends(s, st, op.envelope, op.times);
    }
  }

  lemma {:induction false} RunExtends(s: Service, ops: seq<Op>, more: seq<Op>)
    ensures RunAll(s, ops).log <= RunAll(s, ops + more).log
  {
    hide Perform;
    if more == [] {
      assert ops + more == ops;
    } else {
      var n := |more| - 1;
      assert (ops + more)[..|ops| + n] == ops + more[..n];
      RunExtends(s, ops, more[..n]);
      PerformExtends(s, RunAll(s, ops + more[..n]), more[n]);
    }
  }

  lemma RunOne(s: Service, ops: seq<Op>, op: Op)
    ensures RunAll(s, ops + [op]) == Perform(s, RunAll(s, ops), op)
  {
    hide Perform;
    assert (ops + [op])[..|ops|] == ops;
  }

  // ------------------------------------------------------- decisions stay counted

  /** In every run, a decision that was recorded is among those every later reading of its request
      returns; and such a reading never raises. */
  lemma RecordedStaysCounted(s: Service, ops: seq<Op>, e: LedgerEntry, more: seq<Op>)
    requires e in RunAll(s, ops).log && e.eventType == RECORDED
    ensures var log, d := RunAll(s, ops + more).log, DecodeDecision(e.payload);
            && d.Some? && LoadRequest(log, d.value.requestId).Found?
            && var ds := DecisionsFor(s.env.gate, log, LoadRequest(log, d.value.requestId).request);
               ds.Some? && d.value in ds.value
  {
    hide RunAll, DecodeDecision, LoadRequest, EntryOk, RequestId, MayDecide, ContextDigest, EventsFor, Within;
    hide AuthorizedAmong, Envelopes, Linked;
    var log := RunAll(s, ops + more).log;
    RunExtends(s, ops, more);
    assert e in log by {
      var i :| 0 <= i < |RunAll(s, ops).log| && RunAll(s, ops).log[i] == e;
      assert log[i] == e;
    }
    EveryRunIsSound(s, ops + more);
    RecordedHere(s.env, log, e);
    var d := DecodeDecision(e.payload).value;
    LoadedHasItsId(s.env, log, d.requestId);
    RecordedAreReadable(s.env, log, d.requestId);
    EventsForOnly(log, d.requestId);
    EnvelopesAre(EventsFor(log, d.requestId));
    DecodedAre(Envelopes(EventsFor(log, d.requestId)), d);
  }

  /** The submission is an answered challenge of a request this service holds, within skew and window,
      by a key valid at the time, under a key not used before; and it is evaluated at a time that can
      be compared with the closing time. */
  ghost predicate Answered(s: Service, st: Stores, d: Decision, signer: Signer, t: Times) {
    && LoadRequest(st.log, d.requestId).Found?
    && var g, r := s.env.gate, LoadRequest(st.log, d.requestId).request;
       && d.contextDigest == ContextDigest(g.H, r)
       && Within(g.trust.parse, d.decidedAt, t.screened, g.skew) && Within(g.trust.parse, d.decidedAt, r.notValidAfter, g.skew)
       && WellKeyed(g.trust.keys) && Signs(g.trust, signer)
       && MaySpeakFor(g.trust.keys[signer.keyid], d.approverId, g.logId, Known(g.identities, d.approverId))
       && ValidAt(g.trust.parse, g.trust.keys[signer.keyid], d.decidedAt) == Some(true)
       && (s.keyed ==> Protocol.KeyOf(d) !in st.keys)
       && g.trust.parse(t.evaluated).Some?
       && Aware(g.trust.parse(t.evaluated).value) == Aware(g.trust.parse(r.notValidAfter).value)
  }

  /** The detached ceremony end to end, in every run: a properly answered challenge is appended, and
      every later reading of the request counts it; and the call returns exactly when the request's
      deadline can be told, and otherwise raises with the decision appended. */
  lemma CeremonyIsRecorded(s: Service, ops: seq<Op>, d: Decision, signer: Signer, t: Times, more: seq<Op>)
    requires Answered(s, RunAll(s, ops), d, signer, t)
    ensures var op := SubmitOp(Answer(Prepare(d), signer), t);
            var r := LoadRequest(RunAll(s, ops).log, d.requestId).request;
            var outcome := Submit(s, RunAll(s, ops), Answer(Prepare(d), signer), t).1;
            && (outcome.DecisionRecorded? <==> WindowOpens(s.env, r))
            && (outcome.SubmitRaised? <==> !WindowOpens(s.env, r))
            && var log := RunAll(s, ops + [op] + more).log;
               && LoadRequest(log, d.requestId) == Found(r)
               && var ds := DecisionsFor(s.env.gate, log, r);
                  ds.Some? && d in ds.value
  {
    hide RunAll, DecodeDecision, LoadRequest, RecordDecision, DecisionsFor, Sound, Answer, Prepare, WindowOpens, Screen;
    hide ContextDigest, ValidAt, Signs, MaySpeakFor, Fingerprint, Protocol.KeyOf, WellKeyed;
    var envelope := Answer(Prepare(d), signer);
    var op := SubmitOp(envelope, t);
    var st := RunAll(s, ops);
    var r := LoadRequest(st.log, d.requestId).request;
    CeremonyPasses(s.env.gate, d, r, signer, t.screened);
    EveryRunIsSound(s, ops);
    RunOne(s, ops, op);
    var after := Submit(s, st, envelope, t).0;
    assert after.log == RecordDecision(s, st, r, d, envelope, t).0.log;
    RecordReturns(s, st, r, d, envelope, t);
    var e := EntryFor(s.env.gate.H, st.log, RecordedDraft(envelope, d));
    RecordedIsThere(s, st, r, d, envelope, t);
    RecordedStaysCounted(s, ops + [op], e, more);
    StillLoads(s, ops, [op] + more, d.requestId);
    assert ops + ([op] + more) == ops + [op] + more;
  }

  lemma StillLoads(s: Service, ops: seq<Op>, more: seq<Op>, id: string)
    requires LoadRequest(RunAll(s, ops).log, id).Found?
    ensures LoadRequest(RunAll(s, ops + more).log, id) == LoadRequest(RunAll(s, ops).log, id)
  {
    hide RunAll, LoadRequest;
    RunExtends(s, ops, more);
    var log, later := RunAll(s, ops).log, RunAll(s, ops + more).log;
    assert later == log + later[|log|..];
    LoadRequestIsStable(log, later[|log|..], id);
  }

  /** Recording returns exactly when the deadline can be told. */
  lemma RecordReturns(s: Service, st: Stores, r: Request, d: Decision, envelope: Json, t: Times)
    requires Sound(s.env, st.log) && DecodeDecision(envelope) == Some(d) && LoadRequest(st.log, d.requestId) == Found(r)
    requires Screen(s.env.gate, envelope, d, r, t.screened).Passed?
    requires s.env.gate.trust.parse(t.evaluated).Some? && s.env.gate.trust.parse(r.notValidAfter).Some?
    requires Aware(s.env.gate.trust.parse(t.evaluated).value) == Aware(s.env.gate.trust.parse(r.notValidAfter).value)
    ensures RecordDecision(s, st, r, d, envelope, t).1.Some? <==> WindowOpens(s.env, r)
  {
    hide Linked, EntriesOk, LoadRequest, DecodeDecision, Screen, Recompute, StatusPayload, RequestId, ProjectRecord, CaseFor;
    var log := Appended(s.env.gate.H, st.log, RecordedDraft(envelope, d));
    RecordedStep(s.env, st.log, envelope, d, r, t.screened);
    LoadRequestIsStable(st.log, [EntryFor(s.env.gate.H, st.log, RecordedDraft(envelope, d))], d.requestId);
    Derives(s.env, log, d.requestId, t.evaluated);
  }

  lemma RecordedIsThere(s: Service, st: Stores, r: Request, d: Decision, envelope: Json, t: Times)
    ensures var e := EntryFor(s.env.gate.H, st.log, RecordedDraft(envelope, d));
            e in RecordDecision(s, st, r, d, envelope, t).0.log && e.eventType == RECORDED && e.payload == envelope
  {
    hide Recompute, ProjectRecord, StatusDraft, CanonicalHash;
  }
}
