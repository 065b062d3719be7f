/** What holds of every sequential run, whatever the clock reads, whoever signs checkpoints and
    whatever is submitted. */
module ServiceGuarantees {
  import opened ByteStrings
  import opened JsonText
  import opened Canonical
  import opened Models
  import opened Chain
  import opened PolicyEngine
  import opened Keys
  import opened Verifier
  import opened Envelope
  import opened Ceremony
  import opened SignedCheckpoints
  import opened Reads
  import opened Records
  import opened Operations
  import opened LedgerHealth
  import opened SequentialRuns
  import Protocol
  import Merkle

  // ------------------------------------------------ nothing unverified is persisted

  /** Nothing unverified is persisted: in every run the chain is intact, and every decision recorded
      is vetted against the request as the whole ledger holds it. */
  lemma NothingUnverifiedIsPersisted(s: Service, ops: seq<Op>, e: LedgerEntry)
    requires e in RunAll(s, ops).log && e.eventType == RECORDED
    ensures Linked(s.env.gate.H, RunAll(s, ops).log, 0, ZERO_HASH) && Vetted(s.env, RunAll(s, ops).log, e)
  {
    hide RunAll, Vetted, EntriesOk, Linked;
    EveryRunIsSound(s, ops);
    RecordedHere(s.env, RunAll(s, ops).log, e);
  }

  /** An operation adds no decision but the one submitted. */
  lemma OnlySubmitted(s: Service, st: Stores, op: Op, e: LedgerEntry)
    requires e in Perform(s, st, op).log && e.eventType == RECORDED
    ensures e in st.log || (op.SubmitOp? && op.envelope == e.payload)
  {
    hide LoadRequest, CanonicalHash, LatestCheckpoint, RebuildAll, Project, RequestId, PolicyDigest, SignCheckpoint, BuildCheckpoint;
    hide RequestJson, CheckpointJson, Submit;
    if op.SubmitOp? {
      OnlyThisEnvelope(s, st, op.envelope, op.times, e);
    }
  }

  lemma OnlyThisEnvelope(s: Service, st: Stores, envelope: Json, t: Times, e: LedgerEntry)
    requires e in Submit(s, st, envelope, t).0.log && e.eventType == RECORDED
    ensures e in st.log || e.payload == envelope
  {
    hide RecordDecision, LoadRequest, DecodeDecision, Screen, StatusOf, Fingerprint;
    forall r, d | e in RecordDecision(s, st, r, d, envelope, t).0.log
      ensures e in st.log || e.payload == envelope
    {
      OnlyOneRecorded(s, st, r, d, envelope, t, e);
    }
  }

  lemma OnlyOneRecorded(s: Service, st: Stores, r: Request, d: Decision, envelope: Json, t: Times, e: LedgerEntry)
    requires e in RecordDecision(s, st, r, d, envelope, t).0.log && e.eventType == RECORDED
    ensures e in st.log || e.payload == envelope
  {
    hide Recompute, ProjectRecord, StatusPayload, CanonicalHash, RequestId;
  }

  /** Nothing is invented: every recorded decision is an envelope that was submitted. */
  lemma {:induction false} RecordedWasSubmitted(s: Service, ops: seq<Op>, e: LedgerEntry)
    requires e in RunAll(s, ops).log && e.eventType == RECORDED
    ensures exists op :: op in ops && op.SubmitOp? && op.envelope == e.payload
  {
    hide Perform;
    if ops != [] {
      var init, op := ops[..|ops| - 1], ops[|ops| - 1];
      OnlySubmitted(s, RunAll(s, init), op, e);
      if e in RunAll(s, init).log {
        RecordedWasSubmitted(s, init, e);
      }
      assert ops == init + [op];
    }
  }

  /** The request an opening asks for. */
  predicate Opens(s: Service, op: Op, payload: Json) {
    && op.CreateOp? && op.opening.policyId in s.env.policies
    && payload == RequestJson(s.env.gate.H, RequestFor(s.env.gate.H, op.opening, s.env.policies[op.opening.policyId], op.now))
  }

  lemma OnlyOpened(s: Service, st: Stores, op: Op, e: LedgerEntry)
    requires e in Perform(s, st, op).log && e.eventType == CREATED
    ensures e in st.log || Opens(s, op, e.payload)
  {
    hide LoadRequest, CanonicalHash, LatestCheckpoint, RebuildAll, Project, RequestId, PolicyDigest, SignCheckpoint, BuildCheckpoint;
    hide RequestJson, CheckpointJson, Submit;
    if op.SubmitOp? {
      SubmitOpensNothing(s, st, op.envelope, op.times, e);
    }
  }

  lemma SubmitOpensNothing(s: Service, st: Stores, envelope: Json, t: Times, e: LedgerEntry)
    requires e in Submit(s, st, envelope, t).0.log && e.eventType == CREATED
    ensures e in st.log
  {
    hide RecordDecision, LoadRequest, DecodeDecision, Screen, StatusOf, Fingerprint;
    forall r, d | e in RecordDecision(s, st, r, d, envelope, t).0.log
      ensures e in st.log
    {
      RecordOpensNothing(s, st, r, d, envelope, t, e);
    }
  }

  lemma RecordOpensNothing(s: Service, st: Stores, r: Request, d: Decision, envelope: Json, t: Times, e: LedgerEntry)
    requires e in RecordDecision(s, st, r, d, envelope, t).0.log && e.eventType == CREATED
    ensures e in st.log
  {
    hide Recompute, ProjectRecord, StatusPayload, CanonicalHash, RequestId;
  }

  /** And every request was opened. */
  lemma {:induction false} CreatedWasOpened(s: Service, ops: seq<Op>, e: LedgerEntry)
    requires e in RunAll(s, ops).log && e.eventType == CREATED
    ensures exists op :: op in ops && Opens(s, op, e.payload)
  {
    hide Perform, Opens;
    if ops != [] {
      var init, op := ops[..|ops| - 1], ops[|ops| - 1];
      OnlyOpened(s, RunAll(s, init), op, e);
      if e in RunAll(s, init).log {
        CreatedWasOpened(s, init, e);
      }
      assert ops == init + [op];
    }
  }

  // ------------------------------------------------------------ retries are safe

  /** The id of a request does not depend on when it is opened. */
  lemma OpeningFixesId(H: Hash, o: Opening, p: Policy, now: string, later: string)
    ensures RequestId(H, RequestFor(H, o, p, now)) == RequestId(H, RequestFor(H, o, p, later))
  {
    hide CanonicalHash;
    assert IdentityFields(RequestFor(H, o, p, now)) == IdentityFields(RequestFor(H, o, p, later));
  }

  /** Creating again with the same arguments, at any time, changes nothing and returns the request
      first created. */
  lemma CreatingAgain(s: Service, st: Stores, o: Opening, now: string, later: string)
    requires Create(s, st, o, now).1.Opened?
    ensures var first := Create(s, st, o, now);
            Create(s, first.0, o, later) == (first.0, AlreadyOpen(first.1.request))
  {
    hide Project, RequestId, RequestJson, PolicyDigest, EntryFor, LoadRequest;
    var H := s.env.gate.H;
    var p := s.env.policies[o.policyId];
    var r := RequestFor(H, o, p, now);
    OpeningFixesId(H, o, p, now, later);
    CreatedIsFound(H, st.log, r);
  }

  lemma CreatedIsFound(H: Hash, log: seq<LedgerEntry>, r: Request)
    requires LoadRequest(log, RequestId(H, r)).NotFound?
    ensures LoadRequest(Appended(H, log, CreatedDraft(H, r)), RequestId(H, r)) == Found(r)
  {
    hide RequestId, RequestJson, RequestFromJson, CanonicalHash, EventsFor;
    var e := EntryFor(H, log, CreatedDraft(H, r));
    RequestRoundTrip(H, r);
    EventsForOneMore(log, e, RequestId(H, r));
    FirstCreatedAppends(EventsFor(log, RequestId(H, r)), [e]);
    assert FirstCreated([e]) == Found(r);
  }

  /** Once recorded, a decision's key is held with its fingerprint. */
  lemma RecordedHoldsKey(s: Service, st: Stores, envelope: Json, t: Times)
    requires s.keyed && Submit(s, st, envelope, t).1.DecisionRecorded?
    ensures DecodeDecision(envelope).Some?
    ensures var d, keys := DecodeDecision(envelope).value, Submit(s, st, envelope, t).0.keys;
            Protocol.KeyOf(d) in keys && keys[Protocol.KeyOf(d)].fingerprint == Fingerprint(s.env.gate.H, d)
  {
    hide RecordDecision, DecodeDecision, LoadRequest, Screen, Fingerprint, Recompute, Protocol.KeyOf;
  }

  /** A submission whose key is held changes nothing, and conflicts if it gets as far as the key and
      the fingerprint is another. */
  lemma HeldKeyStops(s: Service, st: Stores, envelope: Json, t: Times)
    requires s.keyed && DecodeDecision(envelope).Some? && Protocol.KeyOf(DecodeDecision(envelope).value) in st.keys
    ensures var (after, outcome) := Submit(s, st, envelope, t);
            var d := DecodeDecision(envelope).value;
            && after == st && !outcome.DecisionRecorded?
            && (st.keys[Protocol.KeyOf(d)].fingerprint != Fingerprint(s.env.gate.H, d) ==>
                 outcome.KeyConflict? || outcome.Refused? || outcome.NoSuchRequest? || outcome.SubmitRaised?)
  {
    hide RecordDecision, DecodeDecision, LoadRequest, Screen, Fingerprint, Recompute, Protocol.KeyOf;
  }

  /** Submitting an envelope again once it has been recorded, at any time, changes nothing: not the
      ledger, not the keys, not the views. */
  lemma SubmittingAgain(s: Service, st: Stores, envelope: Json, t: Times, again: Times)
    requires s.keyed && Submit(s, st, envelope, t).1.DecisionRecorded?
    ensures var after := Submit(s, st, envelope, t).0;
            Submit(s, after, envelope, again).0 == after && !Submit(s, after, envelope, again).1.DecisionRecorded?
  {
    hide Submit, DecodeDecision, Fingerprint, Protocol.KeyOf;
    RecordedHoldsKey(s, st, envelope, t);
    HeldKeyStops(s, Submit(s, st, envelope, t).0, envelope, again);
  }

  /** A different decision under a used key is refused, and changes nothing, unless the two decisions
      collide. */
  lemma KeysAreNotReused(s: Service, st: Stores, envelope: Json, t: Times, other: Json, again: Times)
    requires s.keyed && Submit(s, st, envelope, t).1.DecisionRecorded?
    requires DecodeDecision(envelope).Some? && DecodeDecision(other).Some?
    requires var d, e := DecodeDecision(envelope).value, DecodeDecision(other).value;
             Protocol.KeyOf(d) == Protocol.KeyOf(e) && d != e
    ensures var after := Submit(s, st, envelope, t).0;
            Submit(s, after, other, again).0 == after
    ensures var d, e := DecodeDecision(envelope).value, DecodeDecision(other).value;
            var outcome := Submit(s, Submit(s, st, envelope, t).0, other, again).1;
            || outcome.KeyConflict? || outcome.Refused? || outcome.NoSuchRequest? || outcome.SubmitRaised?
            || Collides(s.env.gate.H, HashClash(DecisionJson(d), DecisionJson(e)))
  {
    hide Submit, DecodeDecision, Fingerprint, Protocol.KeyOf, Collides;
    var d, e := DecodeDecision(envelope).value, DecodeDecision(other).value;
    RecordedHoldsKey(s, st, envelope, t);
    HeldKeyStops(s, Submit(s, st, envelope, t).0, other, again);
    if Fingerprint(s.env.gate.H, d) == Fingerprint(s.env.gate.H, e) {
      FingerprintBinds(s.env.gate.H, d, e);
    }
  }

  // ---------------------------------------------------------- checkpoints chain

  lemma LatestIsThis(log: seq<LedgerEntry>, e: LedgerEntry, cp: Checkpoint)
    requires e.eventType == PUBLISHED && CheckpointFromJson(e.payload) == Some(cp)
    ensures LatestCheckpoint(log + [e]) == Some(Some(cp))
  {
    hide CheckpointFromJson;
  }

  /** A published checkpoint covers every entry before its own, commits to them, and becomes the
      latest; the next one published names its root as the previous one. */
  lemma CheckpointsChain(s: Service, st: Stores, signer: Signer, now: string, next: Signer, later: string)
    requires Publish(s, st, signer, now).1.Some?
    ensures var (after, cp) := Publish(s, st, signer, now);
            && after.log == st.log + [after.log[|st.log|]]
            && cp.value.treeSize == |st.log| && CommitsTo(s.env.gate.H, cp.value, st.log)
            && LatestCheckpoint(after.log) == Some(cp)
            && var second := Publish(s, after, next, later).1;
               second.Some? && second.value.prevRootHash == Some(cp.value.rootHash) && second.value.treeSize == |st.log| + 1
  {
    hide LatestCheckpoint, CheckpointJson, CheckpointFromJson, SignatureEntry, CheckpointSignable, CommitsTo, CanonicalHash, Merkle.MerkleRoot;
    var g := s.env.gate;
    var (after, cp) := Publish(s, st, signer, now);
    CheckpointRoundTrip(cp.value);
    LatestIsThis(st.log, after.log[|st.log|], cp.value);
    var unsigned := BuildCheckpoint(g.H, Leaves(st.log), g.logId, now, LatestCheckpoint(st.log).value);
    BuiltCheckpointCommits(g.H, st.log, g.logId, now, LatestCheckpoint(st.log).value);
    SignedCommits(g.H, unsigned, signer, st.log);
  }
}
