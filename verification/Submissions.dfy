/** What a submission is answered and what it leaves in the stores, said in terms of the envelope and
    of the ledger; and that retries are answered as the first submission was. */
module Submissions {
  import opened ByteStrings
  import opened JsonText
  import opened Canonical
  import opened Models
  import opened Datetime
  import opened Chain
  import opened PolicyEngine
  import opened Keys
  import opened Verifier
  import opened Envelope
  import opened SignedCheckpoints
  import opened Ceremony
  import opened Reads
  import opened Records
  import opened Operations
  import opened LedgerHealth
  import opened SequentialRuns
  import opened Renderings
  import opened Answers
  import V = Verdicts
  import Protocol

  /** The key a decision is recorded under: its own, or else made of request, approver and verdict. */
  function KeyFor(d: Decision): string {
    if |d.idempotencyKey| > 0 then d.idempotencyKey else d.requestId + ":" + d.approverId + ":" + d.verdict
  }

  lemma KeysAgree(d: Decision)
    ensures Protocol.KeyOf(d) == KeyFor(d)
  {
  }

  // ---------------------------------------------------------------- what is written

  predicate DecisionEntry(e: LedgerEntry, envelope: Json, d: Decision) {
    e.eventType == "decision.recorded" && e.payload == envelope && e.requestId == Some(d.requestId) && e.recordedAt == d.decidedAt
  }

  predicate Named(v: Verdict, name: Json) {
    name == Str(match v case Pending => "pending" case Approved => "approved" case Rejected => "rejected" case Expired => "expired")
  }

  predicate ListOf(names: seq<string>, items: Json) {
    items.Arr? && |items.items| == |names| && forall i :: 0 <= i < |names| ==> items.items[i] == Str(names[i])
  }

  /** The entry says of its request that it has this result. */
  predicate StatusEntry(env: Env, e: LedgerEntry, record: Record, at: string) {
    var id, result := RequestId(env.gate.H, record.request), record.result;
    && e.eventType == "status.changed" && e.requestId == Some(id) && e.recordedAt == at
    && e.payload.Obj? && Has(e.payload.fields, "request_id", Str(id))
    && Named(result.status, GetOr(e.payload.fields, "status", Null))
    && var told := GetOr(e.payload.fields, "policy_result", Null);
       told.Obj? && Named(result.status, GetOr(told.fields, "status", Null))
       && ListOf(result.satisfiedBy, GetOr(told.fields, "satisfied_by", Null))
  }

  lemma {:induction false} StrsList(names: seq<string>)
    ensures ListOf(names, Arr(Strs(names)))
  {
    if names != [] {
      StrsList(names[1..]);
      forall i | 0 <= i < |names|
        ensures Strs(names)[i] == Str(names[i])
      {
        if i > 0 {
          assert Strs(names)[i] == Strs(names[1..])[i - 1] && names[1..][i - 1] == names[i];
        }
      }
    }
  }

  lemma StatusIsWritten(env: Env, log: seq<LedgerEntry>, record: Record, evaluated: string, at: string)
    ensures StatusEntry(env, EntryFor(env.gate.H, log, StatusDraft(env, record, evaluated, at)), record, at)
  {
    hide RequestId, CanonicalHash, Strs;
    StrsList(record.result.satisfiedBy);
    assert "status"[0] != "policy_result"[0] && "request_id"[0] != "status"[0] && "satisfied_by"[1] != "status"[1];
  }

  lemma DecisionIsWritten(H: Hash, log: seq<LedgerEntry>, envelope: Json, d: Decision)
    ensures DecisionEntry(EntryFor(H, log, RecordedDraft(envelope, d)), envelope, d)
  {
    hide CanonicalHash;
  }

  // ------------------------------------------------------------------ recording

  /** What recording a decision should answer and leave: the decision is appended; if an evaluation has
      an answer, the record is the truth with this decision last, its status is appended unless it is
      pending, and its view is stored; if not, there is no record and nothing else is written. */
  ghost predicate RecordTold(s: Service, st: Stores, r: Request, d: Decision, envelope: Json, t: Times, after: Stores, record: Option<Record>)
  {
    var n, ds := |st.log|, RecordedUnder(st.log, d.requestId) + [d];
    && n < |after.log| && after.log[..n] == st.log && DecisionEntry(after.log[n], envelope, d)
    && after.keys == st.keys
    && (record.Some? <==> Tellable(s.env, r, ds, t.evaluated))
    && (record.None? ==> |after.log| == n + 1 && after.views == st.views)
    && (record.Some? ==>
         && record.value.request == r && record.value.decisions == ds
         && V.Due(MatterOf(s.env, r), ds, Instant(s.env.gate.trust.parse(t.evaluated).value), record.value.result)
         && (if record.value.result.status.Pending? then |after.log| == n + 1
             else |after.log| == n + 2 && StatusEntry(s.env, after.log[n + 1], record.value, t.changed))
         && if s.projects then Stored(s.env, st.views, after.views, record.value, t.projected, after.log[|after.log| - 1].seqNo)
            else after.views == st.views)
  }

  lemma RecordIsTold(s: Service, st: Stores, r: Request, d: Decision, envelope: Json, t: Times)
    requires Sound(s.env, st.log) && DecodeDecision(envelope) == Some(d) && LoadRequest(st.log, d.requestId) == Found(r)
    requires Screen(s.env.gate, envelope, d, r, t.screened).Passed?
    ensures RecordTold(s, st, r, d, envelope, t, RecordDecision(s, st, r, d, envelope, t).0, RecordDecision(s, st, r, d, envelope, t).1)
  {
    hide Linked, EntriesOk, LoadRequest, DecodeDecision, Screen, Recompute, StatusEntry, RequestId, ProjectRecord, EntryFor, Tellable;
    hide V.Due, Stored, RecordedUnder, DecisionEntry, StatusDraft;
    var H := s.env.gate.H;
    var e := EntryFor(H, st.log, RecordedDraft(envelope, d));
    var log := st.log + [e];
    RecordedStep(s.env, st.log, envelope, d, r, t.screened);
    LoadRequestIsStable(st.log, [e], d.requestId);
    DecisionIsWritten(H, st.log, envelope, d);
    WrittenIsLast(st.log, e, envelope, d);
    DerivesTruth(s.env, log, d.requestId, t.evaluated);
    var derived := Recompute(s.env, log, r, t.evaluated);
    if derived.Derived? {
      var record := derived.record;
      RecordIsTrue(s.env, log, d.requestId, t.evaluated, record);
      StatusIsWritten(s.env, log, record, t.evaluated, t.changed);
      var after := if record.result.status.Pending? then log else Appended(H, log, StatusDraft(s.env, record, t.evaluated, t.changed));
      ProjectedIsStored(s, st.views, record, t.projected, after[|after| - 1].seqNo);
    }
  }

  lemma WrittenIsLast(log: seq<LedgerEntry>, e: LedgerEntry, envelope: Json, d: Decision)
    requires DecodeDecision(envelope) == Some(d) && DecisionEntry(e, envelope, d)
    ensures RecordedUnder(log + [e], d.requestId) == RecordedUnder(log, d.requestId) + [d]
  {
    hide DecodeDecision;
    RecordedOneMore(log, e, d.requestId);
  }

  lemma RecordIsTrue(env: Env, log: seq<LedgerEntry>, id: string, now: string, record: Record)
    requires TrueRecord(env, log, id, now, record)
    ensures LoadRequest(log, id) == Found(record.request) && record.decisions == RecordedUnder(log, id)
    ensures Tellable(env, record.request, record.decisions, now)
    ensures V.Due(MatterOf(env, record.request), record.decisions, Instant(env.gate.trust.parse(now).value), record.result)
  {
    hide V.Due, LoadRequest, RequestId;
  }

  // ------------------------------------------------------------------ submitting

  /** What `submit_signed_decision` should answer and leave. */
  ghost predicate SubmitTold(s: Service, st: Stores, envelope: Json, t: Times, after: Stores, outcome: SubmitOutcome) {
    match DecodeDecision(envelope)
    case None => after == st && outcome.BadEnvelope?
    case Some(d) =>
      if !OpenedUnder(st.log, d.requestId) then after == st && outcome.NoSuchRequest?
      else
        LoadRequest(st.log, d.requestId).Found?
        && var r := LoadRequest(st.log, d.requestId).request;
           var why := Screen(s.env.gate, envelope, d, r, t.screened);
           if !why.Passed? then after == st && outcome == Refused(why)
           else if s.keyed && KeyFor(d) in st.keys then after == st && HeldTold(s.env, st, d, t.evaluated, outcome)
           else NewTold(s, st, r, d, envelope, t, after, outcome)
  }

  /** Under a key that is held: a conflict exactly when it is held for another decision; otherwise the
      present status of the request it was completed for, or of this one while it is not completed. */
  ghost predicate HeldTold(env: Env, st: Stores, d: Decision, now: string, outcome: SubmitOutcome)
    requires KeyFor(d) in st.keys
  {
    var held := st.keys[KeyFor(d)];
    && (outcome.KeyConflict? <==> held.fingerprint != CanonicalHash(env.gate.H, DecisionJson(d)))
    && (!outcome.KeyConflict? ==> StatusTold(env, st.log, if held.response.Some? then held.response.value else d.requestId, now, outcome))
  }

  /** Under a fresh key, or without keys: recorded, with the key completed, or an exception and the key
      free again. */
  ghost predicate NewTold(s: Service, st: Stores, r: Request, d: Decision, envelope: Json, t: Times, after: Stores, outcome: SubmitOutcome) {
    && RecordTold(s, st, r, d, envelope, t, after.(keys := st.keys), if outcome.DecisionRecorded? then Some(outcome.record) else None)
    && (outcome.DecisionRecorded? || outcome.SubmitRaised?)
    && after.keys == if s.keyed && outcome.DecisionRecorded?
                     then st.keys[KeyFor(d) := Protocol.Reservation(CanonicalHash(s.env.gate.H, DecisionJson(d)), Some(d.requestId))]
                     else st.keys
  }

  lemma SubmitIsTold(s: Service, st: Stores, envelope: Json, t: Times)
    requires Sound(s.env, st.log)
    ensures SubmitTold(s, st, envelope, t, Submit(s, st, envelope, t).0, Submit(s, st, envelope, t).1)
  {
    hide Linked, EntriesOk, LoadRequest, DecodeDecision, Screen, RecordDecision, StatusOf, RecordTold, Protocol.KeyOf, KeyFor, OpenedUnder;
    hide HeldTold, NewTold, SubmitKeyed;
    var d := DecodeDecision(envelope);
    if d.Some? {
      LoadsIfOpened(s.env, st.log, d.value.requestId);
      if LoadRequest(st.log, d.value.requestId).Found? {
        var r := LoadRequest(st.log, d.value.requestId).request;
        if Screen(s.env.gate, envelope, d.value, r, t.screened).Passed? {
          PassedIsTold(s, st, r, d.value, envelope, t);
        }
      }
    }
  }

  lemma PassedIsTold(s: Service, st: Stores, r: Request, d: Decision, envelope: Json, t: Times)
    requires Sound(s.env, st.log) && DecodeDecision(envelope) == Some(d) && LoadRequest(st.log, d.requestId) == Found(r)
    requires Screen(s.env.gate, envelope, d, r, t.screened).Passed?
    ensures var (after, outcome) := Submit(s, st, envelope, t);
            if s.keyed && KeyFor(d) in st.keys then after == st && HeldTold(s.env, st, d, t.evaluated, outcome)
            else NewTold(s, st, r, d, envelope, t, after, outcome)
  {
    hide Linked, EntriesOk, LoadRequest, DecodeDecision, Screen, RecordDecision, StatusOf, RecordTold, Protocol.KeyOf, KeyFor, StatusTold;
    hide CanonicalHash;
    KeysAgree(d);
    if s.keyed && KeyFor(d) in st.keys {
      var held := st.keys[KeyFor(d)];
      StatusIsTold(s.env, st.log, if held.response.Some? then held.response.value else d.requestId, t.evaluated);
      NeverAConflict(s.env, st.log, if held.response.Some? then held.response.value else d.requestId, t.evaluated);
    } else {
      RecordIsTold(s, st, r, d, envelope, t);
      KeysUntouched(s, st, r, d, envelope, t);
    }
  }

  lemma NeverAConflict(env: Env, log: seq<LedgerEntry>, id: string, now: string)
    ensures !StatusOf(env, log, id, now).KeyConflict?
  {
    hide LoadRequest, Recompute;
  }

  lemma KeysUntouched(s: Service, st: Stores, r: Request, d: Decision, envelope: Json, t: Times)
    ensures RecordDecision(s, st, r, d, envelope, t).0.keys == st.keys
  {
    hide Recompute, EntryFor, ProjectRecord, StatusDraft;
  }

  /** In every run, every submission is answered as it should be, and leaves what it should. */
  lemma SubmitAnswers(s: Service, ops: seq<Op>, envelope: Json, t: Times)
    ensures SubmitTold(s, RunAll(s, ops), envelope, t, Submit(s, RunAll(s, ops), envelope, t).0, Submit(s, RunAll(s, ops), envelope, t).1)
  {
    hide RunAll, Submit, SubmitTold, Sound;
    EveryRunIsSound(s, ops);
    SubmitIsTold(s, RunAll(s, ops), envelope, t);
  }

  // ------------------------------------------------------------- what the keys hold

  /** The key is held, completed, for the decision in this entry. */
  predicate HeldFor(H: Hash, e: LedgerEntry, key: string, held: Protocol.Reservation) {
    && e.eventType == "decision.recorded" && DecodeDecision(e.payload).Some?
    && var d := DecodeDecision(e.payload).value;
       KeyFor(d) == key && held == Protocol.Reservation(CanonicalHash(H, DecisionJson(d)), Some(d.requestId))
  }

  /** One operation leaves every held key as it is, and holds a new one only for the decision it
      records. */
  lemma KeysGrow(s: Service, st: Stores, op: Op, key: string)
    requires Sound(s.env, st.log)
    ensures var after := Perform(s, st, op);
            && (key in st.keys ==> key in after.keys && after.keys[key] == st.keys[key])
            && (key in after.keys && key !in st.keys ==>
                 exists e :: e in after.log && HeldFor(s.env.gate.H, e, key, after.keys[key]))
  {
    hide Sound, Submit, SubmitTold, LoadRequest, RequestId, Project, PolicyDigest, LatestCheckpoint, RebuildAll, EntryFor, HeldFor;
    hide SignCheckpoint, BuildCheckpoint, PublishedDraft, CreatedDraft;
    if op.SubmitOp? {
      SubmitIsTold(s, st, op.envelope, op.times);
      TheKeyIsNew(s, st, op.envelope, op.times, Submit(s, st, op.envelope, op.times).0, Submit(s, st, op.envelope, op.times).1, key);
    }
  }

  lemma TheKeyIsNew(s: Service, st: Stores, envelope: Json, t: Times, after: Stores, outcome: SubmitOutcome, key: string)
    requires SubmitTold(s, st, envelope, t, after, outcome)
    ensures key in st.keys ==> key in after.keys && after.keys[key] == st.keys[key]
    ensures key in after.keys && key !in st.keys ==> exists e :: e in after.log && HeldFor(s.env.gate.H, e, key, after.keys[key])
  {
    hide DecodeDecision, LoadRequest, Screen, OpenedUnder, HeldTold, StatusEntry, Stored, V.Due, Tellable, KeyFor, CanonicalHash;
    if key in after.keys && key !in st.keys {
      var e := after.log[|st.log|];
      assert e in after.log && HeldFor(s.env.gate.H, e, key, after.keys[key]);
    }
  }

  /** In every run, a key is held only for a decision recorded under it, and it is completed. */
  lemma {:induction false} HeldKeysAreRecorded(s: Service, ops: seq<Op>, key: string)
    requires key in RunAll(s, ops).keys
    ensures exists e :: e in RunAll(s, ops).log && HeldFor(s.env.gate.H, e, key, RunAll(s, ops).keys[key])
  {
    hide Perform, HeldFor, Sound;
    if ops != [] {
      var init, op := ops[..|ops| - 1], ops[|ops| - 1];
      EveryRunIsSound(s, init);
      KeysGrow(s, RunAll(s, init), op, key);
      PerformExtends(s, RunAll(s, init), op);
      if key in RunAll(s, init).keys {
        HeldKeysAreRecorded(s, init, key);
        var e :| e in RunAll(s, init).log && HeldFor(s.env.gate.H, e, key, RunAll(s, init).keys[key]);
        assert e in RunAll(s, ops).log;
      }
    }
  }

  /** A held key stays held as it is, however the run continues. */
  lemma {:induction false} KeysStay(s: Service, ops: seq<Op>, more: seq<Op>, key: string)
    requires key in RunAll(s, ops).keys
    ensures key in RunAll(s, ops + more).keys && RunAll(s, ops + more).keys[key] == RunAll(s, ops).keys[key]
  {
    hide Perform, Sound;
    if more == [] {
      assert ops + more == ops;
    } else {
      var n := |more| - 1;
      assert (ops + more)[..|ops| + n] == ops + more[..n] && (ops + more)[|ops| + n] == more[n];
      KeysStay(s, ops, more[..n], key);
      EveryRunIsSound(s, ops + more[..n]);
      KeysGrow(s, RunAll(s, ops + more[..n]), more[n], key);
    }
  }

  /** In every run, a submission that passes under a held key writes nothing. It conflicts exactly when
      the decision recorded under that key has another fingerprint, so it is another decision; and if
      it does not conflict, it is that very decision, or the two collide, and it is answered with the
      present status of the request. */
  lemma ConflictExactly(s: Service, ops: seq<Op>, envelope: Json, t: Times)
    requires s.keyed && DecodeDecision(envelope).Some?
    requires KeyFor(DecodeDecision(envelope).value) in RunAll(s, ops).keys
    requires var d, log := DecodeDecision(envelope).value, RunAll(s, ops).log;
             LoadRequest(log, d.requestId).Found? && Screen(s.env.gate, envelope, d, LoadRequest(log, d.requestId).request, t.screened).Passed?
    ensures var st, d := RunAll(s, ops), DecodeDecision(envelope).value;
            var (after, outcome) := Submit(s, st, envelope, t);
            && after == st
            && exists e :: e in st.log && HeldFor(s.env.gate.H, e, KeyFor(d), st.keys[KeyFor(d)])
                 && Against(s.env, st.log, d, DecodeDecision(e.payload).value, t.evaluated, outcome)
  {
    hide RunAll, Submit, DecodeDecision, LoadRequest, Screen, HeldFor, KeyFor, HeldTold, Against, OpenedUnder, NewTold;
    var st, d := RunAll(s, ops), DecodeDecision(envelope).value;
    SubmitAnswers(s, ops, envelope, t);
    EveryRunIsSound(s, ops);
    LoadsIfOpened(s.env, st.log, d.requestId);
    HeldKeysAreRecorded(s, ops, KeyFor(d));
    var e :| e in st.log && HeldFor(s.env.gate.H, e, KeyFor(d), st.keys[KeyFor(d)]);
    HeldIsAgainst(s.env, st, d, e, t.evaluated, Submit(s, st, envelope, t).1);
  }

  /** The answer to a decision under a key that is held for another, or for itself. */
  ghost predicate Against(env: Env, log: seq<LedgerEntry>, d: Decision, other: Decision, now: string, outcome: SubmitOutcome) {
    && (outcome.KeyConflict? <==> Fingerprint(env.gate.H, d) != Fingerprint(env.gate.H, other))
    && (outcome.KeyConflict? ==> d != other)
    && (!outcome.KeyConflict? ==>
         && (d == other || Collides(env.gate.H, HashClash(DecisionJson(d), DecisionJson(other))))
         && StatusTold(env, log, other.requestId, now, outcome))
  }

  lemma HeldIsAgainst(env: Env, st: Stores, d: Decision, e: LedgerEntry, now: string, outcome: SubmitOutcome)
    requires KeyFor(d) in st.keys && HeldFor(env.gate.H, e, KeyFor(d), st.keys[KeyFor(d)]) && HeldTold(env, st, d, now, outcome)
    ensures DecodeDecision(e.payload).Some? && Against(env, st.log, d, DecodeDecision(e.payload).value, now, outcome)
  {
    hide DecodeDecision, KeyFor, StatusTold, CanonicalHash, Collides;
    var other := DecodeDecision(e.payload).value;
    if Fingerprint(env.gate.H, d) == Fingerprint(env.gate.H, other) {
      FingerprintBinds(env.gate.H, d, other);
    }
  }

  // ------------------------------------------------------------ retries are answered

  /** What a submission that was recorded left behind. */
  lemma RecordedLeaves(s: Service, st: Stores, envelope: Json, t: Times, after: Stores, outcome: SubmitOutcome)
    requires s.keyed && outcome.DecisionRecorded? && SubmitTold(s, st, envelope, t, after, outcome)
    ensures DecodeDecision(envelope).Some?
    ensures var d := DecodeDecision(envelope).value;
            && OpenedUnder(st.log, d.requestId)
            && (KeyFor(d) in after.keys
                && after.keys[KeyFor(d)] == Protocol.Reservation(CanonicalHash(s.env.gate.H, DecisionJson(d)), Some(d.requestId)))
            && exists e :: e in after.log && DecisionEntry(e, envelope, d)
  {
    hide DecodeDecision, LoadRequest, Screen, OpenedUnder, StatusEntry, Stored, V.Due, Tellable, KeyFor, CanonicalHash, StatusTold;
    var d := DecodeDecision(envelope).value;
    if s.keyed && KeyFor(d) in st.keys {
      HeldIsNotRecorded(s.env, st, d, t.evaluated, outcome);
    } else {
      assert after.log[|st.log|] in after.log;
    }
  }

  lemma HeldIsNotRecorded(env: Env, st: Stores, d: Decision, now: string, outcome: SubmitOutcome)
    requires KeyFor(d) in st.keys && HeldTold(env, st, d, now, outcome)
    ensures !outcome.DecisionRecorded?
  {
    hide KeyFor, CanonicalHash, TrueRecord, Tellable, LoadRequest, RecordedUnder;
    assert StatusTold(env, st.log, "", now, outcome) ==> !outcome.DecisionRecorded?;
  }

  lemma {:induction false} RecordedIsUnder(log: seq<LedgerEntry>, e: LedgerEntry, envelope: Json, d: Decision)
    requires e in log && DecisionEntry(e, envelope, d) && DecodeDecision(envelope) == Some(d)
    ensures d in RecordedUnder(log, d.requestId)
  {
    hide DecodeDecision;
    var init, last := log[..|log| - 1], log[|log| - 1];
    assert log == init + [last];
    if e != last {
      RecordedIsUnder(init, e, envelope, d);
    }
  }

  /** Retries are answered. In every run, an envelope that was recorded, submitted again at any later
      point of the run, writes nothing; and when it is screened as before, it is answered with the truth
      about its request, this decision included, or with an exception exactly when there is no answer to
      tell. It never conflicts. */
  lemma RetryAnswers(s: Service, ops: seq<Op>, envelope: Json, t: Times, more: seq<Op>, again: Times)
    requires s.keyed && Submit(s, RunAll(s, ops), envelope, t).1.DecisionRecorded?
    ensures DecodeDecision(envelope).Some?
    ensures var d, st := DecodeDecision(envelope).value, RunAll(s, ops + [SubmitOp(envelope, t)] + more);
            var (after, outcome) := Submit(s, st, envelope, again);
            && after == st && LoadRequest(st.log, d.requestId).Found?
            && var r := LoadRequest(st.log, d.requestId).request;
               var why := Screen(s.env.gate, envelope, d, r, again.screened);
               var tellable := Tellable(s.env, r, RecordedUnder(st.log, d.requestId), again.evaluated);
               && d in RecordedUnder(st.log, d.requestId)
               && (!why.Passed? ==> outcome == Refused(why))
               && (why.Passed? ==>
                    && (outcome.Replayed? <==> tellable) && (outcome.SubmitRaised? <==> !tellable)
                    && (outcome.Replayed? ==> TrueRecord(s.env, st.log, d.requestId, again.evaluated, outcome.current)))
  {
    hide RunAll, Submit, DecodeDecision, LoadRequest, Screen, KeyFor, TrueRecord, Tellable, RecordedUnder, DecisionEntry, OpenedUnder;
    hide NewTold, CanonicalHash, SubmitTold;
    var before, op := RunAll(s, ops), SubmitOp(envelope, t);
    SubmitAnswers(s, ops, envelope, t);
    var first := Submit(s, before, envelope, t).0;
    RecordedLeaves(s, before, envelope, t, first, Submit(s, before, envelope, t).1);
    RunOne(s, ops, op);
    var d := DecodeDecision(envelope).value;
    KeysStay(s, ops + [op], more, KeyFor(d));
    RunExtends(s, ops + [op], more);
    PerformExtends(s, before, op);
    var st := RunAll(s, ops + [op] + more);
    var e :| e in first.log && DecisionEntry(e, envelope, d);
    assert e in st.log;
    RecordedIsUnder(st.log, e, envelope, d);
    StaysOpened(before.log, st.log, d.requestId);
    SubmitAnswers(s, ops + [op] + more, envelope, again);
    HeldIsReplayed(s, st, envelope, d, again, Submit(s, st, envelope, again).0, Submit(s, st, envelope, again).1);
  }

  lemma StaysOpened(log: seq<LedgerEntry>, later: seq<LedgerEntry>, id: string)
    requires log <= later && OpenedUnder(log, id)
    ensures OpenedUnder(later, id)
  {
    var e :| e in log && e.eventType == "request.created" && e.requestId == Some(id);
    assert e in later;
  }

  lemma HeldIsReplayed(s: Service, st: Stores, envelope: Json, d: Decision, again: Times, after: Stores, outcome: SubmitOutcome)
    requires s.keyed && DecodeDecision(envelope) == Some(d) && OpenedUnder(st.log, d.requestId) && KeyFor(d) in st.keys
    requires st.keys[KeyFor(d)] == Protocol.Reservation(CanonicalHash(s.env.gate.H, DecisionJson(d)), Some(d.requestId))
    requires SubmitTold(s, st, envelope, again, after, outcome)
    ensures after == st && LoadRequest(st.log, d.requestId).Found?
    ensures var why := Screen(s.env.gate, envelope, d, LoadRequest(st.log, d.requestId).request, again.screened);
            && (!why.Passed? ==> outcome == Refused(why))
            && (why.Passed? ==> !outcome.KeyConflict? && StatusTold(s.env, st.log, d.requestId, again.evaluated, outcome))
  {
    hide DecodeDecision, LoadRequest, Screen, KeyFor, CanonicalHash, OpenedUnder, NewTold, StatusTold;
  }

  // --------------------------------------------------------------------- signing

  /** What `prepare_decision` should answer: no such request, exactly when none was opened under the id;
      or a challenge for the decision asked for, bound to the request the ledger holds. */
  lemma PrepareAnswers(s: Service, ops: seq<Op>, requestId: string, approverId: string, verdict: string, comment: string,
                       idempotencyKey: string, now: string)
    ensures var log := RunAll(s, ops).log;
            var outcome := PrepareDecision(s.env, log, requestId, approverId, verdict, comment, idempotencyKey, now);
            && (outcome.NothingToDecide? <==> !OpenedUnder(log, requestId))
            && (OpenedUnder(log, requestId) ==>
                 && outcome.Prepared? && LoadRequest(log, requestId).Found?
                 && ChallengeFor(s.env.gate.H, LoadRequest(log, requestId).request, requestId, approverId, verdict, comment,
                                 idempotencyKey, now, outcome.challenge))
  {
    hide RunAll, LoadRequest, Linked, EntriesOk, OpenedUnder, ChallengeFor, Prepare, Asked;
    EveryRunIsSound(s, ops);
    LoadsIfOpened(s.env, RunAll(s, ops).log, requestId);
    if OpenedUnder(RunAll(s, ops).log, requestId) {
      ChallengeTells(s.env.gate.H, LoadRequest(RunAll(s, ops).log, requestId).request, requestId, approverId, verdict, comment,
                     idempotencyKey, now);
    }
  }

  /** The envelope carries this decision, and one signature: the signer's, over the bytes that will be
      checked. */
  predicate SignedBy(envelope: Json, d: Decision, signer: Signer) {
    && DecodeDecision(envelope) == Some(d)
    && SignableBytes(envelope).Some?
    && SignaturesOf(envelope) == Some([SignatureEntry(signer.keyid, signer.sign(SignableBytes(envelope).value))])
  }

  lemma SelfSignedIs(d: Decision, signer: Signer)
    ensures SignedBy(SelfSigned(d, signer), d, signer)
    ensures SelfSigned(d, signer) == Answer(Prepare(d), signer)
  {
    hide Base64, Base64Decode, JsonBytes, Pae, DecisionJson, LoadBytes, DecisionFromJson, MakeEnvelope, UnwrapPayload, SignableBytes;
    hide SignaturesOf;
    Base64RoundTrip(Pae(DECISION_PAYLOAD_TYPE, JsonBytes(DecisionJson(d))));
    var signable := Pae(DECISION_PAYLOAD_TYPE, JsonBytes(DecisionJson(d)));
    ChallengeRoundTrip(d, [SignatureEntry(signer.keyid, signer.sign(signable))]);
  }

  /** What `submit_decision`, which signs on the approver's behalf, should answer and leave: no such
      request, exactly when none was opened under the id; or what submitting an envelope does that
      carries the decision asked for, with the evidence given, under the signer's one signature. */
  ghost predicate SignedTold(s: Service, st: Stores, requestId: string, approverId: string, verdict: string, comment: string,
                             idempotencyKey: string, authn: Json, signer: Signer, decidedAt: string, t: Times,
                             d: Decision, envelope: Json, after: Stores, outcome: SubmitOutcome)
  {
    if !OpenedUnder(st.log, requestId) then after == st && outcome.NoSuchRequest?
    else
      && LoadRequest(st.log, requestId).Found?
      && IsAsked(s.env.gate.H, LoadRequest(st.log, requestId).request, requestId, approverId, verdict, comment,
                 idempotencyKey, decidedAt, d)
      && d.authn == authn && SignedBy(envelope, d, signer) && SubmitTold(s, st, envelope, t, after, outcome)
  }

  lemma SignedSubmissionIsTold(s: Service, st: Stores, requestId: string, approverId: string, verdict: string, comment: string,
                               idempotencyKey: string, authn: Json, signer: Signer, decidedAt: string, t: Times)
      returns (d: Decision, envelope: Json)
    requires Sound(s.env, st.log)
    ensures var (after, outcome) := SubmitDecision(s, st, requestId, approverId, verdict, comment, idempotencyKey, authn, signer, decidedAt, t);
            SignedTold(s, st, requestId, approverId, verdict, comment, idempotencyKey, authn, signer, decidedAt, t, d, envelope, after, outcome)
  {
    hide LoadRequest, Linked, EntriesOk, OpenedUnder, SubmitTold, Submit, SelfSigned, SignedBy, IsAsked, Asked;
    LoadsIfOpened(s.env, st.log, requestId);
    var loaded := LoadRequest(st.log, requestId);
    if loaded.Found? {
      d := Asked(s.env.gate.H, loaded.request, requestId, approverId, verdict, comment, idempotencyKey, decidedAt).(authn := authn);
      AskedIsAsked(s.env.gate.H, loaded.request, requestId, approverId, verdict, comment, idempotencyKey, decidedAt, authn);
      SelfSignedIs(d, signer);
      envelope := SelfSigned(d, signer);
      SubmitIsTold(s, st, envelope, t);
    } else {
      d := Decision("", "", "", "", "", "", "", Null, "");
      envelope := Null;
    }
  }

  /** In every run, deciding with the service's own signing is answered as it should be. */
  lemma SignedSubmissionAnswers(s: Service, ops: seq<Op>, requestId: string, approverId: string, verdict: string, comment: string,
                                idempotencyKey: string, authn: Json, signer: Signer, decidedAt: string, t: Times)
      returns (d: Decision, envelope: Json)
    ensures var st := RunAll(s, ops);
            var (after, outcome) := SubmitDecision(s, st, requestId, approverId, verdict, comment, idempotencyKey, authn, signer, decidedAt, t);
            SignedTold(s, st, requestId, approverId, verdict, comment, idempotencyKey, authn, signer, decidedAt, t, d, envelope, after, outcome)
  {
    hide RunAll, SubmitDecision, SignedTold, Sound;
    EveryRunIsSound(s, ops);
    d, envelope := SignedSubmissionIsTold(s, RunAll(s, ops), requestId, approverId, verdict, comment, idempotencyKey, authn, signer, decidedAt, t);
  }

  lemma AskedIsAsked(H: Hash, r: Request, requestId: string, approverId: string, verdict: string, comment: string,
                     idempotencyKey: string, now: string, authn: Json)
    ensures IsAsked(H, r, requestId, approverId, verdict, comment, idempotencyKey, now,
                    Asked(H, r, requestId, approverId, verdict, comment, idempotencyKey, now).(authn := authn))
  {
    hide ContextDigest;
  }
}
