/** What `verify` reports after a sequential run with a clock that does not go back and a trusted log
    key: when it raises, when it reports a failed check, and when every check is ok. */
module FalseAlarms {
  import opened ByteStrings
  import opened JsonText
  import opened Canonical
  import opened Models
  import opened Datetime
  import opened Chain
  import Merkle
  import opened PolicyEngine
  import opened PolicyTheorems
  import opened Keys
  import opened Verifier
  import opened Envelope
  import opened SignedCheckpoints
  import opened Ceremony
  import opened Reads
  import opened Records
  import opened Audit
  import opened Operations
  import opened LedgerHealth
  import opened SequentialRuns

  // ----------------------------------------------------------- well-behaved runs

  /** The clock gives a UTC time, and does not go back. */
  predicate NotBefore(parse: Parse, clock: int, at: string) {
    ClockReading(parse, at).Some? && clock <= ClockReading(parse, at).value
  }

  /** The instant of a clock reading. */
  function Clock(parse: Parse, at: string): int {
    var t := ClockReading(parse, at);
    if t.Some? then t.value else 0
  }

  function LastReading(op: Op): string {
    match op
    case CreateOp(_, now) => now
    case SubmitOp(_, times) => times.projected
    case PublishOp(_, at) => at
    case RebuildOp(asOf) => asOf
  }

  predicate Ascending(parse: Parse, clock: int, op: Op) {
    match op
    case SubmitOp(_, t) =>
      && NotBefore(parse, clock, t.screened) && NotBefore(parse, Clock(parse, t.screened), t.evaluated)
      && NotBefore(parse, Clock(parse, t.evaluated), t.changed) && NotBefore(parse, Clock(parse, t.changed), t.projected)
    case _ => NotBefore(parse, clock, LastReading(op))
  }

  /** The clock after a run, as the last reading shows it; `start` before any. */
  function ClockAfter(parse: Parse, ops: seq<Op>, start: int): int {
    if ops == [] then start else Clock(parse, LastReading(ops[|ops| - 1]))
  }

  /** The clock does not go back during the run. */
  ghost predicate Orderly(parse: Parse, ops: seq<Op>, start: int) {
    ops != [] ==>
      && Orderly(parse, ops[..|ops| - 1], start)
      && Ascending(parse, ClockAfter(parse, ops[..|ops| - 1], start), ops[|ops| - 1])
  }

  /** Checkpoints are signed with a log key the directory trusts at the time. */
  ghost predicate TrustedOp(g: Gate, op: Op) {
    op.PublishOp? ==>
      && Signs(g.trust, op.signer)
      && var key := g.trust.keys[op.signer.keyid];
         key.keyUse == LOG && ScopedTo(key, g.logId) && ValidAt(g.trust.parse, key, op.at) == Some(true)
  }

  ghost predicate TrustedKeys(g: Gate, ops: seq<Op>) {
    forall op :: op in ops ==> TrustedOp(g, op)
  }

  /** No approver changes a verdict on a request. */
  ghost predicate Steadfast(log: seq<LedgerEntry>) {
    forall id :: NoReversal(DecisionsIn(EventsFor(log, id)))
  }

  // -------------------------------------------------------- statuses, append by append

  ghost predicate AllStatusesOk(env: Env, log: seq<LedgerEntry>, clock: int, firm: bool) {
    forall id :: StatusOk(env, EventsFor(log, id), clock, firm)
  }

  /** An entry that records no decision and no status leaves every status as it was. */
  lemma QuietAppend(env: Env, log: seq<LedgerEntry>, e: LedgerEntry, clock: int, firm: bool)
    requires AllStatusesOk(env, log, clock, firm)
    requires e.eventType != RECORDED && e.eventType != STATUS_CHANGED
    ensures AllStatusesOk(env, log + [e], clock, firm)
  {
    hide StatusOk;
    forall id
      ensures StatusOk(env, EventsFor(log + [e], id), clock, firm)
    {
      EventsForOneMore(log, e, id);
      var events := EventsFor(log, id);
      assert StatusOk(env, events, clock, firm);
      if e.requestId == Some(id) {
        QuietEvent(env, events, e, clock, firm);
      } else {
        assert events + [] == events;
      }
    }
  }

  lemma QuietEvent(env: Env, events: seq<LedgerEntry>, e: LedgerEntry, clock: int, firm: bool)
    requires StatusOk(env, events, clock, firm)
    requires e.eventType != RECORDED && e.eventType != STATUS_CHANGED
    ensures StatusOk(env, events + [e], clock, firm)
  {
    hide StatusAt, FirstCreated, LastStatus, Envelopes, Decoded;
    LastStatusAppends(events, [e]);
    EnvelopesAppend(events, [e]);
    NoEnvelope(e);
    assert Envelopes(events) + [] == Envelopes(events);
    FirstCreatedAppends(events, [e]);
    if LastStatus(events) != Null {
      var t :| t <= clock && Tracked(env, events, FirstCreated(events).request, t, firm);
      assert Tracked(env, events + [e], FirstCreated(events).request, t, firm);
    }
  }

  lemma NoEnvelope(e: LedgerEntry)
    ensures Envelopes([e]) == if e.eventType == RECORDED then [e.payload] else []
  {
    assert [e][..0] == [];
  }

  lemma StatusesLater(env: Env, log: seq<LedgerEntry>, clock: int, later: int, firm: bool)
    requires AllStatusesOk(env, log, clock, firm) && clock <= later
    ensures AllStatusesOk(env, log, later, firm)
  {
    hide StatusOk;
    forall id
      ensures StatusOk(env, EventsFor(log, id), later, firm)
    {
      assert StatusOk(env, EventsFor(log, id), clock, firm);
      StatusOkLater(env, EventsFor(log, id), clock, later, firm);
    }
  }

  lemma DecisionsInAppend(events: seq<LedgerEntry>, e: LedgerEntry)
    ensures DecisionsIn(events + [e]) == DecisionsIn(events) +
              (if e.eventType == RECORDED && DecodeDecision(e.payload).Some? then [DecodeDecision(e.payload).value] else [])
  {
    hide DecodeDecision;
    EnvelopesAppend(events, [e]);
    NoEnvelope(e);
    if e.eventType == RECORDED {
      assert (Envelopes(events) + [e.payload])[..|Envelopes(events)|] == Envelopes(events);
    } else {
      assert Envelopes(events) + [] == Envelopes(events);
    }
  }

  /** The new status is pending. If nobody changes a verdict none was ever recorded, as a status that
      is not pending stays so. */
  lemma StillPending(env: Env, events: seq<LedgerEntry>, e: LedgerEntry, r: Request, clock: int, now: int, firm: bool)
    requires StatusOk(env, events, clock, firm) && clock <= now
    requires e.eventType == RECORDED && FirstCreated(events) == Found(r)
    requires firm ==> NoReversal(DecisionsIn(events + [e]))
    requires StatusAt(env, r, DecisionsIn(events + [e]), now) == Some(Pending)
    ensures StatusOk(env, events + [e], now, firm)
  {
    hide CaseFor, Voices, DecodeDecision, Envelopes, Decoded, FirstCreated, Judge, NoReversal;
    FirstCreatedAppends(events, [e]);
    if firm {
      LastStatusAppends(events, [e]);
      DecisionsInAppend(events, e);
      if LastStatus(events) != Null {
        var t :| t <= clock && Tracked(env, events, FirstCreated(events).request, t, firm);
        var c := CaseFor(env, r).value;
        var ds := DecisionsIn(events);
        var more := DecisionsIn(events + [e])[|ds|..];
        assert DecisionsIn(events + [e]) == ds + more;
        DecidedStaysDecided(c, ds, more, t, now);
      }
    } else {
      assert Tracked(env, events + [e], r, now, firm);
    }
  }

  /** The new status is not pending, and has just been recorded. */
  lemma JustSettled(env: Env, events: seq<LedgerEntry>, e: LedgerEntry, change: LedgerEntry, r: Request, v: Verdict, now: int, firm: bool)
    requires e.eventType == RECORDED && FirstCreated(events) == Found(r)
    requires change.eventType == STATUS_CHANGED && StatusIn(change.payload) == Str(StatusName(v))
    requires StatusAt(env, r, DecisionsIn(events + [e]), now) == Some(v) && !v.Pending?
    ensures StatusOk(env, events + [e] + [change], now, firm)
  {
    hide StatusAt, FirstCreated, DecodeDecision, Envelopes, Decoded, StatusName, StatusIn, DecisionsIn;
    var both := events + [e] + [change];
    DecisionsInAppend(events + [e], change);
    FirstCreatedAppends(events, [e]);
    FirstCreatedAppends(events + [e], [change]);
    assert both[|both| - 1] == change;
    assert DecisionsIn(events + [e]) + [] == DecisionsIn(events + [e]);
    assert LastStatus(both) == StatusIn(change.payload);
    assert Tracked(env, both, r, now, firm);
  }

  /** A request whose deadline cannot be told has no recorded status, and gets none. */
  lemma NeverRecorded(env: Env, events: seq<LedgerEntry>, e: LedgerEntry, r: Request, clock: int, now: int, firm: bool)
    requires StatusOk(env, events, clock, firm) && FirstCreated(events) == Found(r) && CaseFor(env, r).None?
    requires e.eventType == RECORDED
    ensures LastStatus(events) == Null && StatusOk(env, events + [e], now, firm)
  {
    hide CaseFor, DecisionsIn, FirstCreated;
    LastStatusAppends(events, [e]);
  }

  ghost predicate OthersAlike(log: seq<LedgerEntry>, after: seq<LedgerEntry>, id: string) {
    forall other :: other != id ==> EventsFor(after, other) == EventsFor(log, other)
  }

  lemma OnlyThisRequest(log: seq<LedgerEntry>, e: LedgerEntry, id: string)
    requires e.requestId == Some(id)
    ensures EventsFor(log + [e], id) == EventsFor(log, id) + [e]
    ensures OthersAlike(log, log + [e], id)
  {
    hide EventsFor;
    EventsForOneMore(log, e, id);
    forall other | other != id
      ensures EventsFor(log + [e], other) == EventsFor(log, other)
    {
      EventsForOneMore(log, e, other);
      assert EventsFor(log, other) + [] == EventsFor(log, other);
    }
  }

  lemma StatusesAround(env: Env, log: seq<LedgerEntry>, after: seq<LedgerEntry>, id: string, clock: int, later: int, firm: bool)
    requires AllStatusesOk(env, log, clock, firm) && clock <= later && OthersAlike(log, after, id)
    requires StatusOk(env, EventsFor(after, id), later, firm)
    ensures AllStatusesOk(env, after, later, firm)
  {
    hide StatusOk;
    StatusesLater(env, log, clock, later, firm);
    forall other
      ensures StatusOk(env, EventsFor(after, other), later, firm)
    {
      if other != id {
        assert StatusOk(env, EventsFor(log, other), later, firm);
      }
    }
  }

  lemma TwiceAlike(a: seq<LedgerEntry>, b: seq<LedgerEntry>, c: seq<LedgerEntry>, id: string)
    requires OthersAlike(a, b, id) && OthersAlike(b, c, id)
    ensures OthersAlike(a, c, id)
  {
    hide EventsFor;
  }

  lemma FoundIsFirst(log: seq<LedgerEntry>, id: string)
    ensures FirstCreated(EventsFor(log, id)) == LoadRequest(log, id)
  {
    hide EventsFor, FirstCreated;
  }

  lemma StatusesAt(env: Env, log: seq<LedgerEntry>, id: string, clock: int, firm: bool)
    requires AllStatusesOk(env, log, clock, firm)
    ensures StatusOk(env, EventsFor(log, id), clock, firm)
  {
    hide StatusOk, EventsFor;
  }

  lemma SteadfastAt(log: seq<LedgerEntry>, id: string)
    requires Steadfast(log)
    ensures NoReversal(DecisionsIn(EventsFor(log, id)))
  {
    hide NoReversal, DecisionsIn, EventsFor;
  }

  // -------------------------------------------------- re-deriving at a clock reading

  /** Requests were created at clock readings. */
  predicate CreatedByClock(parse: Parse, log: seq<LedgerEntry>) {
    forall e :: e in log && e.eventType == CREATED && RequestFromJson(e.payload).Some? ==>
      ClockReading(parse, RequestFromJson(e.payload).value.createdAt).Some?
  }

  lemma LoadedByClock(parse: Parse, log: seq<LedgerEntry>, id: string)
    requires CreatedByClock(parse, log) && LoadRequest(log, id).Found?
    ensures ClockReading(parse, LoadRequest(log, id).request.createdAt).Some?
  {
    hide LoadRequest, RequestFromJson;
    var e := LoadedFromEntry(log, id);
  }

  lemma ComparableNow(env: Env, r: Request, now: string)
    requires ClockReading(env.gate.trust.parse, r.createdAt).Some? && ClockReading(env.gate.trust.parse, now).Some?
    ensures env.gate.trust.parse(now).Some? && Clock(env.gate.trust.parse, now) == Instant(env.gate.trust.parse(now).value)
    ensures WindowOpens(env, r) ==> Aware(env.gate.trust.parse(now).value) == Aware(env.gate.trust.parse(r.notValidAfter).value)
  {
  }

  /** At a clock reading a record is re-derived exactly when the deadline can be told. */
  lemma DerivesNow(env: Env, log: seq<LedgerEntry>, id: string, now: string)
    requires EntriesOk(env, log) && CreatedByClock(env.gate.trust.parse, log) && LoadRequest(log, id).Found?
    requires ClockReading(env.gate.trust.parse, now).Some?
    ensures var r := LoadRequest(log, id).request;
            var result := Recompute(env, log, r, now);
            && env.gate.trust.parse(now).Some?
            && CaseFor(env, r).Some? == WindowOpens(env, r)
            && (result.Derived? <==> WindowOpens(env, r)) && (result.Raised? <==> !WindowOpens(env, r))
            && (result.Derived? ==>
                 && result.record.request == r
                 && result.record.decisions == DecisionsIn(EventsFor(log, id))
                 && StatusAt(env, r, DecisionsIn(EventsFor(log, id)), Clock(env.gate.trust.parse, now)) == Some(result.record.result.status)
                 && var c := CaseFor(env, r).value;
                    result.record.result == Judge(c, Voices(c, result.record.decisions), Clock(env.gate.trust.parse, now)))
  {
    hide EntriesOk, LoadRequest, Recompute, CaseFor, DecisionsIn, EventsFor, Judge, Voices, CreatedByClock, WindowOpens;
    LoadedByClock(env.gate.trust.parse, log, id);
    ComparableNow(env, LoadRequest(log, id).request, now);
    Derives(env, log, id, now);
  }

  // ------------------------------------------------------------------ one decision

  lemma AscendingBounds(parse: Parse, clock: int, envelope: Json, t: Times)
    requires Ascending(parse, clock, SubmitOp(envelope, t))
    ensures ClockReading(parse, t.screened).Some? && ClockReading(parse, t.evaluated).Some? && ClockReading(parse, t.projected).Some?
    ensures clock <= Clock(parse, t.screened) <= Clock(parse, t.evaluated) <= Clock(parse, t.projected)
  {
    hide ClockReading;
  }

  lemma ByClockLonger(parse: Parse, log: seq<LedgerEntry>, e: LedgerEntry)
    requires CreatedByClock(parse, log) && e.eventType != CREATED
    ensures CreatedByClock(parse, log + [e])
  {
    hide RequestFromJson, ClockReading;
  }

  /** Recording a decision that passed its checks, and then its status if there is one to record. */
  lemma RecordStatuses(s: Service, st: Stores, r: Request, d: Decision, envelope: Json, t: Times, clock: int, firm: bool)
    requires Sound(s.env, st.log) && CreatedByClock(s.env.gate.trust.parse, st.log) && AllStatusesOk(s.env, st.log, clock, firm)
    requires Ascending(s.env.gate.trust.parse, clock, SubmitOp(envelope, t))
    requires DecodeDecision(envelope) == Some(d) && LoadRequest(st.log, d.requestId) == Found(r)
    requires Screen(s.env.gate, envelope, d, r, t.screened).Passed?
    requires firm ==> Steadfast(RecordDecision(s, st, r, d, envelope, t).0.log)
    ensures AllStatusesOk(s.env, RecordDecision(s, st, r, d, envelope, t).0.log, Clock(s.env.gate.trust.parse, t.evaluated), firm)
    ensures CreatedByClock(s.env.gate.trust.parse, RecordDecision(s, st, r, d, envelope, t).0.log)
  {
    hide EntriesOk, Linked, AllStatusesOk, LoadRequest, DecodeDecision, Screen, Recompute, StatusAt, StatusPayload, RequestId;
    hide EventsFor, StatusOk, ProjectRecord, NoReversal, Steadfast, DecisionsIn, CreatedByClock, Ascending, CaseFor, WindowOpens;
    var env, H := s.env, s.env.gate.H;
    var log := Appended(H, st.log, RecordedDraft(envelope, d));
    var e := EntryFor(H, st.log, RecordedDraft(envelope, d));
    var id := d.requestId;
    AscendingBounds(env.gate.trust.parse, clock, envelope, t);
    RecordedStep(env, st.log, envelope, d, r, t.screened);
    ByClockLonger(env.gate.trust.parse, st.log, e);
    LoadRequestIsStable(st.log, [e], id);
    DerivesNow(env, log, id, t.evaluated);
    OnlyThisRequest(st.log, e, id);
    var now := Clock(env.gate.trust.parse, t.evaluated);
    var events := EventsFor(st.log, id);
    FoundIsFirst(st.log, id);
    StatusesAt(env, st.log, id, clock, firm);
    if Recompute(env, log, r, t.evaluated).Derived? {
      var record := Recompute(env, log, r, t.evaluated).record;
      if record.result.status.Pending? {
        if firm {
          SteadfastAt(log, id);
        }
        StillPending(env, events, e, r, clock, now, firm);
        StatusesAround(env, st.log, log, id, clock, now, firm);
      } else {
        var draft := StatusDraft(env, record, t.evaluated, t.changed);
        var change := EntryFor(H, log, draft);
        LoadedHasItsId(env, st.log, id);
        StatusIsInPayload(env, record, t.evaluated);
        ByClockLonger(env.gate.trust.parse, log, change);
        OnlyThisRequest(log, change, id);
        JustSettled(env, events, e, change, r, record.result.status, now, firm);
        var after := log + [change];
        TwiceAlike(st.log, log, after, id);
        StatusesAround(env, st.log, after, id, clock, now, firm);
      }
    } else {
      NeverRecorded(env, events, e, r, clock, now, firm);
      StatusesAround(env, st.log, log, id, clock, now, firm);
    }
  }

  // -------------------------------------------------------------- whole runs

  lemma SubmitStatuses(s: Service, st: Stores, envelope: Json, t: Times, clock: int, firm: bool)
    requires Sound(s.env, st.log) && CreatedByClock(s.env.gate.trust.parse, st.log) && AllStatusesOk(s.env, st.log, clock, firm)
    requires Ascending(s.env.gate.trust.parse, clock, SubmitOp(envelope, t))
    requires firm ==> Steadfast(Submit(s, st, envelope, t).0.log)
    ensures AllStatusesOk(s.env, Submit(s, st, envelope, t).0.log, Clock(s.env.gate.trust.parse, t.projected), firm)
    ensures CreatedByClock(s.env.gate.trust.parse, Submit(s, st, envelope, t).0.log)
  {
    hide Sound, CreatedByClock, AllStatusesOk, RecordDecision, LoadRequest, DecodeDecision, Screen, StatusOf, Fingerprint, Steadfast;
    hide Ascending;
    AscendingBounds(s.env.gate.trust.parse, clock, envelope, t);
    var projected := Clock(s.env.gate.trust.parse, t.projected);
    StatusesLater(s.env, st.log, clock, projected, firm);
    var d := DecodeDecision(envelope);
    if d.Some? && LoadRequest(st.log, d.value.requestId).Found? {
      var r := LoadRequest(st.log, d.value.requestId).request;
      if Submit(s, st, envelope, t).0.log == RecordDecision(s, st, r, d.value, envelope, t).0.log
         && Screen(s.env.gate, envelope, d.value, r, t.screened).Passed?
      {
        RecordStatuses(s, st, r, d.value, envelope, t, clock, firm);
        StatusesLater(s.env, Submit(s, st, envelope, t).0.log, Clock(s.env.gate.trust.parse, t.evaluated), projected, firm);
      }
    }
  }

  lemma CreateStatuses(s: Service, st: Stores, o: Opening, now: string, clock: int, firm: bool)
    requires CreatedByClock(s.env.gate.trust.parse, st.log) && AllStatusesOk(s.env, st.log, clock, firm)
    requires NotBefore(s.env.gate.trust.parse, clock, now)
    ensures AllStatusesOk(s.env, Create(s, st, o, now).0.log, Clock(s.env.gate.trust.parse, now), firm)
    ensures CreatedByClock(s.env.gate.trust.parse, Create(s, st, o, now).0.log)
  {
    hide CreatedByClock, AllStatusesOk, LoadRequest, Project, PolicyDigest, RequestId, RequestJson, EntryFor, ClockReading;
    StatusesLater(s.env, st.log, clock, Clock(s.env.gate.trust.parse, now), firm);
    if o.policyId in s.env.policies {
      var H := s.env.gate.H;
      var r := RequestFor(H, o, s.env.policies[o.policyId], now);
      OpenedByClock(s.env, st.log, r);
      OpeningIsQuiet(s.env, st.log, r, Clock(s.env.gate.trust.parse, now), firm);
    }
  }

  lemma OpenedByClock(env: Env, log: seq<LedgerEntry>, r: Request)
    requires CreatedByClock(env.gate.trust.parse, log) && ClockReading(env.gate.trust.parse, r.createdAt).Some?
    ensures CreatedByClock(env.gate.trust.parse, Appended(env.gate.H, log, CreatedDraft(env.gate.H, r)))
  {
    hide RequestFromJson, RequestJson, RequestId, CanonicalHash, ClockReading;
    RequestRoundTrip(env.gate.H, r);
  }

  lemma OpeningIsQuiet(env: Env, log: seq<LedgerEntry>, r: Request, clock: int, firm: bool)
    requires AllStatusesOk(env, log, clock, firm)
    ensures AllStatusesOk(env, Appended(env.gate.H, log, CreatedDraft(env.gate.H, r)), clock, firm)
  {
    hide AllStatusesOk, RequestJson, RequestId, CanonicalHash;
    QuietAppend(env, log, EntryFor(env.gate.H, log, CreatedDraft(env.gate.H, r)), clock, firm);
  }

  lemma PublishStatuses(s: Service, st: Stores, signer: Signer, now: string, clock: int, firm: bool)
    requires CreatedByClock(s.env.gate.trust.parse, st.log) && AllStatusesOk(s.env, st.log, clock, firm)
    requires NotBefore(s.env.gate.trust.parse, clock, now)
    ensures AllStatusesOk(s.env, Publish(s, st, signer, now).0.log, Clock(s.env.gate.trust.parse, now), firm)
    ensures CreatedByClock(s.env.gate.trust.parse, Publish(s, st, signer, now).0.log)
  {
    hide CreatedByClock, AllStatusesOk, LatestCheckpoint, SignCheckpoint, BuildCheckpoint, CheckpointJson, CanonicalHash, ClockReading;
    var log, after := st.log, Publish(s, st, signer, now).0.log;
    StatusesLater(s.env, log, clock, Clock(s.env.gate.trust.parse, now), firm);
    if after != log {
      assert after == log + [after[|log|]] && after[|log|].eventType == PUBLISHED;
      QuietAppend(s.env, log, after[|log|], Clock(s.env.gate.trust.parse, now), firm);
      ByClockLonger(s.env.gate.trust.parse, log, after[|log|]);
    }
  }

  lemma OpStatuses(s: Service, st: Stores, op: Op, clock: int, firm: bool)
    requires Sound(s.env, st.log) && CreatedByClock(s.env.gate.trust.parse, st.log) && AllStatusesOk(s.env, st.log, clock, firm)
    requires Ascending(s.env.gate.trust.parse, clock, op)
    requires firm ==> Steadfast(Perform(s, st, op).log)
    ensures AllStatusesOk(s.env, Perform(s, st, op).log, Clock(s.env.gate.trust.parse, LastReading(op)), firm)
    ensures CreatedByClock(s.env.gate.trust.parse, Perform(s, st, op).log)
  {
    hide Sound, CreatedByClock, AllStatusesOk, Steadfast, Create, Submit, Publish, RebuildAll, ClockReading;
    match op
    case CreateOp(opening, now) =>
      CreateStatuses(s, st, opening, now, clock, firm);
    case SubmitOp(envelope, times) =>
      SubmitStatuses(s, st, envelope, times, clock, firm);
    case PublishOp(signer, at) =>
      PublishStatuses(s, st, signer, at, clock, firm);
    case RebuildOp(asOf) =>
      StatusesLater(s.env, st.log, clock, Clock(s.env.gate.trust.parse, asOf), firm);
  }

  lemma SteadfastBefore(log: seq<LedgerEntry>, after: seq<LedgerEntry>)
    requires log <= after && Steadfast(after)
    ensures Steadfast(log)
  {
    hide EventsFor, Envelopes, Decoded;
    var more := after[|log|..];
    assert after == log + more;
    forall id
      ensures NoReversal(DecisionsIn(EventsFor(log, id)))
    {
      EventsForAppends(log, more, id);
      DecisionsInConcat(EventsFor(log, id), EventsFor(more, id));
      assert NoReversal(DecisionsIn(EventsFor(after, id)));
      assert forall d :: d in DecisionsIn(EventsFor(log, id)) ==> d in DecisionsIn(EventsFor(after, id));
    }
  }

  lemma {:induction false} DecisionsInConcat(a: seq<LedgerEntry>, b: seq<LedgerEntry>)
    ensures DecisionsIn(a + b) == DecisionsIn(a) + DecisionsIn(b)
  {
    hide DecisionsIn, DecodeDecision;
    if b == [] {
      assert a + b == a;
      NoDecisions();
    } else {
      var init, last := b[..|b| - 1], b[|b| - 1];
      assert a + b == (a + init) + [last] && b == init + [last];
      DecisionsInConcat(a, init);
      DecisionsInAppend(a + init, last);
      DecisionsInAppend(init, last);
    }
  }

  lemma NoDecisions()
    ensures DecisionsIn([]) == []
  {
  }

  /** After every run with a clock that does not go back, the last recorded status of each request is
      true of its present decisions, or has been overtaken by pending, which is not recorded; and the
      latter only if somebody has changed a verdict. */
  lemma {:induction false} OrderlyStatuses(s: Service, ops: seq<Op>, start: int, firm: bool)
    requires Orderly(s.env.gate.trust.parse, ops, start) && (firm ==> Steadfast(RunAll(s, ops).log))
    ensures AllStatusesOk(s.env, RunAll(s, ops).log, ClockAfter(s.env.gate.trust.parse, ops, start), firm)
    ensures CreatedByClock(s.env.gate.trust.parse, RunAll(s, ops).log)
  {
    hide AllStatusesOk, CreatedByClock, Steadfast, Ascending, Perform, Sound, Clock;
    if ops == [] {
      NoStatuses(s.env, start, firm);
    } else {
      var init, op := ops[..|ops| - 1], ops[|ops| - 1];
      var before := RunAll(s, init);
      PerformExtends(s, before, op);
      if firm {
        SteadfastBefore(before.log, Perform(s, before, op).log);
      }
      OrderlyStatuses(s, init, start, firm);
      EveryRunIsSound(s, init);
      OpStatuses(s, before, op, ClockAfter(s.env.gate.trust.parse, init, start), firm);
    }
  }

  lemma NoStatuses(env: Env, clock: int, firm: bool)
    ensures AllStatusesOk(env, [], clock, firm) && CreatedByClock(env.gate.trust.parse, [])
  {
  }

  // -------------------------------------------------------- trusted checkpoints

  /** Every checkpoint published on the ledger is accepted. */
  predicate AllAccepted(trust: Trust, log: seq<LedgerEntry>) {
    forall e :: e in log && e.eventType == PUBLISHED && CheckpointFromJson(e.payload).Some? ==>
      Accepts(trust, CheckpointFromJson(e.payload).value)
  }

  lemma PublishAccepted(s: Service, st: Stores, signer: Signer, now: string)
    requires AllAccepted(s.env.gate.trust, st.log) && TrustedOp(s.env.gate, PublishOp(signer, now))
    ensures AllAccepted(s.env.gate.trust, Publish(s, st, signer, now).0.log)
  {
    hide LatestCheckpoint, Merkle.MerkleRoot, Accepts, CheckpointJson, CheckpointFromJson, SignatureEntry, ValidAt, ScopedTo, CheckpointSignable;
    hide CanonicalHash, Leaves;
    var g := s.env.gate;
    if LatestCheckpoint(st.log).Some? {
      var unsigned := BuildCheckpoint(g.H, Leaves(st.log), g.logId, now, LatestCheckpoint(st.log).value);
      SignedIsAccepted(g.trust, unsigned, signer);
      CheckpointRoundTrip(SignCheckpoint(unsigned, signer));
    }
  }

  lemma PerformAccepted(s: Service, st: Stores, op: Op)
    requires AllAccepted(s.env.gate.trust, st.log) && TrustedOp(s.env.gate, op)
    ensures AllAccepted(s.env.gate.trust, Perform(s, st, op).log)
  {
    hide Accepts, Publish, CheckpointFromJson, TrustedOp, Create, Submit, RebuildAll;
    if op.PublishOp? {
      PublishAccepted(s, st, op.signer, op.at);
    } else {
      forall e | e in Perform(s, st, op).log && e.eventType == PUBLISHED
        ensures e in st.log
      {
        OnlyPublished(s, st, op, e);
      }
    }
  }

  lemma OnlyPublished(s: Service, st: Stores, op: Op, e: LedgerEntry)
    requires e in Perform(s, st, op).log && e.eventType == PUBLISHED && !op.PublishOp?
    ensures e in st.log
  {
    hide Submit, LoadRequest, CanonicalHash, Project, RequestId, RequestJson, PolicyDigest, RebuildAll;
    if op.SubmitOp? {
      SubmitPublishesNothing(s, st, op.envelope, op.times, e);
    }
  }

  lemma SubmitPublishesNothing(s: Service, st: Stores, envelope: Json, t: Times, e: LedgerEntry)
    requires e in Submit(s, st, envelope, t).0.log && e.eventType == PUBLISHED
    ensures e in st.log
  {
    hide RecordDecision, LoadRequest, DecodeDecision, Screen, StatusOf, Fingerprint;
    forall r, d | e in RecordDecision(s, st, r, d, envelope, t).0.log
      ensures e in st.log
    {
      RecordPublishesNothing(s, st, r, d, envelope, t, e);
    }
  }

  lemma RecordPublishesNothing(s: Service, st: Stores, r: Request, d: Decision, envelope: Json, t: Times, e: LedgerEntry)
    requires e in RecordDecision(s, st, r, d, envelope, t).0.log && e.eventType == PUBLISHED
    ensures e in st.log
  {
    hide Recompute, ProjectRecord, StatusPayload, CanonicalHash, RequestId;
  }

  lemma {:induction false} TrustedIsAccepted(s: Service, ops: seq<Op>)
    requires TrustedKeys(s.env.gate, ops)
    ensures AllAccepted(s.env.gate.trust, RunAll(s, ops).log)
  {
    hide Perform, TrustedOp, AllAccepted;
    if ops == [] {
      NoneAccepted(s.env.gate.trust);
    } else {
      var init, op := ops[..|ops| - 1], ops[|ops| - 1];
      assert ops == init + [op];
      TrustedIsAccepted(s, init);
      PerformAccepted(s, RunAll(s, init), op);
    }
  }

  lemma NoneAccepted(trust: Trust)
    ensures AllAccepted(trust, [])
  {
  }

  // ------------------------------------------------------------- what is reported

  /** The deadline of every request opened among these entries can be told. */
  predicate WindowsOpen(env: Env, entries: seq<LedgerEntry>) {
    forall e :: e in entries && e.eventType == CREATED && RequestFromJson(e.payload).Some? ==>
      WindowOpens(env, RequestFromJson(e.payload).value)
  }

  /** Once decided, and pending again. */
  predicate Reopened(env: Env, log: seq<LedgerEntry>, id: string, now: int) {
    && LastStatus(EventsFor(log, id)) != Null
    && LoadRequest(log, id).Found?
    && StatusAt(env, LoadRequest(log, id).request, DecisionsIn(EventsFor(log, id)), now) == Some(Pending)
  }

  /** No request opened among these entries is reopened. */
  predicate NoneReopened(env: Env, log: seq<LedgerEntry>, entries: seq<LedgerEntry>, now: int) {
    forall e :: e in entries && e.eventType == CREATED && e.requestId.Some? ==> !Reopened(env, log, e.requestId.value, now)
  }

  lemma ScanIsLinked(H: Hash, log: seq<LedgerEntry>, start: nat, limit: Option<nat>)
    requires Linked(H, log, 0, ZERO_HASH)
    ensures Segment(H, ScanFrom(log, start, limit), start, PrevHashAt(log, start)).Intact?
    ensures forall e :: e in ScanFrom(log, start, limit) ==> e in log
  {
    hide CoreHash, Segment;
    var entries := ScanFrom(log, start, limit);
    forall i | 0 <= i < |entries|
      ensures LinkedAt(H, entries, i, start, PrevHashAt(log, start))
    {
      var k := start + i;
      assert entries[i] == log[k];
      assert LinkedAt(H, log, k, 0, ZERO_HASH);
      if i > 0 {
        assert entries[i - 1] == log[k - 1];
      }
    }
    SegmentIsLinked(H, entries, start, PrevHashAt(log, start));
  }

  lemma {:induction false} LatestIsPublished(log: seq<LedgerEntry>)
    requires forall e :: e in log && e.eventType == PUBLISHED ==> CheckpointFromJson(e.payload).Some?
    ensures LatestCheckpoint(log).Some?
    ensures LatestCheckpoint(log).value.Some? ==>
              exists e :: e in log && e.eventType == PUBLISHED && CheckpointFromJson(e.payload) == LatestCheckpoint(log).value
  {
    hide CheckpointFromJson;
    if log != [] && log[|log| - 1].eventType != PUBLISHED {
      LatestIsPublished(log[..|log| - 1]);
    }
  }

  lemma PublishedHere(env: Env, log: seq<LedgerEntry>, e: LedgerEntry)
    requires EntriesOk(env, log) && AllAccepted(env.gate.trust, log) && e in log && e.eventType == PUBLISHED
    ensures PublishedOk(env, log, e) && Accepts(env.gate.trust, CheckpointFromJson(e.payload).value)
  {
    hide CheckpointFromJson, Accepts, CommitsTo;
    assert EntryOk(env, log, e);
  }

  lemma PublishedIsClean(env: Env, log: seq<LedgerEntry>)
    requires EntriesOk(env, log) && AllAccepted(env.gate.trust, log)
    ensures Clean(PublishedChecks(env, log))
  {
    hide EntriesOk, AllAccepted, CheckpointFromJson, Accepts, Merkle.MerkleRoot, Leaves;
    forall e | e in log && e.eventType == PUBLISHED
      ensures PublishedOk(env, log, e) && Accepts(env.gate.trust, CheckpointFromJson(e.payload).value)
    {
      PublishedHere(env, log, e);
    }
    LatestIsPublished(log);
    if LatestCheckpoint(log).value.Some? {
      LeavesOfPrefix(log, LatestCheckpoint(log).value.value.treeSize);
    }
  }

  lemma PinnedIsClean(env: Env, log: seq<LedgerEntry>, e: LedgerEntry)
    requires EntriesOk(env, log) && AllAccepted(env.gate.trust, log) && e in log && e.eventType == PUBLISHED
    ensures CheckpointFromJson(e.payload).Some? && AllOk(TrustedChecks(env, log, CheckpointFromJson(e.payload)))
  {
    hide EntriesOk, AllAccepted, CheckpointFromJson, Accepts, VerifyConsistency, Leaves, Merkle.MerkleRoot;
    PublishedHere(env, log, e);
    var cp := CheckpointFromJson(e.payload).value;
    ExtensionsPass(env.gate.H, log, log, cp);
    PrefixSuffices(env.gate.H, cp, Leaves(log));
  }

  lemma DecisionsAreClean(env: Env, log: seq<LedgerEntry>, entries: seq<LedgerEntry>)
    requires EntriesOk(env, log) && forall e :: e in entries ==> e in log
    ensures Walk(entries).decodes && Clean(DecisionChecks(env, log, Walk(entries).decisions))
  {
    hide EntryOk, Walk, Clean, DecisionChecks, DecisionChecksOf, DecodeDecision, LoadRequest, MayDecide, ContextDigest, Within;
    forall e | e in entries && e.eventType == RECORDED
      ensures Vetted(env, log, e)
    {
      RecordedHere(env, log, e);
    }
    WalkIds(entries);
    var decisions := Walk(entries).decisions;
    forall i | 0 <= i < |decisions|
      ensures Clean(DecisionChecksOf(env, log, decisions[i].0, decisions[i].1))
    {
      assert decisions[i] in decisions;
      CleanDecision(env, log, decisions[i].0, decisions[i].1);
    }
    DecisionChecksClean(env, log, decisions);
  }

  /** The status check of one request raises exactly when its deadline cannot be told, and fails
      exactly when it is reopened. */
  lemma StatusOutcome(env: Env, log: seq<LedgerEntry>, id: string, clock: int, now: string)
    requires EntriesOk(env, log) && CreatedByClock(env.gate.trust.parse, log) && StatusOk(env, EventsFor(log, id), clock, false)
    requires NotBefore(env.gate.trust.parse, clock, now) && LoadRequest(log, id).Found?
    ensures StatusChecksOf(env, log, id, now).None? <==> !WindowOpens(env, LoadRequest(log, id).request)
    ensures StatusChecksOf(env, log, id, now).Some? ==>
              (Clean(StatusChecksOf(env, log, id, now)) <==> !Reopened(env, log, id, Clock(env.gate.trust.parse, now)))
  {
    hide EntriesOk, Recompute, StatusAt, CaseFor, DecisionsIn, EventsFor, LastStatus, Judge, Voices, StatusName, CreatedByClock;
    hide WindowOpens, LoadRequest, SettledName, StatusOk;
    var r := LoadRequest(log, id).request;
    var events := EventsFor(log, id);
    DerivesNow(env, log, id, now);
    LoadedHasItsId(env, log, id);
    if WindowOpens(env, r) {
      var status := Recompute(env, log, r, now).record.result.status;
      LastStatusIsSettled(env, log, id);
      RecordedStatusHolds(env, log, id, clock, Clock(env.gate.trust.parse, now), status);
      PinnedRecompute(env, log, r, now);
      OneStatusCheck(env, log, id, now, status);
      if LastStatus(events) != Null {
        SettledNamesAreNotPending(LastStatus(events));
      }
    }
  }

  lemma PinnedRecompute(env: Env, log: seq<LedgerEntry>, r: Request, now: string)
    requires Pinned(env, r)
    ensures !Recompute(env, log, r, now).NoSuchPolicy? && !Recompute(env, log, r, now).PolicyChanged?
  {
    hide PolicyDigest, DecisionsFor, Evaluate;
  }

  lemma OneStatusCheck(env: Env, log: seq<LedgerEntry>, id: string, now: string, status: Verdict)
    requires LoadRequest(log, id).Found?
    requires var result := Recompute(env, log, LoadRequest(log, id).request, now);
             result.Derived? && result.record.result.status == status
    ensures StatusChecksOf(env, log, id, now).Some?
    ensures var recorded := LastStatus(EventsFor(log, id));
            Clean(StatusChecksOf(env, log, id, now)) <==> recorded == Null || recorded == Str(StatusName(status)) || status.Expired?
  {
    hide LoadRequest, Recompute, LastStatus, EventsFor, StatusName;
    var checks := StatusChecksOf(env, log, id, now).value;
    assert checks[0] in checks;
  }

  /** A recorded status is the present one, or the present one is pending or expired. */
  lemma RecordedStatusHolds(env: Env, log: seq<LedgerEntry>, id: string, clock: int, now: int, status: Verdict)
    requires StatusOk(env, EventsFor(log, id), clock, false) && clock <= now && LoadRequest(log, id).Found?
    requires StatusAt(env, LoadRequest(log, id).request, DecisionsIn(EventsFor(log, id)), now) == Some(status)
    ensures var recorded := LastStatus(EventsFor(log, id));
            recorded == Null || recorded == Str(StatusName(status)) || status.Pending? || status.Expired?
  {
    hide StatusAt, DecisionsIn, EventsFor, LastStatus, StatusName, LoadRequest, FirstCreated;
    var events := EventsFor(log, id);
    FoundIsFirst(log, id);
    if LastStatus(events) != Null {
      var t :| t <= clock && Tracked(env, events, FirstCreated(events).request, t, false);
      StatusMoves(env, FirstCreated(events).request, DecisionsIn(events), t, now);
    }
  }

  lemma IdIsNotEmpty(H: Hash, r: Request)
    ensures RequestId(H, r) != ""
  {
    hide JsonBytes, ToHex, IdentityFields;
  }

  lemma CreatedOutcome(env: Env, log: seq<LedgerEntry>, e: LedgerEntry, clock: int, now: string)
    requires EntriesOk(env, log) && CreatedByClock(env.gate.trust.parse, log) && AllStatusesOk(env, log, clock, false)
    requires NotBefore(env.gate.trust.parse, clock, now) && e in log && e.eventType == CREATED
    ensures RequestFromJson(e.payload).Some? && e.requestId.Some? && e.requestId.value != ""
    ensures var checks := StatusChecksOf(env, log, e.requestId.value, now);
            && (checks.None? <==> !WindowOpens(env, RequestFromJson(e.payload).value))
            && (checks.Some? ==> (Clean(checks) <==> !Reopened(env, log, e.requestId.value, Clock(env.gate.trust.parse, now))))
  {
    hide StatusChecksOf, RequestFromJson, RequestId, LoadRequest, Pinned, StatusOk, EntriesOk, AllStatusesOk, NotBefore, Clean;
    hide CreatedByClock, Reopened, WindowOpens, EventsFor;
    CreatedHere(env, log, e);
    IdIsNotEmpty(env.gate.H, RequestFromJson(e.payload).value);
    StatusesAt(env, log, e.requestId.value, clock, false);
    StatusOutcome(env, log, e.requestId.value, clock, now);
  }

  lemma StatusesOutcome(env: Env, log: seq<LedgerEntry>, entries: seq<LedgerEntry>, clock: int, now: string)
    requires EntriesOk(env, log) && CreatedByClock(env.gate.trust.parse, log) && AllStatusesOk(env, log, clock, false)
    requires NotBefore(env.gate.trust.parse, clock, now) && forall e :: e in entries ==> e in log
    ensures var checks := StatusChecks(env, log, Walk(entries).requestIds, now);
            && (checks.Some? <==> WindowsOpen(env, entries))
            && (checks.Some? ==> (Clean(checks) <==> NoneReopened(env, log, entries, Clock(env.gate.trust.parse, now))))
  {
    hide Walk, Clean, StatusChecks, StatusChecksOf, DecodeDecision, RequestFromJson, EntriesOk, AllStatusesOk, CreatedByClock;
    hide NotBefore, Vetted, WindowOpens, Reopened, Clock;
    forall e | e in entries && e.eventType == RECORDED
      ensures DecodeDecision(e.payload).Some?
    {
      RecordedDecodes(env, log, e);
    }
    WalkIds(entries);
    var ids := Walk(entries).requestIds;
    forall e | e in entries && e.eventType == CREATED
      ensures RequestFromJson(e.payload).Some? && e.requestId.Some? && e.requestId.value in ids
      ensures var checks := StatusChecksOf(env, log, e.requestId.value, now);
              && (checks.None? <==> !WindowOpens(env, RequestFromJson(e.payload).value))
              && (checks.Some? ==> (Clean(checks) <==> !Reopened(env, log, e.requestId.value, Clock(env.gate.trust.parse, now))))
    {
      CreatedOutcome(env, log, e, clock, now);
    }
    StatusChecksRaise(env, log, ids, now);
    StatusChecksClean(env, log, ids, now);
    assert IdsOf(entries, ids);
    AllSome(env, log, entries, ids, now);
    if StatusChecks(env, log, ids, now).Some? {
      AllClean(env, log, entries, ids, now);
    }
  }

  lemma RecordedDecodes(env: Env, log: seq<LedgerEntry>, e: LedgerEntry)
    requires EntriesOk(env, log) && e in log && e.eventType == RECORDED
    ensures DecodeDecision(e.payload).Some?
  {
    hide DecodeDecision, MayDecide, LoadRequest, ContextDigest, Within;
    RecordedHere(env, log, e);
  }

  ghost predicate OpenedAs(entries: seq<LedgerEntry>, id: string) {
    exists e :: e in entries && e.eventType == CREATED && e.requestId == Some(id)
  }

  /** The ids walked over are those of the openings. */
  ghost predicate IdsOf(entries: seq<LedgerEntry>, ids: seq<string>) {
    && (forall e :: e in entries && e.eventType == CREATED ==> e.requestId.Some? && e.requestId.value in ids)
    && (forall id :: id in ids ==> OpenedAs(entries, id))
  }

  lemma AllSome(env: Env, log: seq<LedgerEntry>, entries: seq<LedgerEntry>, ids: seq<string>, now: string)
    requires IdsOf(entries, ids)
    requires forall e :: e in entries && e.eventType == CREATED ==> RequestFromJson(e.payload).Some?
    requires forall e :: e in entries && e.eventType == CREATED ==>
               (StatusChecksOf(env, log, e.requestId.value, now).None? <==> !WindowOpens(env, RequestFromJson(e.payload).value))
    ensures (forall i :: 0 <= i < |ids| ==> StatusChecksOf(env, log, ids[i], now).Some?) <==> WindowsOpen(env, entries)
  {
    hide StatusChecksOf, RequestFromJson, WindowOpens;
    if !WindowsOpen(env, entries) {
      var e :| e in entries && e.eventType == CREATED && !WindowOpens(env, RequestFromJson(e.payload).value);
      var i :| 0 <= i < |ids| && ids[i] == e.requestId.value;
      assert StatusChecksOf(env, log, ids[i], now).None?;
    } else {
      forall i | 0 <= i < |ids|
        ensures StatusChecksOf(env, log, ids[i], now).Some?
      {
        assert ids[i] in ids && OpenedAs(entries, ids[i]);
      }
    }
  }

  lemma AllClean(env: Env, log: seq<LedgerEntry>, entries: seq<LedgerEntry>, ids: seq<string>, now: string)
    requires IdsOf(entries, ids)
    requires forall e :: e in entries && e.eventType == CREATED ==>
               (Clean(StatusChecksOf(env, log, e.requestId.value, now)) <==>
                !Reopened(env, log, e.requestId.value, Clock(env.gate.trust.parse, now)))
    ensures (forall i :: 0 <= i < |ids| ==> Clean(StatusChecksOf(env, log, ids[i], now)))
       <==> NoneReopened(env, log, entries, Clock(env.gate.trust.parse, now))
  {
    hide StatusChecksOf, Clean, Reopened, Clock;
    if !NoneReopened(env, log, entries, Clock(env.gate.trust.parse, now)) {
      var e :| e in entries && e.eventType == CREATED && e.requestId.Some?
               && Reopened(env, log, e.requestId.value, Clock(env.gate.trust.parse, now));
      var i :| 0 <= i < |ids| && ids[i] == e.requestId.value;
      assert !Clean(StatusChecksOf(env, log, ids[i], now));
    } else {
      forall i | 0 <= i < |ids|
        ensures Clean(StatusChecksOf(env, log, ids[i], now))
      {
        assert ids[i] in ids && OpenedAs(entries, ids[i]);
      }
    }
  }

  // ----------------------------------------------------------------- the theorems

  /** What `verify` reports after any sequential run of creating, deciding, publishing and rebuilding,
      with a clock that does not go back and a trusted log key, at any later time, from any position,
      for any length, and against any checkpoint published before: it raises exactly when the deadline
      of some request opened in the segment cannot be told; and otherwise every check is ok exactly
      when no request opened in the segment was once decided and is pending again. */
  lemma VerifyOutcome(s: Service, ops: seq<Op>, origin: int, trusted: Option<LedgerEntry>, start: nat, limit: Option<nat>, now: string)
    requires Orderly(s.env.gate.trust.parse, ops, origin) && TrustedKeys(s.env.gate, ops)
    requires NotBefore(s.env.gate.trust.parse, ClockAfter(s.env.gate.trust.parse, ops, origin), now)
    requires trusted.Some? ==> trusted.value in RunAll(s, ops).log && trusted.value.eventType == PUBLISHED
    ensures var log := RunAll(s, ops).log;
            var pinned := if trusted.Some? then CheckpointFromJson(trusted.value.payload) else None;
            var report, entries := Verify(s.env, log, pinned, start, limit, now), ScanFrom(log, start, limit);
            && (report.None? <==> !WindowsOpen(s.env, entries))
            && (report.Some? ==>
                 (AllOk(report.value.checks) <==> NoneReopened(s.env, log, entries, Clock(s.env.gate.trust.parse, now))))
  {
    hide RunAll, Orderly, NotBefore, ClockAfter, AllOk, CheckpointFromJson, ScanFrom, EntryOk, Linked, AllStatusesOk, AllAccepted;
    hide WindowsOpen, NoneReopened, CreatedByClock, Walk, Segment, PublishedChecks, TrustedChecks, DecisionChecks, StatusChecks, TrustedKeys;
    hide LastReached, Clock;
    var env, log, clock := s.env, RunAll(s, ops).log, ClockAfter(s.env.gate.trust.parse, ops, origin);
    var entries := ScanFrom(log, start, limit);
    EveryRunIsSound(s, ops);
    OrderlyStatuses(s, ops, origin, false);
    TrustedIsAccepted(s, ops);
    ScanIsLinked(env.gate.H, log, start, limit);
    PublishedIsClean(env, log);
    var pinned := if trusted.Some? then CheckpointFromJson(trusted.value.payload) else None;
    NothingPinned(env, log);
    if trusted.Some? {
      PinnedIsClean(env, log, trusted.value);
    }
    DecisionsAreClean(env, log, entries);
    StatusesOutcome(env, log, entries, clock, now);
    Reaches(env.gate.H, log, start, limit);
    ReportClean(env, log, pinned, start, limit, now);
  }

  lemma Reaches(H: Hash, log: seq<LedgerEntry>, start: nat, limit: Option<nat>)
    requires Walk(ScanFrom(log, start, limit)).decodes && Segment(H, ScanFrom(log, start, limit), start, PrevHashAt(log, start)).Intact?
    ensures LastReached(H, log, start, limit).Some?
  {
    hide Walk, Segment, ScanFrom;
  }

  lemma NothingPinned(env: Env, log: seq<LedgerEntry>)
    ensures AllOk(TrustedChecks(env, log, None))
  {
  }

  /** No false alarms: when besides no approver changes a verdict, every check of every such report is
      ok; and `verify` raises only if the deadline of some request in the segment cannot be told. */
  lemma NoFalseAlarms(s: Service, ops: seq<Op>, origin: int, trusted: Option<LedgerEntry>, start: nat, limit: Option<nat>, now: string)
    requires Orderly(s.env.gate.trust.parse, ops, origin) && TrustedKeys(s.env.gate, ops) && Steadfast(RunAll(s, ops).log)
    requires NotBefore(s.env.gate.trust.parse, ClockAfter(s.env.gate.trust.parse, ops, origin), now)
    requires trusted.Some? ==> trusted.value in RunAll(s, ops).log && trusted.value.eventType == PUBLISHED
    ensures var log := RunAll(s, ops).log;
            var pinned := if trusted.Some? then CheckpointFromJson(trusted.value.payload) else None;
            var report := Verify(s.env, log, pinned, start, limit, now);
            && (report.None? <==> !WindowsOpen(s.env, ScanFrom(log, start, limit)))
            && (report.Some? ==> AllOk(report.value.checks))
  {
    hide RunAll, Orderly, NotBefore, ClockAfter, Verify, AllOk, CheckpointFromJson, ScanFrom, AllStatusesOk, WindowsOpen, NoneReopened;
    hide TrustedKeys, Steadfast, CreatedByClock, Clock;
    VerifyOutcome(s, ops, origin, trusted, start, limit, now);
    OrderlyStatuses(s, ops, origin, true);
    SteadfastStaysClosed(s.env, RunAll(s, ops).log, ScanFrom(RunAll(s, ops).log, start, limit),
                         ClockAfter(s.env.gate.trust.parse, ops, origin), now);
  }

  lemma SteadfastStaysClosed(env: Env, log: seq<LedgerEntry>, entries: seq<LedgerEntry>, clock: int, now: string)
    requires AllStatusesOk(env, log, clock, true) && NotBefore(env.gate.trust.parse, clock, now)
    ensures NoneReopened(env, log, entries, Clock(env.gate.trust.parse, now))
  {
    hide Reopened, AllStatusesOk;
    var t := Clock(env.gate.trust.parse, now);
    forall e | e in entries && e.eventType == CREATED && e.requestId.Some?
      ensures !Reopened(env, log, e.requestId.value, t)
    {
      SettledStaysClosed(env, log, e.requestId.value, clock, t);
    }
  }

  lemma SettledStaysClosed(env: Env, log: seq<LedgerEntry>, id: string, clock: int, now: int)
    requires AllStatusesOk(env, log, clock, true) && clock <= now
    ensures !Reopened(env, log, id, now)
  {
    hide StatusAt, DecisionsIn, EventsFor, LastStatus, LoadRequest, FirstCreated, StatusName;
    var events := EventsFor(log, id);
    FoundIsFirst(log, id);
    assert StatusOk(env, events, clock, true);
    if LastStatus(events) != Null {
      var t :| t <= clock && Tracked(env, events, FirstCreated(events).request, t, true);
      StatusMoves(env, FirstCreated(events).request, DecisionsIn(events), t, now);
    }
  }

  // ------------------------------------------------------ what one call leaves

  /** The ledger after a run that only opens one request. */
  lemma OneOpening(s: Service, o: Opening, at: string)
    requires o.policyId in s.env.policies
    requires forall f :: f in s.env.policies[o.policyId].requiredSubjectFields ==> f in o.subject
    ensures var r := RequestFor(s.env.gate.H, o, s.env.policies[o.policyId], at);
            var st := RunAll(s, [CreateOp(o, at)]);
            && st.keys == map[]
            && st.log == [EntryFor(s.env.gate.H, [], CreatedDraft(s.env.gate.H, r))]
            && LoadRequest(st.log, RequestId(s.env.gate.H, r)) == Found(r)
  {
    hide Project, RequestId, PolicyDigest, LoadRequest, EntryFor, CreatedDraft, Create;
    var H := s.env.gate.H;
    var op := CreateOp(o, at);
    var r := RequestFor(H, o, s.env.policies[o.policyId], at);
    assert [op][..0] == [];
    assert RunAll(s, []) == EMPTY;
    assert RunAll(s, [op]) == Create(s, EMPTY, o, at).0;
    NothingLoads(RequestId(H, r));
    CreateOnEmpty(s, o, at);
    OpenedIsFound(H, r);
  }

  lemma NothingLoads(id: string)
    ensures LoadRequest([], id).NotFound?
  {
  }

  lemma CreateOnEmpty(s: Service, o: Opening, at: string)
    requires o.policyId in s.env.policies
    requires forall f :: f in s.env.policies[o.policyId].requiredSubjectFields ==> f in o.subject
    requires LoadRequest([], RequestId(s.env.gate.H, RequestFor(s.env.gate.H, o, s.env.policies[o.policyId], at))).NotFound?
    ensures var r := RequestFor(s.env.gate.H, o, s.env.policies[o.policyId], at);
            var st := Create(s, EMPTY, o, at).0;
            st.keys == map[] && st.log == [EntryFor(s.env.gate.H, [], CreatedDraft(s.env.gate.H, r))]
  {
    hide Project, RequestId, PolicyDigest, LoadRequest, EntryFor, CreatedDraft;
  }

  lemma OpenedIsFound(H: Hash, r: Request)
    ensures LoadRequest([EntryFor(H, [], CreatedDraft(H, r))], RequestId(H, r)) == Found(r)
  {
    hide RequestId, RequestJson, RequestFromJson, CanonicalHash, EventsFor;
    var e := EntryFor(H, [], CreatedDraft(H, r));
    RequestRoundTrip(H, r);
    EventsForOneMore([], e, RequestId(H, r));
    NoEvents(RequestId(H, r));
    assert [] + [e] == [e];
    assert FirstCreated([e]) == Found(r);
  }

  lemma NoEvents(id: string)
    ensures EventsFor([], id) == []
  {
  }

  /** Opening one request whose deadline cannot be told is enough to make `verify` raise, at any later
      time and for ever. */
  lemma OpeningThatRaises(s: Service, o: Opening, at: string, now: string)
    requires o.policyId in s.env.policies
    requires forall f :: f in s.env.policies[o.policyId].requiredSubjectFields ==> f in o.subject
    requires ClockReading(s.env.gate.trust.parse, at).Some?
    requires NotBefore(s.env.gate.trust.parse, Clock(s.env.gate.trust.parse, at), now)
    requires !WindowOpens(s.env, RequestFor(s.env.gate.H, o, s.env.policies[o.policyId], at))
    ensures Verify(s.env, RunAll(s, [CreateOp(o, at)]).log, None, 0, None, now).None?
  {
    hide RunAll, Verify, RequestId, PolicyDigest, LoadRequest, WindowOpens, ClockReading, CanonicalHash, RequestJson, RequestFromJson;
    var ops := [CreateOp(o, at)];
    var r := RequestFor(s.env.gate.H, o, s.env.policies[o.policyId], at);
    var log := RunAll(s, ops).log;
    OneOpening(s, o, at);
    RequestRoundTrip(s.env.gate.H, r);
    assert log[0] in log && log[0].eventType == CREATED && log[0].payload == RequestJson(s.env.gate.H, r);
    assert ScanFrom(log, 0, None) == log;
    OneStepIsOrderly(s, CreateOp(o, at), Clock(s.env.gate.trust.parse, at));
    VerifyOutcome(s, ops, Clock(s.env.gate.trust.parse, at), None, 0, None, now);
  }

  lemma OneStepIsOrderly(s: Service, op: Op, start: int)
    requires op.CreateOp? && NotBefore(s.env.gate.trust.parse, start, op.now)
    ensures Orderly(s.env.gate.trust.parse, [op], start) && TrustedKeys(s.env.gate, [op])
    ensures ClockAfter(s.env.gate.trust.parse, [op], start) == Clock(s.env.gate.trust.parse, op.now)
  {
    hide ClockReading;
    assert [op][..0] == [];
  }

  /** With the decision appended: one more decision, no status yet, and the record derived. */
  lemma RecordedEvents(env: Env, log: seq<LedgerEntry>, r: Request, d: Decision, envelope: Json, t: Times)
    requires Sound(env, log) && CreatedByClock(env.gate.trust.parse, log)
    requires DecodeDecision(envelope) == Some(d) && LoadRequest(log, d.requestId) == Found(r)
    requires Screen(env.gate, envelope, d, r, t.screened).Passed?
    requires ClockReading(env.gate.trust.parse, t.evaluated).Some? && WindowOpens(env, r)
    ensures var more := Appended(env.gate.H, log, RecordedDraft(envelope, d));
            var before, after := EventsFor(log, d.requestId), EventsFor(more, d.requestId);
            var result := Recompute(env, more, r, t.evaluated);
            && DecisionsIn(after) == DecisionsIn(before) + [d] && LastStatus(after) == LastStatus(before)
            && result.Derived? && RequestId(env.gate.H, result.record.request) == d.requestId
            && StatusAt(env, r, DecisionsIn(before) + [d], Clock(env.gate.trust.parse, t.evaluated)) == Some(result.record.result.status)
            && LoadRequest(more, d.requestId) == Found(r)
  {
    hide EntriesOk, Linked, LoadRequest, DecodeDecision, Screen, Recompute, StatusAt, RequestId, LastStatus, CanonicalHash;
    hide EventsFor, DecisionsIn, CreatedByClock, CaseFor, WindowOpens, ClockReading;
    var more := Appended(env.gate.H, log, RecordedDraft(envelope, d));
    var e := EntryFor(env.gate.H, log, RecordedDraft(envelope, d));
    var id := d.requestId;
    RecordedStep(env, log, envelope, d, r, t.screened);
    ByClockLonger(env.gate.trust.parse, log, e);
    LoadRequestIsStable(log, [e], id);
    LoadedHasItsId(env, log, id);
    DerivesNow(env, more, id, t.evaluated);
    OnlyThisRequest(log, e, id);
    DecisionsInAppend(EventsFor(log, id), e);
    LastStatusAppends(EventsFor(log, id), [e]);
  }

  /** With the status appended: the same decisions, and that status. */
  lemma ChangedEvents(env: Env, log: seq<LedgerEntry>, record: Record, evaluated: string, at: string, id: string)
    requires RequestId(env.gate.H, record.request) == id && LoadRequest(log, id).Found?
    ensures var more := Appended(env.gate.H, log, StatusDraft(env, record, evaluated, at));
            && DecisionsIn(EventsFor(more, id)) == DecisionsIn(EventsFor(log, id))
            && LastStatus(EventsFor(more, id)) == Str(StatusName(record.result.status))
            && LoadRequest(more, id) == LoadRequest(log, id)
  {
    hide LoadRequest, StatusPayload, RequestId, StatusName, StatusIn, EventsFor, DecisionsIn, LastStatus, CanonicalHash;
    var draft := StatusDraft(env, record, evaluated, at);
    var change := EntryFor(env.gate.H, log, draft);
    StatusIsInPayload(env, record, evaluated);
    OnlyThisRequest(log, change, id);
    DecisionsInAppend(EventsFor(log, id), change);
    assert DecisionsIn(EventsFor(log, id)) + [] == DecisionsIn(EventsFor(log, id));
    LoadRequestIsStable(log, [change], id);
    LastIsChange(EventsFor(log, id), change);
  }

  /** What recording a decision leaves of its request: one more decision, and as last status the new
      one, or the old one if the new one is pending. */
  lemma RecordOutcome(s: Service, st: Stores, r: Request, d: Decision, envelope: Json, t: Times)
    requires Sound(s.env, st.log) && CreatedByClock(s.env.gate.trust.parse, st.log)
    requires DecodeDecision(envelope) == Some(d) && LoadRequest(st.log, d.requestId) == Found(r)
    requires Screen(s.env.gate, envelope, d, r, t.screened).Passed?
    requires ClockReading(s.env.gate.trust.parse, t.evaluated).Some? && WindowOpens(s.env, r)
    ensures var before, after := EventsFor(st.log, d.requestId), EventsFor(RecordDecision(s, st, r, d, envelope, t).0.log, d.requestId);
            var status := StatusAt(s.env, r, DecisionsIn(before) + [d], Clock(s.env.gate.trust.parse, t.evaluated));
            && DecisionsIn(after) == DecisionsIn(before) + [d]
            && status.Some?
            && LastStatus(after) == if status.value.Pending? then LastStatus(before) else Str(StatusName(status.value))
    ensures LoadRequest(RecordDecision(s, st, r, d, envelope, t).0.log, d.requestId) == Found(r)
  {
    hide Sound, LoadRequest, DecodeDecision, Screen, Recompute, StatusAt, StatusDraft, RequestId, StatusName, EntryFor;
    hide EventsFor, ProjectRecord, DecisionsIn, CreatedByClock, WindowOpens, ClockReading, LastStatus, Clock;
    RecordedEvents(s.env, st.log, r, d, envelope, t);
    var log := Appended(s.env.gate.H, st.log, RecordedDraft(envelope, d));
    var record := Recompute(s.env, log, r, t.evaluated).record;
    ChangedEvents(s.env, log, record, t.evaluated, t.changed, d.requestId);
  }

  lemma LastIsChange(events: seq<LedgerEntry>, change: LedgerEntry)
    requires change.eventType == STATUS_CHANGED
    ensures LastStatus(events + [change]) == StatusIn(change.payload)
  {
    hide StatusIn;
  }
}
