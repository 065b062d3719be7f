/** The service as it is coded, over the in-memory stores: each method changes the stores exactly as
    its operation says. */
module ApprovalServices {
  import opened ByteStrings
  import opened JsonText
  import opened Canonical
  import opened Models
  import opened Datetime
  import Merkle
  import opened Chain
  import opened PolicyEngine
  import opened Verifier
  import opened Envelope
  import opened SignedCheckpoints
  import opened Ceremony
  import opened Reads
  import opened Records
  import opened Operations
  import opened MemoryStores
  import Protocol
  import Audit
  import opened LedgerHealth
  import opened SequentialRuns
  import opened Answers
  import opened Submissions
  import opened Publications
  import opened Rebuilds
  import CleanReports

  // ------------------------------------------------------ appending against rivals

  datatype AppendResult = Landed(entry: LedgerEntry) | Exhausted | NoAttempts

  function AllAppended(H: Hash, log: seq<LedgerEntry>, drafts: seq<Draft>): seq<LedgerEntry>
    decreases |drafts|
  {
    if drafts == [] then log else AllAppended(H, Appended(H, log, drafts[0]), drafts[1..])
  }

  /** One append with `n` attempts left, when other callers land the drafts `rivals[0]` between its
      next head read and its next insert, `rivals[1]` between the two after, and so on. */
  function AppendUnder(H: Hash, log: seq<LedgerEntry>, d: Draft, rivals: seq<seq<Draft>>, n: nat): (seq<LedgerEntry>, AppendResult)
    decreases n
  {
    if n == 0 then (log, NoAttempts)
    else if rivals == [] || rivals[0] == [] then (Appended(H, log, d), Landed(EntryFor(H, log, d)))
    else if n == 1 then (AllAppended(H, log, rivals[0]), Exhausted)
    else AppendUnder(H, AllAppended(H, log, rivals[0]), d, rivals[1..], n - 1)
  }

  lemma {:induction false} AllAppendedGrows(H: Hash, log: seq<LedgerEntry>, drafts: seq<Draft>)
    requires InPlace(log)
    ensures log <= AllAppended(H, log, drafts) && |AllAppended(H, log, drafts)| == |log| + |drafts|
    ensures InPlace(AllAppended(H, log, drafts))
    decreases |drafts|
  {
    hide CanonicalHash;
    if drafts != [] {
      AllAppendedGrows(H, Appended(H, log, drafts[0]), drafts[1..]);
    }
  }

  /** Some attempt found no rival between its head read and its insert. */
  predicate QuietWindow(rivals: seq<seq<Draft>>, n: nat) {
    |rivals| < n || exists i :: 0 <= i < n && rivals[i] == []
  }

  /** An append is exhausted exactly when every one of its attempts met a rival, and then at least as
      many entries of others have landed as it made attempts; otherwise its one entry is the last,
      sealed against the entry it follows. Nothing written before is touched. */
  lemma {:induction false} AppendOutcome(H: Hash, log: seq<LedgerEntry>, d: Draft, rivals: seq<seq<Draft>>, n: nat)
    requires n >= 1 && InPlace(log)
    ensures var (after, r) := AppendUnder(H, log, d, rivals, n);
            && log <= after && InPlace(after) && !r.NoAttempts?
            && (r.Exhausted? <==> !QuietWindow(rivals, n))
            && (r.Exhausted? ==> |after| >= |log| + n)
            && (r.Landed? ==>
                 && |after| > |log|
                 && after[|after| - 1] == r.entry == EntryFor(H, after[..|after| - 1], d))
    decreases n
  {
    hide EntryFor, AllAppended;
    if rivals == [] || rivals[0] == [] {
      SeqNoNext(H, log, d);
      assert Appended(H, log, d)[..|log|] == log;
    } else {
      AllAppendedGrows(H, log, rivals[0]);
      if n > 1 {
        AppendOutcome(H, AllAppended(H, log, rivals[0]), d, rivals[1..], n - 1);
        assert forall i :: 0 < i < |rivals| ==> rivals[i] == rivals[1..][i - 1];
        QuietLater(rivals, n);
      }
    }
  }

  lemma QuietLater(rivals: seq<seq<Draft>>, n: nat)
    requires n > 1 && rivals != [] && rivals[0] != []
    ensures QuietWindow(rivals, n) <==> QuietWindow(rivals[1..], n - 1)
  {
    var rest := rivals[1..];
    forall i | 0 < i < |rivals|
      ensures rivals[i] == rest[i - 1]
    {
    }
    if |rivals| >= n && QuietWindow(rivals, n) {
      var i :| 0 <= i < n && rivals[i] == [];
      assert rest[i - 1] == [];
    }
    if |rivals| >= n && QuietWindow(rest, n - 1) {
      var i :| 0 <= i < n - 1 && rest[i] == [];
      assert rivals[i + 1] == [];
    }
  }

  lemma SeqNoNext(H: Hash, log: seq<LedgerEntry>, d: Draft)
    requires InPlace(log)
    ensures EntryFor(H, log, d).seqNo == |log| && InPlace(Appended(H, log, d))
    ensures EntryFor(H, log, d).requestId == d.requestId
  {
    hide CanonicalHash;
  }

  /** With no rivals an append is a step of the sequential service. */
  lemma AppendAlone(H: Hash, log: seq<LedgerEntry>, d: Draft, n: nat)
    requires n >= 1
    ensures AppendUnder(H, log, d, [], n) == (Appended(H, log, d), Landed(EntryFor(H, log, d)))
  {
    hide EntryFor;
  }

  function Dropped(rivals: seq<seq<Draft>>, k: nat): seq<seq<Draft>> {
    if k <= |rivals| then rivals[k..] else []
  }

  ghost predicate NoEmptyIds(log: seq<LedgerEntry>) {
    forall e :: e in log ==> e.requestId != Some("")
  }

  lemma {:induction false} NoEventsOfEmptyId(log: seq<LedgerEntry>)
    requires NoEmptyIds(log)
    ensures EventsFor(log, "") == []
  {
    if log != [] {
      NoEventsOfEmptyId(log[..|log| - 1]);
    }
  }

  lemma RequestIdNotEmpty(H: Hash, r: Request)
    ensures RequestId(H, r) != ""
  {
    hide JsonBytes, ToHex, IdentityFields;
  }

  class ApprovalService {
    const service: Service
    const attempts: nat
    const events: MemoryEventStore
    const idempotency: MemoryIdempotencyStore
    const projections: MemoryProjectionStore

    ghost predicate Valid()
      reads events
    {
      attempts >= 1 && events.Valid() && InPlace(events.entries) && NoEmptyIds(events.entries)
    }

    /** The stores hold a ledger as this service writes it; every call keeps that. */
    ghost predicate Healthy()
      reads events
    {
      Valid() && Sound(service.env, events.entries)
    }

    function State(): Stores
      reads events, idempotency, projections
    {
      Stores(events.entries, idempotency.data, projections.views)
    }

    constructor (service: Service, attempts: nat)
      requires attempts >= 1
      ensures Healthy() && fresh(events) && fresh(idempotency) && fresh(projections)
      ensures State() == EMPTY && this.service == service && this.attempts == attempts
    {
      this.service := service;
      this.attempts := attempts;
      events := new MemoryEventStore(service.env.gate.logId);
      idempotency := new MemoryIdempotencyStore();
      projections := new MemoryProjectionStore();
      EmptyIsSound(service.env);
    }

    /** Other callers' appends, each against the head it finds. */
    method Interfere(drafts: seq<Draft>)
      requires events.Valid() && InPlace(events.entries)
      modifies events
      ensures events.Valid() && InPlace(events.entries)
      ensures events.entries == AllAppended(service.env.gate.H, old(events.entries), drafts)
    {
      hide EntryFor;
      var H := service.env.gate.H;
      for i := 0 to |drafts|
        invariant events.Valid() && InPlace(events.entries)
        invariant AllAppended(H, old(events.entries), drafts) == AllAppended(H, events.entries, drafts[i..])
      {
        assert drafts[i..][0] == drafts[i] && drafts[i..][1..] == drafts[i + 1..];
        var prev := events.Head();
        var entry := EntryFor(H, events.entries, drafts[i]);
        SeqNoNext(H, events.entries, drafts[i]);
        var ok := events.Append(entry);
      }
    }

    /** `_append`: read the head, seal against it, insert; retry on conflict. */
    method Append(d: Draft, rivals: seq<seq<Draft>>) returns (r: AppendResult)
      requires events.Valid() && InPlace(events.entries)
      modifies events
      ensures events.Valid() && InPlace(events.entries)
      ensures (events.entries, r) == AppendUnder(service.env.gate.H, old(events.entries), d, rivals, attempts)
    {
      hide EntryFor, AllAppended;
      var H := service.env.gate.H;
      var attempt := 0;
      while attempt < attempts
        invariant attempt <= attempts && (attempt == attempts ==> attempts == 0)
        invariant events.Valid() && InPlace(events.entries)
        invariant AppendUnder(H, old(events.entries), d, rivals, attempts)
               == AppendUnder(H, events.entries, d, Dropped(rivals, attempt), attempts - attempt)
      {
        ghost var before := events.entries;
        var prev := events.Head();
        var entry := NextEntry(H, prev, d.eventType, d.payload, d.atTime, d.requestId);
        IsEntryFor(H, before, d);
        SeqNoNext(H, before, d);
        if attempt < |rivals| {
          AllAppendedGrows(H, before, rivals[attempt]);
          NothingAppended(H, before);
          Interfere(rivals[attempt]);
        }
        var ok := events.Append(entry);
        if ok {
          return Landed(entry);
        }
        if attempt == attempts - 1 {
          return Exhausted;
        }
        attempt := attempt + 1;
      }
      return NoAttempts;
    }

    /** `_load_request` */
    method LoadById(id: string) returns (loaded: Loaded)
      requires Valid()
      ensures loaded == LoadRequest(events.entries, id)
    {
      hide EventsFor;
      NoEventsOfEmptyId(events.entries);
      var found := events.EventsForRequest(id);
      var entries := found.value;
      for i := 0 to |entries|
        invariant FirstCreated(entries) == FirstCreated(entries[i..])
      {
        assert entries[i..][0] == entries[i] && entries[i..][1..] == entries[i + 1..];
        if entries[i].eventType == CREATED {
          var r := RequestFromJson(entries[i].payload);
          return if r.None? then Malformed else Found(r.value);
        }
      }
      return NotFound;
    }

    /** `_decisions_for` */
    method CollectDecisions(r: Request) returns (ds: Option<seq<Decision>>)
      requires Valid()
      ensures ds == DecisionsFor(service.env.gate, events.entries, r)
    {
      hide EventsFor, RequestId, DecodeDecision, Authorized;
      var g := service.env.gate;
      NoEventsOfEmptyId(events.entries);
      var found := events.EventsForRequest(RequestId(g.H, r));
      var entries := found.value;
      var out := [];
      for i := 0 to |entries|
        invariant AuthorizedAmong(g, Envelopes(entries[..i])) == Some(out)
      {
        var entry := entries[i];
        assert entries[..i + 1][..i] == entries[..i];
        OneMoreEnvelope(g, entries, i);
        if entry.eventType != RECORDED {
          continue;
        }
        var d := DecodeDecision(entry.payload);
        if d.None? {
          return None;
        }
        var authorized := DecisionAuthorized(g.trust, entry.payload, d.value.approverId, g.logId, d.value.decidedAt,
                                             Known(g.identities, d.value.approverId));
        if authorized.None? {
          return None;
        }
        if authorized.value {
          out := out + [d.value];
        }
      }
      assert entries[..|entries|] == entries;
      return Some(out);
    }

    /** `_recompute` */
    method Derive(r: Request, at: string) returns (result: Recomputed)
      requires Valid()
      ensures result == Recompute(service.env, events.entries, r, at)
    {
      hide DecisionsFor, Evaluate, PolicyDigest;
      var env := service.env;
      if r.policyId !in env.policies {
        return NoSuchPolicy;
      }
      var policy := env.policies[r.policyId];
      if PolicyDigest(env.gate.H, policy) != r.policyDigest {
        return PolicyChanged;
      }
      var ds := CollectDecisions(r);
      if ds.None? {
        return Raised;
      }
      var result' := RunEngine(env.gate.H, env.gate.trust.parse, r, ds.value, policy, env.gate.identities, at);
      if result'.None? {
        return Raised;
      }
      return Derived(Record(r, ds.value, result'.value));
    }

    /** `_last_recorded_status` */
    method LastRecordedStatus(id: string) returns (status: Json)
      requires Valid()
      ensures status == LastStatus(EventsFor(events.entries, id))
    {
      hide EventsFor, StatusIn;
      NoEventsOfEmptyId(events.entries);
      var found := events.EventsForRequest(id);
      var entries := found.value;
      status := Null;
      for i := 0 to |entries|
        invariant status == LastStatus(entries[..i])
      {
        assert entries[..i + 1][..i] == entries[..i];
        if entries[i].eventType == STATUS_CHANGED {
          status := StatusIn(entries[i].payload);
        }
      }
      assert entries[..|entries|] == entries;
    }

    /** `_project` of a record at hand. */
    method StoreView(record: Record, at: string, lastSeq: int)
      modifies projections
      ensures projections.views == ProjectRecord(service, old(projections.views), record, at, lastSeq)
    {
      hide BuildView;
      if service.projects && record.request.policyId in service.env.policies {
        projections.Put(BuildView(service.env.gate.H, record, service.env.policies[record.request.policyId],
                                  service.env.gate.identities, lastSeq, at));
      }
    }

    /** `_project` of a request; `false` raises. */
    method DeriveAndStoreView(r: Request, at: string, lastSeq: int) returns (ok: bool)
      requires Valid()
      modifies projections
      ensures var views := Project(service, events.entries, old(projections.views), r, at, lastSeq);
              ok == views.Some? && projections.views == if ok then views.value else old(projections.views)
    {
      hide Recompute, ProjectRecord;
      if !service.projects {
        return true;
      }
      var derived := Derive(r, at);
      if !derived.Derived? {
        return false;
      }
      StoreView(derived.record, at, lastSeq);
      return true;
    }

    /** `create_request` */
    method CreateRequest(o: Opening, now: string) returns (outcome: CreateOutcome)
      requires Valid()
      modifies events, projections
      ensures Valid() && (State(), outcome) == Create(service, old(State()), o, now)
      ensures outcome.PolicyUnknown? <==> o.policyId !in service.env.policies
      ensures outcome.SubjectIncomplete? <==> o.policyId in service.env.policies && !Acceptable(service.env, o)
      ensures !Acceptable(service.env, o) ==> State() == old(State())
      ensures old(Healthy()) ==> Healthy()
      ensures old(Healthy()) && Acceptable(service.env, o) ==>
                forall r :: AsksFor(service.env, o, now, r) ==> CreateTold(service, old(State()), r, State(), outcome)
    {
      hide EntryFor, LoadRequest, Project, RequestId, PolicyDigest, RequestJson, Sound, CreateTold, AsksFor, Acceptable;
      CreateKeepsPromises(service, State(), o, now);
      var H := service.env.gate.H;
      if o.policyId !in service.env.policies {
        return PolicyUnknown;
      }
      var policy := service.env.policies[o.policyId];
      var required := policy.requiredSubjectFields;
      for i := 0 to |required|
        invariant forall j :: 0 <= j < i ==> required[j] in o.subject
      {
        if required[i] !in o.subject {
          return SubjectIncomplete;
        }
      }
      var request := RequestFor(H, o, policy, now);
      var loaded := LoadById(RequestId(H, request));
      if loaded.Malformed? {
        return CreateRaised;
      }
      if loaded.Found? {
        return AlreadyOpen(loaded.request);
      }
      var d := CreatedDraft(H, request);
      RequestIdNotEmpty(H, request);
      AppendAlone(H, events.entries, d, attempts);
      SeqNoNext(H, events.entries, d);
      var appended := Append(d, []);
      var ok := DeriveAndStoreView(request, now, appended.entry.seqNo);
      if !ok {
        return CreateRaised;
      }
      return Opened(request);
    }

    /** `_record_decision`; `None` raises. */
    method RecordAndSettle(r: Request, d: Decision, envelope: Json, t: Times) returns (record: Option<Record>)
      requires Valid() && d.requestId != ""
      modifies events, projections
      ensures Valid()
      ensures (State(), record) == RecordDecision(service, old(State()), r, d, envelope, t)
    {
      hide EntryFor, Recompute, StatusPayload, RequestId, ProjectRecord;
      var H := service.env.gate.H;
      var draft := RecordedDraft(envelope, d);
      AppendAlone(H, events.entries, draft, attempts);
      SeqNoNext(H, events.entries, draft);
      var appended := Append(draft, []);
      var derived := Derive(r, t.evaluated);
      if !derived.Derived? {
        return None;
      }
      var lastSeq := appended.entry.seqNo;
      if !derived.record.result.status.Pending? {
        var change := StatusDraft(service.env, derived.record, t.evaluated, t.changed);
        RequestIdNotEmpty(H, derived.record.request);
        AppendAlone(H, events.entries, change, attempts);
        SeqNoNext(H, events.entries, change);
        var changed := Append(change, []);
        lastSeq := changed.entry.seqNo;
      }
      StoreView(derived.record, t.projected, lastSeq);
      return Some(derived.record);
    }

    /** `get_status` */
    method GetStatus(id: string, now: string) returns (outcome: SubmitOutcome)
      requires Valid()
      ensures outcome == StatusOf(service.env, events.entries, id, now)
      ensures Healthy() ==> StatusTold(service.env, events.entries, id, now, outcome)
    {
      hide LoadRequest, Recompute, StatusTold, Linked, EntriesOk;
      if Sound(service.env, events.entries) {
        StatusIsTold(service.env, events.entries, id, now);
      }
      var loaded := LoadById(id);
      if loaded.NotFound? {
        return NoSuchRequest;
      }
      if loaded.Malformed? {
        return SubmitRaised;
      }
      var derived := Derive(loaded.request, now);
      return if derived.Derived? then Replayed(derived.record) else SubmitRaised;
    }

    /** `prepare_decision` */
    method PrepareChallenge(requestId: string, approverId: string, verdict: string, comment: string, idempotencyKey: string, now: string)
        returns (outcome: PrepareOutcome)
      requires Valid()
      ensures outcome == PrepareDecision(service.env, events.entries, requestId, approverId, verdict, comment, idempotencyKey, now)
      ensures outcome.Prepared? ==>
                && LoadRequest(events.entries, requestId).Found?
                && ChallengeFor(service.env.gate.H, LoadRequest(events.entries, requestId).request, requestId, approverId, verdict,
                                comment, idempotencyKey, now, outcome.challenge)
    {
      hide LoadRequest, ChallengeFor, Prepare, Asked;
      var loaded := LoadById(requestId);
      if loaded.NotFound? {
        return NothingToDecide;
      }
      if loaded.Malformed? {
        return PrepareRaised;
      }
      ChallengeTells(service.env.gate.H, loaded.request, requestId, approverId, verdict, comment, idempotencyKey, now);
      return Prepared(Prepare(Asked(service.env.gate.H, loaded.request, requestId, approverId, verdict, comment, idempotencyKey, now)));
    }

    /** `submit_decision` with a signer. */
    method SubmitForApprover(requestId: string, approverId: string, verdict: string, comment: string, idempotencyKey: string,
                             authn: Json, signer: Signer, decidedAt: string, t: Times) returns (outcome: SubmitOutcome)
      requires Valid()
      modifies events, projections, idempotency
      ensures Valid()
      ensures (State(), outcome) == SubmitDecision(service, old(State()), requestId, approverId, verdict, comment, idempotencyKey,
                                                   authn, signer, decidedAt, t)
      ensures old(Healthy()) ==>
                && Healthy()
                && exists d, envelope ::
                     SignedTold(service, old(State()), requestId, approverId, verdict, comment, idempotencyKey, authn, signer, decidedAt,
                                t, d, envelope, State(), outcome)
    {
      hide LoadRequest, Asked, SelfSigned, Submit, SubmitTold, SignedTold, Sound;
      if Sound(service.env, events.entries) {
        var d, envelope := SignedSubmissionIsTold(service, State(), requestId, approverId, verdict, comment, idempotencyKey, authn, signer,
                                                  decidedAt, t);
      }
      var loaded := LoadById(requestId);
      if loaded.NotFound? {
        return NoSuchRequest;
      }
      if loaded.Malformed? {
        return SubmitRaised;
      }
      var decision := Asked(service.env.gate.H, loaded.request, requestId, approverId, verdict, comment, idempotencyKey, decidedAt)
                      .(authn := authn);
      outcome := SubmitSignedDecision(SelfSigned(decision, signer), t);
    }

    /** The keyed half of `submit_signed_decision`: reserve, record, then complete or release. */
    method RecordUnderKey(r: Request, d: Decision, envelope: Json, t: Times) returns (outcome: SubmitOutcome)
      requires Valid() && d.requestId != ""
      modifies events, projections, idempotency
      ensures Valid() && (State(), outcome) == SubmitKeyed(service, old(State()), r, d, envelope, t)
      ensures KeyFor(d) in old(idempotency.data) ==> State() == old(State())
      ensures outcome.KeyConflict?
         <==> KeyFor(d) in old(idempotency.data) && old(idempotency.data)[KeyFor(d)].fingerprint != Fingerprint(service.env.gate.H, d)
      ensures old(Healthy()) && KeyFor(d) in old(idempotency.data) ==> HeldTold(service.env, old(State()), d, t.evaluated, outcome)
    {
      hide RecordDecision, StatusOf, Fingerprint, Protocol.KeyOf, KeyFor, HeldTold, Sound;
      KeyedKeepsPromises(service, State(), r, d, envelope, t);
      KeysAgree(d);
      var key, fingerprint := Protocol.KeyOf(d), Fingerprint(service.env.gate.H, d);
      var reserved := idempotency.Reserve(key, fingerprint);
      if reserved.Conflict? {
        return KeyConflict;
      }
      if reserved.Lost? {
        outcome := GetStatus(if reserved.response.Some? then reserved.response.value else d.requestId, t.evaluated);
        return;
      }
      ghost var st := State();
      RecordingIgnoresKeys(service, old(State()), st, r, d, envelope, t);
      var record := RecordAndSettle(r, d, envelope, t);
      if record.None? {
        idempotency.Release(key);
        assert idempotency.data == old(idempotency.data);
        return SubmitRaised;
      }
      var completed := idempotency.Complete(key, d.requestId);
      assert idempotency.data == old(idempotency.data)[key := Protocol.Reservation(fingerprint, Some(d.requestId))];
      return DecisionRecorded(record.value);
    }

    /** `submit_signed_decision` */
    method SubmitSignedDecision(envelope: Json, t: Times) returns (outcome: SubmitOutcome)
      requires Valid()
      modifies events, projections, idempotency
      ensures Valid() && (State(), outcome) == Submit(service, old(State()), envelope, t)
      ensures old(Healthy()) ==> Healthy() && SubmitTold(service, old(State()), envelope, t, State(), outcome)
    {
      hide RecordDecision, SubmitKeyed, DecodeDecision, LoadRequest, Screen, EventsFor, Sound, SubmitTold;
      SubmitKeepsPromises(service, State(), envelope, t);
      var decoded := DecodeDecision(envelope);
      if decoded.None? {
        return BadEnvelope;
      }
      var d := decoded.value;
      var loaded := LoadById(d.requestId);
      if loaded.NotFound? {
        return NoSuchRequest;
      }
      if loaded.Malformed? {
        return SubmitRaised;
      }
      NothingUnderEmptyId(events.entries);
      var r := loaded.request;
      var screening := Screened(envelope, d, r, t.screened);
      if !screening.Passed? {
        return Refused(screening);
      }
      if service.keyed {
        outcome := RecordUnderKey(r, d, envelope, t);
      } else {
        var record := RecordAndSettle(r, d, envelope, t);
        outcome := if record.Some? then DecisionRecorded(record.value) else SubmitRaised;
      }
    }

    /** The checks before recording, in the order the service makes them. A decision passes only if it
        is bound to the request, dated within the skew of the present and of the closing time, and
        authorized; `Ceremony.PassedExactly` says what that takes. */
    method Screened(envelope: Json, d: Decision, r: Request, now: string) returns (why: Screening)
      ensures why == Screen(service.env.gate, envelope, d, r, now)
      ensures why.Passed? ==>
                && d.contextDigest == ContextDigest(service.env.gate.H, r)
                && Within(service.env.gate.trust.parse, d.decidedAt, now, service.env.gate.skew)
                && Within(service.env.gate.trust.parse, d.decidedAt, r.notValidAfter, service.env.gate.skew)
                && MayDecide(service.env.gate, envelope, d) == Some(true)
    {
      hide ContextDigest, Authorized, Within;
      var g := service.env.gate;
      NotPastIsWithin(g.trust.parse, d.decidedAt, now, g.skew);
      NotPastIsWithin(g.trust.parse, d.decidedAt, r.notValidAfter, g.skew);
      if d.contextDigest != ContextDigest(g.H, r) {
        return ContextMismatch;
      }
      var decided := g.trust.parse(d.decidedAt);
      var latest := Limit(g.trust.parse, now, g.skew);
      if decided.None? || latest.None? {
        return BadTime;
      }
      var future := Less(latest.value, decided.value);
      if future.None? {
        return BadTime;
      }
      if future.value {
        return FromTheFuture;
      }
      var closes := Limit(g.trust.parse, r.notValidAfter, g.skew);
      if closes.None? {
        return BadTime;
      }
      var closed := Less(closes.value, decided.value);
      if closed.None? {
        return BadTime;
      }
      if closed.value {
        return WindowClosed;
      }
      var authorized := DecisionAuthorized(g.trust, envelope, d.approverId, g.logId, d.decidedAt, Known(g.identities, d.approverId));
      if authorized.None? {
        return BadTime;
      }
      return if authorized.value then Passed else NotAuthorized;
    }

    /** `checkpoint`; `None` raises. */
    method PublishCheckpoint(signer: Signer, now: string) returns (cp: Option<Checkpoint>)
      requires Valid()
      modifies events
      ensures Valid() && (State(), cp) == Publish(service, old(State()), signer, now)
      ensures PublishTold(service, old(State()), signer, now, State(), cp)
      ensures old(Healthy()) ==> Healthy()
    {
      hide EntryFor, LatestCheckpoint, BuildCheckpoint, SignCheckpoint, CheckpointJson, Sound, PublishTold;
      PublishKeepsPromises(service, State(), signer, now);
      var g := service.env.gate;
      var leaves := events.LeafHashes(None);
      var previous := events.LatestPublished();
      if previous.None? {
        return None;
      }
      var signed := SignCheckpoint(BuildCheckpoint(g.H, leaves, g.logId, now, previous.value), signer);
      var d := PublishedDraft(signed);
      AppendAlone(g.H, events.entries, d, attempts);
      SeqNoNext(g.H, events.entries, d);
      var appended := Append(d, []);
      return Some(signed);
    }

    // ------------------------------------------------------------------ verify

    /** The walk over a segment: gathers decisions and created ids until an envelope does not decode. */
    method WalkSegment(entries: seq<LedgerEntry>) returns (decisions: seq<(Json, Decision)>, ids: seq<string>, decodes: bool)
      ensures Audit.Walk(entries) == Audit.Walked(decisions, ids, decodes)
    {
      hide DecodeDecision;
      decisions, ids := [], [];
      for i := 0 to |entries|
        invariant Audit.Walk(entries[..i]) == Audit.Walked(decisions, ids, true)
      {
        var entry := entries[i];
        assert entries[..i + 1][..i] == entries[..i];
        if entry.eventType == RECORDED {
          var d := DecodeDecision(entry.payload);
          if d.None? {
            WalkStops(entries, i + 1);
            return decisions, ids, false;
          }
          decisions := decisions + [(entry.payload, d.value)];
        } else if entry.eventType == CREATED && entry.requestId.Some? && entry.requestId.value != "" {
          ids := ids + [entry.requestId.value];
        }
      }
      assert entries[..|entries|] == entries;
      return decisions, ids, true;
    }

    method CheckPublished() returns (checks: Option<seq<Audit.Check>>)
      requires Valid()
      ensures checks == Audit.PublishedChecks(service.env, events.entries)
      ensures Audit.Clean(checks)
         <==> forall i: nat :: CleanReports.LatestAt(events.entries, i) ==>
                CleanReports.CheckpointHolds(service.env, events.entries, events.entries[i].payload)
    {
      hide LatestCheckpoint, Merkle.MerkleRoot, Leaves, LogOwners, Audit.AllOk, CleanReports.LatestAt, CleanReports.CheckpointHolds;
      CleanReports.PublishedPart(service.env, events.entries);
      var published := events.LatestPublished();
      if published.None? {
        return None;
      }
      if published.value.None? {
        return Some([]);
      }
      var cp := published.value.value;
      var signers := VerifyCheckpoint(service.env.gate.trust, cp);
      var ok := signers.Some? && signers.value != [];
      var prefix := events.LeafHashes(Some(cp.treeSize));
      return Some([Audit.Check(ok, Audit.CheckpointSigned),
                   Audit.Check(Merkle.MerkleRoot(service.env.gate.H, prefix) == cp.rootHash, Audit.RootReproduced)]);
    }

    method CheckTrusted(trusted: Option<Checkpoint>) returns (checks: seq<Audit.Check>)
      requires Valid()
      ensures checks == Audit.TrustedChecks(service.env, events.entries, trusted)
    {
      hide Merkle.MerkleRoot, Leaves, LogOwners;
      if trusted.None? {
        return [];
      }
      var cp := trusted.value;
      var signers := VerifyCheckpoint(service.env.gate.trust, cp);
      if signers.None? || signers.value == [] {
        return [Audit.Check(false, Audit.TrustedExtended)];
      }
      var prefix := events.LeafHashes(Some(cp.treeSize));
      return [Audit.Check(VerifyConsistency(service.env.gate.H, cp, prefix).Extended?, Audit.TrustedExtended)];
    }

    method CheckDecisions(decisions: seq<(Json, Decision)>) returns (checks: Option<seq<Audit.Check>>)
      requires Valid()
      ensures checks == Audit.DecisionChecks(service.env, events.entries, decisions)
    {
      hide Audit.DecisionChecksOf;
      var found: seq<Audit.Check> := [];
      for i := 0 to |decisions|
        invariant Audit.DecisionChecks(service.env, events.entries, decisions[..i]) == Some(found)
      {
        assert decisions[..i + 1][..i] == decisions[..i];
        DecisionChecksStop(service.env, events.entries, decisions, i + 1);
        var these := CheckDecision(decisions[i].0, decisions[i].1);
        if these.None? {
          return None;
        }
        found := found + these.value;
      }
      assert decisions[..|decisions|] == decisions;
      return Some(found);
    }

    method CheckDecision(envelope: Json, d: Decision) returns (checks: Option<seq<Audit.Check>>)
      requires Valid()
      ensures checks == Audit.DecisionChecksOf(service.env, events.entries, envelope, d)
    {
      hide LoadRequest, Verified, ContextDigest;
      var g := service.env.gate;
      var loaded := LoadById(d.requestId);
      if loaded.NotFound? {
        return Some([Audit.Check(false, Audit.RequestKnown)]);
      }
      if loaded.Malformed? {
        return None;
      }
      var bound := Audit.Check(d.contextDigest == ContextDigest(g.H, loaded.request), Audit.DecisionBound);
      var signers := VerifiedSignatures(g.trust, envelope, d.decidedAt);
      if signers.None? {
        return None;
      }
      var authorized := DecisionAuthorized(g.trust, envelope, d.approverId, g.logId, d.decidedAt, Known(g.identities, d.approverId));
      return Some([bound, Audit.Check(authorized.value, Audit.DecisionSigned)]);
    }

    method CheckStatuses(ids: seq<string>, now: string) returns (checks: Option<seq<Audit.Check>>)
      requires Valid()
      ensures checks == Audit.StatusChecks(service.env, events.entries, ids, now)
    {
      hide Audit.StatusChecksOf;
      var found: seq<Audit.Check> := [];
      for i := 0 to |ids|
        invariant Audit.StatusChecks(service.env, events.entries, ids[..i], now) == Some(found)
      {
        assert ids[..i + 1][..i] == ids[..i];
        StatusChecksStop(service.env, events.entries, ids, now, i + 1);
        var these := CheckStatus(ids[i], now);
        if these.None? {
          return None;
        }
        found := found + these.value;
      }
      assert ids[..|ids|] == ids;
      return Some(found);
    }

    method CheckStatus(id: string, now: string) returns (checks: Option<seq<Audit.Check>>)
      requires Valid()
      ensures checks == Audit.StatusChecksOf(service.env, events.entries, id, now)
    {
      hide LoadRequest, Recompute, LastStatus, EventsFor, StatusName;
      var loaded := LoadById(id);
      if loaded.NotFound? {
        return Some([]);
      }
      if loaded.Malformed? {
        return None;
      }
      var derived := Derive(loaded.request, now);
      match derived
      case NoSuchPolicy =>
        return Some([Audit.Check(true, Audit.PolicyAvailable)]);
      case PolicyChanged =>
        return Some([Audit.Check(false, Audit.PolicyPinned)]);
      case Raised =>
        return None;
      case Derived(record) =>
        var recorded := LastRecordedStatus(id);
        var ok := recorded == Null || recorded == Str(StatusName(record.result.status)) || record.result.status.Expired?;
        return Some([Audit.Check(ok, Audit.StatusReproduced)]);
    }

    /** `verify`; `None` is an exception that escapes it. */
    method Verify(trusted: Option<Checkpoint>, start: nat, limit: Option<nat>, now: string) returns (report: Option<Audit.Report>)
      requires Valid()
      ensures report == Audit.Verify(service.env, events.entries, trusted, start, limit, now)
      ensures CleanReports.ReportTold(service.env, events.entries, trusted, start, limit, now, report)
    {
      hide CleanReports.ReportTold, CleanReports.LatestAt, CleanReports.CheckpointHolds, Audit.Clean, Audit.LastReached;
      hide Segment, Audit.Walk, Audit.PublishedChecks, Audit.TrustedChecks, Audit.DecisionChecks, Audit.StatusChecks, Audit.ScanFrom;
      CleanReports.ReportIsTold(service.env, events.entries, trusted, start, limit, now);
      var first := events.GetBySeq(start);
      var expectedPrev := if first.Some? then first.value.prevHash else ZERO_HASH;
      var entries := events.Scan(start, limit);
      var decisions, ids, decodes := WalkSegment(entries);
      var last := start - 1;
      var intact := false;
      if decodes {
        var segment := VerifySegment(service.env.gate.H, entries, start, expectedPrev);
        if segment.Intact? {
          last := segment.lastSeq;
          intact := true;
        }
      }
      ReachedIs(service.env.gate.H, events.entries, start, limit);
      assert Audit.LastReached(service.env.gate.H, events.entries, start, limit) == if intact then Some(last) else None;
      var checks := [Audit.Check(intact, Audit.ChainIntact)];
      var published := CheckPublished();
      if published.None? {
        return None;
      }
      checks := checks + published.value;
      var pinned := CheckTrusted(trusted);
      checks := checks + pinned;
      var bound := CheckDecisions(decisions);
      if bound.None? {
        return None;
      }
      checks := checks + bound.value;
      var statuses := CheckStatuses(ids, now);
      if statuses.None? {
        return None;
      }
      checks := checks + statuses.value;
      return Some(Audit.Report(checks, start, if last >= start then last else start));
    }

    // ----------------------------------------------------------------- rebuild

    /** `rebuild_projections`, batch by batch; `None` raises. */
    method RebuildProjections(now: string, batchSize: nat) returns (rebuilt: Option<nat>)
      requires Valid() && batchSize > 0
      modifies projections
      ensures Valid() && (State(), rebuilt) == Rebuild(service, old(State()), now)
      ensures service.projects && old(Healthy()) ==> RebuildTold(service, old(State()), now, State(), rebuilt)
    {
      hide RebuildOne, SeqsOf, CreatedIds, RebuildTold, Linked, EntriesOk, NoEmptyIds, InPlace, LoadRequest;
      if service.projects && Sound(service.env, events.entries) {
        RebuildIsTold(service, State(), now);
      }
      projections.Clear();
      var ids := CollectCreatedIds();
      var count := 0;
      var i := 0;
      while i < |ids|
        invariant i <= |ids|
        invariant RebuildAll(service, events.entries, ids[..i], now) == Rebuilding(projections.views, Some(count))
      {
        var stop := if i + batchSize <= |ids| then i + batchSize else |ids|;
        while i < stop
          invariant i <= stop <= |ids|
          invariant RebuildAll(service, events.entries, ids[..i], now) == Rebuilding(projections.views, Some(count))
          decreases stop - i
        {
          assert ids[..i + 1][..i] == ids[..i];
          var status := RebuildRequest(ids[i], now, count);
          if status.None? {
            RebuildStops(service, events.entries, ids, now, i + 1);
            return None;
          }
          count := status.value;
          i := i + 1;
        }
      }
      assert ids[..|ids|] == ids;
      return Some(count);
    }

    method RebuildRequest(id: string, now: string, count: nat) returns (after: Option<nat>)
      requires Valid()
      modifies projections
      ensures Rebuilding(projections.views, after)
           == RebuildOne(service, events.entries, Rebuilding(old(projections.views), Some(count)), id, now)
    {
      hide LoadRequest, Project, EventsFor, MaxSeq;
      var loaded := LoadById(id);
      if loaded.Malformed? {
        return None;
      }
      if loaded.NotFound? {
        return Some(count);
      }
      NoEventsOfEmptyId(events.entries);
      var entries := events.EventsForRequest(id);
      var ok := DeriveAndStoreView(loaded.request, now, MaxSeq(entries.value));
      return if ok then Some(count + 1) else None;
    }

    method CollectCreatedIds() returns (ids: seq<string>)
      ensures ids == CreatedIds(events.entries)
    {
      ids := [];
      var entries := events.Scan(0, None);
      assert entries == events.entries;
      for i := 0 to |entries|
        invariant ids == CreatedIds(entries[..i])
      {
        assert entries[..i + 1][..i] == entries[..i];
        if entries[i].eventType == CREATED && entries[i].requestId.Some? && entries[i].requestId.value != "" {
          ids := ids + [entries[i].requestId.value];
        }
      }
      assert entries[..|entries|] == entries;
    }
  }

  lemma {:induction false} WalkStops(entries: seq<LedgerEntry>, n: nat)
    requires n <= |entries| && !Audit.Walk(entries[..n]).decodes
    ensures Audit.Walk(entries) == Audit.Walk(entries[..n])
    decreases |entries|
  {
    hide DecodeDecision;
    if n < |entries| {
      var init := entries[..|entries| - 1];
      assert init[..n] == entries[..n];
      WalkStops(init, n);
    } else {
      assert entries[..n] == entries;
    }
  }

  lemma {:induction false} DecisionChecksStop(env: Env, log: seq<LedgerEntry>, decisions: seq<(Json, Decision)>, n: nat)
    requires n <= |decisions|
    ensures Audit.DecisionChecks(env, log, decisions[..n]).None? ==> Audit.DecisionChecks(env, log, decisions).None?
    decreases |decisions|
  {
    hide Audit.DecisionChecksOf;
    if n < |decisions| {
      var init := decisions[..|decisions| - 1];
      assert init[..n] == decisions[..n];
      DecisionChecksStop(env, log, init, n);
    } else {
      assert decisions[..n] == decisions;
    }
  }

  lemma {:induction false} StatusChecksStop(env: Env, log: seq<LedgerEntry>, ids: seq<string>, now: string, n: nat)
    requires n <= |ids|
    ensures Audit.StatusChecks(env, log, ids[..n], now).None? ==> Audit.StatusChecks(env, log, ids, now).None?
    decreases |ids|
  {
    hide Audit.StatusChecksOf;
    if n < |ids| {
      var init := ids[..|ids| - 1];
      assert init[..n] == ids[..n];
      StatusChecksStop(env, log, init, now, n);
    } else {
      assert ids[..n] == ids;
    }
  }

  lemma {:induction false} RebuildStops(s: Service, log: seq<LedgerEntry>, ids: seq<string>, now: string, n: nat)
    requires n <= |ids| && RebuildAll(s, log, ids[..n], now).rebuilt.None?
    ensures RebuildAll(s, log, ids, now) == RebuildAll(s, log, ids[..n], now)
    decreases |ids|
  {
    hide RebuildOne;
    if n < |ids| {
      var init := ids[..|ids| - 1];
      assert init[..n] == ids[..n];
      RebuildStops(s, log, init, now, n);
    } else {
      assert ids[..n] == ids;
    }
  }

  lemma CreateKeepsPromises(s: Service, st: Stores, o: Opening, now: string)
    ensures var (after, outcome) := Create(s, st, o, now);
            && (outcome.PolicyUnknown? <==> o.policyId !in s.env.policies)
            && (outcome.SubjectIncomplete? <==> o.policyId in s.env.policies && !Acceptable(s.env, o))
            && (!Acceptable(s.env, o) ==> after == st)
            && (Sound(s.env, st.log) ==> Sound(s.env, after.log))
            && (Sound(s.env, st.log) && Acceptable(s.env, o) ==>
                 forall r :: AsksFor(s.env, o, now, r) ==> CreateTold(s, st, r, after, outcome))
  {
    hide Create, Acceptable, AsksFor, CreateTold, Linked, EntriesOk;
    RefusesExactly(s, st, o, now);
    if Sound(s.env, st.log) {
      CreateIsSound(s, st, o, now);
      forall r | Acceptable(s.env, o) && AsksFor(s.env, o, now, r)
        ensures CreateTold(s, st, r, Create(s, st, o, now).0, Create(s, st, o, now).1)
      {
        CreateIsTold(s, st, o, now, r);
      }
    }
  }

  lemma KeyedKeepsPromises(s: Service, st: Stores, r: Request, d: Decision, envelope: Json, t: Times)
    ensures var (after, outcome) := SubmitKeyed(s, st, r, d, envelope, t);
            && (KeyFor(d) in st.keys ==> after == st)
            && (outcome.KeyConflict? <==> KeyFor(d) in st.keys && st.keys[KeyFor(d)].fingerprint != Fingerprint(s.env.gate.H, d))
            && (Sound(s.env, st.log) && KeyFor(d) in st.keys ==> HeldTold(s.env, st, d, t.evaluated, outcome))
  {
    hide RecordDecision, StatusOf, CanonicalHash, Protocol.KeyOf, KeyFor, StatusTold, Linked, EntriesOk;
    KeysAgree(d);
    if KeyFor(d) in st.keys {
      var held := st.keys[KeyFor(d)];
      var id := if held.response.Some? then held.response.value else d.requestId;
      NeverAConflict(s.env, st.log, id, t.evaluated);
      if Sound(s.env, st.log) {
        StatusIsTold(s.env, st.log, id, t.evaluated);
      }
    }
  }

  lemma SubmitKeepsPromises(s: Service, st: Stores, envelope: Json, t: Times)
    ensures var (after, outcome) := Submit(s, st, envelope, t);
            Sound(s.env, st.log) ==> Sound(s.env, after.log) && SubmitTold(s, st, envelope, t, after, outcome)
  {
    hide Submit, SubmitTold, Sound;
    if Sound(s.env, st.log) {
      SubmitIsSound(s, st, envelope, t);
      SubmitIsTold(s, st, envelope, t);
    }
  }

  lemma PublishKeepsPromises(s: Service, st: Stores, signer: Signer, now: string)
    ensures var (after, cp) := Publish(s, st, signer, now);
            && PublishTold(s, st, signer, now, after, cp)
            && (Sound(s.env, st.log) ==> Sound(s.env, after.log))
  {
    hide Publish, PublishTold, Sound;
    PublishIsTold(s, st, signer, now);
    if Sound(s.env, st.log) {
      PerformIsSound(s, st, PublishOp(signer, now));
      PublishIsPerformed(s, st, signer, now);
    }
  }

  lemma PublishIsPerformed(s: Service, st: Stores, signer: Signer, now: string)
    ensures Perform(s, st, PublishOp(signer, now)) == Publish(s, st, signer, now).0
  {
    hide Publish;
  }

  lemma IsEntryFor(H: Hash, log: seq<LedgerEntry>, d: Draft)
    ensures EntryFor(H, log, d) == NextEntry(H, HeadOf(log), d.eventType, d.payload, d.atTime, d.requestId)
  {
  }

  lemma ReachedIs(H: Hash, log: seq<LedgerEntry>, start: nat, limit: Option<nat>)
    ensures var entries := Audit.ScanFrom(log, start, limit);
            var segment := Segment(H, entries, start, if start < |log| then log[start].prevHash else ZERO_HASH);
            Audit.LastReached(H, log, start, limit)
            == if Audit.Walk(entries).decodes && segment.Intact? then Some(segment.lastSeq) else None
  {
    hide Audit.Walk, Segment;
  }

  lemma NothingAppended(H: Hash, log: seq<LedgerEntry>)
    ensures AllAppended(H, log, []) == log
  {
  }

  lemma OneMoreEnvelope(g: Gate, entries: seq<LedgerEntry>, i: nat)
    requires i < |entries|
    ensures AuthorizedAmong(g, Envelopes(entries[..i + 1])).None? ==> AuthorizedAmong(g, Envelopes(entries)).None?
    ensures entries[i].eventType != RECORDED ==> Envelopes(entries[..i + 1]) == Envelopes(entries[..i])
    ensures entries[i].eventType == RECORDED ==>
              && Envelopes(entries[..i + 1]) == Envelopes(entries[..i]) + [entries[i].payload]
              && (Envelopes(entries[..i]) + [entries[i].payload])[..|Envelopes(entries[..i])|] == Envelopes(entries[..i])
  {
    hide DecodeDecision, MayDecide;
    assert entries[..i + 1][..i] == entries[..i];
    assert entries == entries[..i + 1] + entries[i + 1..];
    EnvelopesAppend(entries[..i + 1], entries[i + 1..]);
    if AuthorizedAmong(g, Envelopes(entries[..i + 1])).None? {
      AuthorizedStops(g, Envelopes(entries[..i + 1]), Envelopes(entries[i + 1..]));
    }
  }

  lemma {:induction false} AuthorizedStops(g: Gate, a: seq<Json>, b: seq<Json>)
    requires AuthorizedAmong(g, a).None?
    ensures AuthorizedAmong(g, a + b).None?
  {
    hide DecodeDecision, MayDecide;
    if b == [] {
      assert a + b == a;
    } else {
      var n := |b| - 1;
      assert (a + b)[..|a| + n] == a + b[..n];
      AuthorizedStops(g, a, b[..n]);
    }
  }

  lemma NothingUnderEmptyId(log: seq<LedgerEntry>)
    requires NoEmptyIds(log)
    ensures LoadRequest(log, "").NotFound?
  {
    NoEventsOfEmptyId(log);
  }

  lemma RecordingIgnoresKeys(s: Service, st: Stores, other: Stores, r: Request, d: Decision, envelope: Json, t: Times)
    requires st.log == other.log && st.views == other.views
    ensures RecordDecision(s, other, r, d, envelope, t).1 == RecordDecision(s, st, r, d, envelope, t).1
    ensures RecordDecision(s, other, r, d, envelope, t).0 == RecordDecision(s, st, r, d, envelope, t).0.(keys := other.keys)
    ensures RecordDecision(s, st, r, d, envelope, t).0.keys == st.keys
  {
    hide Recompute, EntryFor, ProjectRecord, StatusDraft;
  }
}
