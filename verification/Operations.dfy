/** What each service call does to the stores when no other caller interferes. */
module Operations {
  import opened ByteStrings
  import opened JsonText
  import opened Canonical
  import opened Models
  import opened Chain
  import opened PolicyEngine
  import opened Verifier
  import opened Envelope
  import opened SignedCheckpoints
  import opened Ceremony
  import opened Reads
  import opened Records
  import Protocol

  /** The service's settings: `keyed` with an idempotency store, `projects` with a projection store. */
  datatype Service = Service(env: Env, keyed: bool, projects: bool)

  datatype Stores = Stores(log: seq<LedgerEntry>, keys: map<string, Protocol.Reservation>, views: map<string, View>)

  const EMPTY := Stores([], map[], map[])

  datatype Draft = Draft(eventType: string, payload: Json, atTime: string, requestId: Option<string>)

  function HeadOf(log: seq<LedgerEntry>): Option<LedgerEntry> {
    if log == [] then None else Some(log[|log| - 1])
  }

  /** The entry a draft becomes on top of `log`. */
  function EntryFor(H: Hash, log: seq<LedgerEntry>, d: Draft): LedgerEntry {
    NextEntry(H, HeadOf(log), d.eventType, d.payload, d.atTime, d.requestId)
  }

  function Appended(H: Hash, log: seq<LedgerEntry>, d: Draft): seq<LedgerEntry> {
    log + [EntryFor(H, log, d)]
  }

  // -------------------------------------------------------------------- views

  /** `upsert`: a view is never moved backwards. */
  function Upsert(views: map<string, View>, v: View): map<string, View> {
    if v.requestId in views && views[v.requestId].lastSeq > v.lastSeq then views else views[v.requestId := v]
  }

  /** `_project` of a record already derived. */
  function ProjectRecord(s: Service, views: map<string, View>, record: Record, at: string, lastSeq: int): map<string, View> {
    if s.projects && record.request.policyId in s.env.policies then
      Upsert(views, BuildView(s.env.gate.H, record, s.env.policies[record.request.policyId], s.env.gate.identities, lastSeq, at))
    else views
  }

  /** `_project` without one: the record is derived first. `None` raises. */
  function Project(s: Service, log: seq<LedgerEntry>, views: map<string, View>, r: Request, at: string, lastSeq: int)
      : Option<map<string, View>> {
    if !s.projects then Some(views)
    else
      match Recompute(s.env, log, r, at)
      case Derived(record) => Some(ProjectRecord(s, views, record, at, lastSeq))
      case _ => None
  }

  // ------------------------------------------------------------------- create

  datatype Opening = Opening(kind: string, subject: map<string, Json>, requestedBy: string, policyId: string,
                             notValidAfter: string, nonce: string)

  datatype CreateOutcome = Opened(request: Request) | AlreadyOpen(existing: Request)
                         | PolicyUnknown | SubjectIncomplete | CreateRaised

  function RequestFor(H: Hash, o: Opening, p: Policy, now: string): Request {
    Request(o.kind, Obj(o.subject), o.requestedBy, o.policyId, PolicyDigest(H, p), now, o.notValidAfter, o.nonce, REQUEST_SCHEMA)
  }

  function CreatedDraft(H: Hash, r: Request): Draft {
    Draft(CREATED, RequestJson(H, r), r.createdAt, Some(RequestId(H, r)))
  }

  /** `create_request` */
  function Create(s: Service, st: Stores, o: Opening, now: string): (Stores, CreateOutcome) {
    var H := s.env.gate.H;
    if o.policyId !in s.env.policies then (st, PolicyUnknown)
    else if exists f :: f in s.env.policies[o.policyId].requiredSubjectFields && f !in o.subject then (st, SubjectIncomplete)
    else
      var r := RequestFor(H, o, s.env.policies[o.policyId], now);
      match LoadRequest(st.log, RequestId(H, r))
      case Malformed => (st, CreateRaised)
      case Found(existing) => (st, AlreadyOpen(existing))
      case NotFound =>
        var log := Appended(H, st.log, CreatedDraft(H, r));
        match Project(s, log, st.views, r, now, log[|st.log|].seqNo)
        case None => (st.(log := log), CreateRaised)
        case Some(views) => (st.(log := log, views := views), Opened(r))
  }

  // ------------------------------------------------------------------- decide

  /** The clock as one submission reads it: when it is screened, when its status is re-derived, when
      a status change is recorded, and when the view is stored. */
  datatype Times = Times(screened: string, evaluated: string, changed: string, projected: string)

  datatype SubmitOutcome = DecisionRecorded(record: Record) | Replayed(current: Record) | BadEnvelope | NoSuchRequest
                         | Refused(why: Screening) | KeyConflict | SubmitRaised

  function RecordedDraft(envelope: Json, d: Decision): Draft {
    Draft(RECORDED, envelope, d.decidedAt, Some(d.requestId))
  }

  function StatusDraft(env: Env, record: Record, evaluated: string, at: string): Draft {
    Draft(STATUS_CHANGED, StatusPayload(env, record, evaluated), at, Some(RequestId(env.gate.H, record.request)))
  }

  /** `_record_decision`; the second part is `None` when it raises, with the decision appended. */
  function RecordDecision(s: Service, st: Stores, r: Request, d: Decision, envelope: Json, t: Times): (Stores, Option<Record>) {
    var H := s.env.gate.H;
    var log := Appended(H, st.log, RecordedDraft(envelope, d));
    match Recompute(s.env, log, r, t.evaluated)
    case Derived(record) =>
      var after := if record.result.status.Pending? then log
                   else Appended(H, log, StatusDraft(s.env, record, t.evaluated, t.changed));
      (st.(log := after, views := ProjectRecord(s, st.views, record, t.projected, after[|after| - 1].seqNo)), Some(record))
    case _ => (st.(log := log), None)
  }

  /** `get_status` */
  function StatusOf(env: Env, log: seq<LedgerEntry>, requestId: string, now: string): SubmitOutcome {
    match LoadRequest(log, requestId)
    case NotFound => NoSuchRequest
    case Malformed => SubmitRaised
    case Found(r) =>
      match Recompute(env, log, r, now)
      case Derived(record) => Replayed(record)
      case _ => SubmitRaised
  }

  /** Recording under a key: reserve, record, then complete; or release, which takes the
      reservation back, if recording raises. */
  function SubmitKeyed(s: Service, st: Stores, r: Request, d: Decision, envelope: Json, t: Times): (Stores, SubmitOutcome) {
    var key, fingerprint := Protocol.KeyOf(d), Fingerprint(s.env.gate.H, d);
    if key in st.keys then
      var held := st.keys[key];
      if held.fingerprint != fingerprint then (st, KeyConflict)
      else (st, StatusOf(s.env, st.log, if held.response.Some? then held.response.value else d.requestId, t.evaluated))
    else
      var (after, record) := RecordDecision(s, st, r, d, envelope, t);
      match record
      case None => (after, SubmitRaised)
      case Some(rec) =>
        (after.(keys := st.keys[key := Protocol.Reservation(fingerprint, Some(d.requestId))]), DecisionRecorded(rec))
  }

  /** `submit_signed_decision` */
  function Submit(s: Service, st: Stores, envelope: Json, t: Times): (Stores, SubmitOutcome) {
    match DecodeDecision(envelope)
    case None => (st, BadEnvelope)
    case Some(d) =>
      match LoadRequest(st.log, d.requestId)
      case NotFound => (st, NoSuchRequest)
      case Malformed => (st, SubmitRaised)
      case Found(r) =>
        match Screen(s.env.gate, envelope, d, r, t.screened)
        case Passed =>
          if s.keyed then SubmitKeyed(s, st, r, d, envelope, t)
          else
            var (after, record) := RecordDecision(s, st, r, d, envelope, t);
            (after, if record.Some? then DecisionRecorded(record.value) else SubmitRaised)
        case why => (st, Refused(why))
  }

  datatype PrepareOutcome = Prepared(challenge: Challenge) | NothingToDecide | PrepareRaised

  /** `prepare_decision` */
  function PrepareDecision(env: Env, log: seq<LedgerEntry>, requestId: string, approverId: string, verdict: string, comment: string,
                           idempotencyKey: string, now: string): PrepareOutcome {
    match LoadRequest(log, requestId)
    case NotFound => NothingToDecide
    case Malformed => PrepareRaised
    case Found(r) => Prepared(Prepare(Asked(env.gate.H, r, requestId, approverId, verdict, comment, idempotencyKey, now)))
  }

  /** The envelope the service signs itself: the decision, canonical and encoded, under one signature. */
  function SelfSigned(d: Decision, signer: Signer): Json {
    var signable := Pae(DECISION_PAYLOAD_TYPE, JsonBytes(DecisionJson(d)));
    Wrapped(DecisionJson(d), DECISION_PAYLOAD_TYPE, [SignatureEntry(signer.keyid, signer.sign(signable))])
  }

  /** `submit_decision` with a signer: sign on the approver's behalf, then submit. */
  function SubmitDecision(s: Service, st: Stores, requestId: string, approverId: string, verdict: string, comment: string,
                          idempotencyKey: string, authn: Json, signer: Signer, decidedAt: string, t: Times): (Stores, SubmitOutcome) {
    match LoadRequest(st.log, requestId)
    case NotFound => (st, NoSuchRequest)
    case Malformed => (st, SubmitRaised)
    case Found(r) =>
      var d := Asked(s.env.gate.H, r, requestId, approverId, verdict, comment, idempotencyKey, decidedAt).(authn := authn);
      Submit(s, st, SelfSigned(d, signer), t)
  }

  // --------------------------------------------------------------- checkpoint

  function PublishedDraft(cp: Checkpoint): Draft {
    Draft(PUBLISHED, CheckpointJson(cp), cp.publishedAt, None)
  }

  /** `checkpoint`; `None` raises. */
  function Publish(s: Service, st: Stores, signer: Signer, now: string): (Stores, Option<Checkpoint>) {
    var g := s.env.gate;
    match LatestCheckpoint(st.log)
    case None => (st, None)
    case Some(previous) =>
      var cp := SignCheckpoint(BuildCheckpoint(g.H, Leaves(st.log), g.logId, now, previous), signer);
      (st.(log := Appended(g.H, st.log, PublishedDraft(cp))), Some(cp))
  }

  // ------------------------------------------------------------------ rebuild

  /** The ids of `request.created` entries, in ledger order, as often as they occur. */
  function CreatedIds(log: seq<LedgerEntry>): seq<string> {
    if log == [] then []
    else
      var last := log[|log| - 1];
      CreatedIds(log[..|log| - 1])
      + if last.eventType == CREATED && last.requestId.Some? && last.requestId.value != "" then [last.requestId.value] else []
  }

  /** `max((e.seq for e in entries), default=0)` */
  function MaxSeq(entries: seq<LedgerEntry>): int {
    if entries == [] then 0
    else
      var n := |entries| - 1;
      if n == 0 || MaxSeq(entries[..n]) < entries[n].seqNo then entries[n].seqNo else MaxSeq(entries[..n])
  }

  /** The views so far, and how many were rebuilt; no number once a request has raised. */
  datatype Rebuilding = Rebuilding(views: map<string, View>, rebuilt: Option<nat>)

  function RebuildOne(s: Service, log: seq<LedgerEntry>, so: Rebuilding, requestId: string, now: string): Rebuilding
    requires so.rebuilt.Some?
  {
    match LoadRequest(log, requestId)
    case NotFound => so
    case Malformed => so.(rebuilt := None)
    case Found(r) =>
      match Project(s, log, so.views, r, now, MaxSeq(EventsFor(log, requestId)))
      case None => so.(rebuilt := None)
      case Some(views) => Rebuilding(views, Some(so.rebuilt.value + 1))
  }

  function RebuildAll(s: Service, log: seq<LedgerEntry>, ids: seq<string>, now: string): Rebuilding {
    if ids == [] then Rebuilding(map[], Some(0))
    else
      var so := RebuildAll(s, log, ids[..|ids| - 1], now);
      if so.rebuilt.None? then so else RebuildOne(s, log, so, ids[|ids| - 1], now)
  }

  /** `rebuild_projections` with a positive batch size. */
  function Rebuild(s: Service, st: Stores, now: string): (Stores, Option<nat>) {
    var so := RebuildAll(s, st.log, CreatedIds(st.log), now);
    (st.(views := so.views), so.rebuilt)
  }
}
