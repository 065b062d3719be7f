/** The records that are hashed and stored, with their JSON forms. */
module Models {
  import opened ByteStrings
  import opened JsonText
  import opened Canonical

  const REQUEST_SCHEMA := "approvo/request/v1"
  const DECISION_SCHEMA := "approvo/decision/v1"
  const CHECKPOINT_SCHEMA := "approvo/checkpoint/v1"
  const DECISION_PAYLOAD_TYPE := "application/vnd.approvo.decision+json"

  const CREATED := "request.created"
  const RECORDED := "decision.recorded"
  const STATUS_CHANGED := "status.changed"
  const PUBLISHED := "checkpoint.published"

  /** `d[key]` where a string is stored; `None` is `KeyError` (or a value of another type). */
  function GetStr(m: map<string, Json>, key: string): Option<string> {
    if key in m && m[key].Str? then Some(m[key].s) else None
  }

  /** `d.get(key, default)` where a string is stored. */
  function GetStrOr(m: map<string, Json>, key: string, default: string): Option<string> {
    if key !in m then Some(default) else GetStr(m, key)
  }

  /** The dictionary maps `key` to `value`. */
  predicate Has(m: map<string, Json>, key: string, value: Json) {
    key in m && m[key] == value
  }

  function GetOr(m: map<string, Json>, key: string, default: Json): Json {
    if key in m then m[key] else default
  }

  function OptStr(o: Option<string>): Json {
    match o case None => Null case Some(s) => Str(s)
  }

  // ---------------------------------------------------------- ledger entries

  datatype LedgerEntry = LedgerEntry(
    seqNo: int,
    recordedAt: string,
    prevHash: string,
    eventType: string,
    requestId: Option<string>,
    payload: Json,
    entryHash: string)

  /** `core_dict`: everything but the entry's own hash. */
  function CoreJson(e: LedgerEntry): Json {
    Obj(map[
      "seq" := Int(e.seqNo),
      "recorded_at" := Str(e.recordedAt),
      "prev_hash" := Str(e.prevHash),
      "event_type" := Str(e.eventType),
      "request_id" := OptStr(e.requestId),
      "payload" := e.payload])
  }

  function CoreHash(H: Hash, e: LedgerEntry): string {
    CanonicalHash(H, CoreJson(e))
  }

  /** `sealed` */
  function Sealed(H: Hash, e: LedgerEntry): LedgerEntry {
    e.(entryHash := CoreHash(H, e))
  }

  predicate SameCore(e: LedgerEntry, f: LedgerEntry) {
    e.(entryHash := "") == f.(entryHash := "")
  }

  lemma CoreLookups(e: LedgerEntry)
    ensures var m := CoreJson(e).fields;
            && Has(m, "seq", Int(e.seqNo)) && Has(m, "recorded_at", Str(e.recordedAt)) && Has(m, "prev_hash", Str(e.prevHash))
            && Has(m, "event_type", Str(e.eventType)) && Has(m, "request_id", OptStr(e.requestId)) && Has(m, "payload", e.payload)
  {
    assert "event_type"[0] != "request_id"[0];
  }

  /** The hashed core determines every field but the hash. */
  lemma CoreJsonInjective(e: LedgerEntry, f: LedgerEntry)
    requires CoreJson(e) == CoreJson(f)
    ensures SameCore(e, f)
  {
    CoreLookups(e);
    CoreLookups(f);
  }

  /** An entry hash binds the entry. */
  lemma CoreHashBinds(H: Hash, e: LedgerEntry, f: LedgerEntry)
    requires CoreHash(H, e) == CoreHash(H, f)
    ensures SameCore(e, f) || Collides(H, HashClash(CoreJson(e), CoreJson(f)))
  {
    CanonicalHashBinds(H, CoreJson(e), CoreJson(f));
    if CoreJson(e) == CoreJson(f) {
      CoreJsonInjective(e, f);
    }
  }

  // --------------------------------------------------------------- requests

  datatype Request = Request(
    kind: string,
    subject: Json,
    requestedBy: string,
    policyId: string,
    policyDigest: string,
    createdAt: string,
    notValidAfter: string,
    nonce: string,
    schema: string)

  /** `identity_dict`: the creation time is not part of a request's identity. */
  function IdentityFields(r: Request): map<string, Json> {
    map[
      "schema" := Str(r.schema),
      "kind" := Str(r.kind),
      "subject" := r.subject,
      "requested_by" := Str(r.requestedBy),
      "policy_id" := Str(r.policyId),
      "policy_digest" := Str(r.policyDigest),
      "not_valid_after" := Str(r.notValidAfter),
      "nonce" := Str(r.nonce)]
  }

  function RequestId(H: Hash, r: Request): string {
    CanonicalHash(H, Obj(IdentityFields(r)))
  }

  function ContextJson(r: Request): Json {
    Obj(IdentityFields(r)["created_at" := Str(r.createdAt)])
  }

  /** What decisions bind to: the whole request, creation time included. */
  function ContextDigest(H: Hash, r: Request): string {
    CanonicalHash(H, ContextJson(r))
  }

  /** `ApprovalRequest.to_dict` */
  function RequestJson(H: Hash, r: Request): Json {
    Obj(ContextJson(r).fields["request_id" := Str(RequestId(H, r))])
  }

  /** `ApprovalRequest.from_dict`; `None` is `KeyError`. */
  function RequestFromJson(j: Json): Option<Request> {
    if !j.Obj? then None
    else
      var m := j.fields;
      var kind :- GetStr(m, "kind");
      var subject :- if "subject" in m then Some(m["subject"]) else None;
      var requestedBy :- GetStr(m, "requested_by");
      var policyId :- GetStr(m, "policy_id");
      var policyDigest :- GetStr(m, "policy_digest");
      var createdAt :- GetStr(m, "created_at");
      var notValidAfter :- GetStr(m, "not_valid_after");
      var nonce :- GetStrOr(m, "nonce", "");
      var schema :- GetStrOr(m, "schema", REQUEST_SCHEMA);
      Some(Request(kind, subject, requestedBy, policyId, policyDigest, createdAt, notValidAfter, nonce, schema))
  }

  lemma IdentityLookups(r: Request)
    ensures var m := IdentityFields(r);
            && Has(m, "schema", Str(r.schema)) && Has(m, "kind", Str(r.kind)) && Has(m, "subject", r.subject)
            && Has(m, "requested_by", Str(r.requestedBy)) && Has(m, "policy_id", Str(r.policyId))
            && Has(m, "policy_digest", Str(r.policyDigest)) && Has(m, "not_valid_after", Str(r.notValidAfter))
            && Has(m, "nonce", Str(r.nonce))
  {
  }

  lemma RequestRoundTrip(H: Hash, r: Request)
    ensures RequestFromJson(RequestJson(H, r)) == Some(r)
  {
    hide CanonicalHash, IdentityFields;
    IdentityLookups(r);
    assert "created_at"[0] != "request_id"[0];
    var m := RequestJson(H, r).fields;
    assert Has(m, "kind", Str(r.kind)) && Has(m, "subject", r.subject) && Has(m, "requested_by", Str(r.requestedBy));
    assert Has(m, "policy_id", Str(r.policyId)) && Has(m, "policy_digest", Str(r.policyDigest));
    assert Has(m, "not_valid_after", Str(r.notValidAfter)) && Has(m, "nonce", Str(r.nonce)) && Has(m, "schema", Str(r.schema));
    assert Has(m, "created_at", Str(r.createdAt));
  }

  /** Two requests with one id differ at most in their creation time, or their identities collide. */
  lemma RequestIdBinds(H: Hash, r: Request, s: Request)
    requires RequestId(H, r) == RequestId(H, s)
    ensures r == s.(createdAt := r.createdAt)
         || Collides(H, HashClash(Obj(IdentityFields(r)), Obj(IdentityFields(s))))
  {
    hide IdentityFields, CanonicalHash;
    CanonicalHashBinds(H, Obj(IdentityFields(r)), Obj(IdentityFields(s)));
    IdentityLookups(r);
    IdentityLookups(s);
  }

  /** A context digest binds the request the approver saw, creation time included. */
  lemma ContextDigestBinds(H: Hash, r: Request, s: Request)
    requires ContextDigest(H, r) == ContextDigest(H, s)
    ensures r == s || Collides(H, HashClash(ContextJson(r), ContextJson(s)))
  {
    hide IdentityFields, CanonicalHash;
    CanonicalHashBinds(H, ContextJson(r), ContextJson(s));
    ContextLookups(r);
    ContextLookups(s);
  }

  lemma ContextLookups(r: Request)
    ensures var m := ContextJson(r).fields;
            && Has(m, "schema", Str(r.schema)) && Has(m, "kind", Str(r.kind)) && Has(m, "subject", r.subject)
            && Has(m, "requested_by", Str(r.requestedBy)) && Has(m, "policy_id", Str(r.policyId))
            && Has(m, "policy_digest", Str(r.policyDigest)) && Has(m, "not_valid_after", Str(r.notValidAfter))
            && Has(m, "nonce", Str(r.nonce)) && Has(m, "created_at", Str(r.createdAt))
  {
    hide IdentityFields;
    IdentityLookups(r);
  }

  // -------------------------------------------------------------- decisions

  /** `authn` is `Null` when the decision carries no authentication evidence. */
  datatype Decision = Decision(
    requestId: string,
    contextDigest: string,
    verdict: string,
    approverId: string,
    decidedAt: string,
    comment: string,
    idempotencyKey: string,
    authn: Json,
    schema: string)

  function DecisionFields(d: Decision): map<string, Json> {
    map[
      "schema" := Str(d.schema),
      "request_id" := Str(d.requestId),
      "context_digest" := Str(d.contextDigest),
      "verdict" := Str(d.verdict),
      "approver_id" := Str(d.approverId),
      "decided_at" := Str(d.decidedAt),
      "comment" := Str(d.comment),
      "idempotency_key" := Str(d.idempotencyKey)]
  }

  /** `Decision.to_dict` */
  function DecisionJson(d: Decision): Json {
    if d.authn.Null? then Obj(DecisionFields(d)) else Obj(DecisionFields(d)["authn" := d.authn])
  }

  /** `Decision.from_dict`; `None` is `KeyError`. */
  function DecisionFromJson(j: Json): Option<Decision> {
    if !j.Obj? then None
    else
      var m := j.fields;
      var requestId :- GetStr(m, "request_id");
      var contextDigest :- GetStr(m, "context_digest");
      var verdict :- GetStr(m, "verdict");
      var approverId :- GetStr(m, "approver_id");
      var decidedAt :- GetStr(m, "decided_at");
      var comment :- GetStrOr(m, "comment", "");
      var idempotencyKey :- GetStrOr(m, "idempotency_key", "");
      var schema :- GetStrOr(m, "schema", DECISION_SCHEMA);
      Some(Decision(requestId, contextDigest, verdict, approverId, decidedAt, comment, idempotencyKey,
                    GetOr(m, "authn", Null), schema))
  }

  lemma DecisionLookups(d: Decision)
    ensures var m := DecisionFields(d);
            && Has(m, "schema", Str(d.schema)) && Has(m, "request_id", Str(d.requestId))
            && Has(m, "context_digest", Str(d.contextDigest)) && Has(m, "verdict", Str(d.verdict))
            && Has(m, "approver_id", Str(d.approverId)) && Has(m, "decided_at", Str(d.decidedAt))
            && Has(m, "comment", Str(d.comment)) && Has(m, "idempotency_key", Str(d.idempotencyKey))
            && "authn" !in m
  {
    assert "request_id"[0] != "decided_at"[0] && "verdict"[0] != "comment"[0];
  }

  lemma DecisionRoundTrip(d: Decision)
    ensures DecisionFromJson(DecisionJson(d)) == Some(d)
  {
    hide DecisionFields;
    DecisionLookups(d);
    var m := DecisionJson(d).fields;
    assert Has(m, "schema", Str(d.schema)) && Has(m, "request_id", Str(d.requestId));
    assert Has(m, "context_digest", Str(d.contextDigest)) && Has(m, "verdict", Str(d.verdict));
    assert Has(m, "approver_id", Str(d.approverId)) && Has(m, "decided_at", Str(d.decidedAt));
    assert Has(m, "comment", Str(d.comment)) && Has(m, "idempotency_key", Str(d.idempotencyKey));
  }

  /** `canonical_hash(decision.to_dict())` */
  function Fingerprint(H: Hash, d: Decision): string {
    CanonicalHash(H, DecisionJson(d))
  }

  /** An idempotency fingerprint binds the decision. */
  lemma FingerprintBinds(H: Hash, d: Decision, e: Decision)
    requires Fingerprint(H, d) == Fingerprint(H, e)
    ensures d == e || Collides(H, HashClash(DecisionJson(d), DecisionJson(e)))
  {
    CanonicalHashBinds(H, DecisionJson(d), DecisionJson(e));
    if DecisionJson(d) == DecisionJson(e) {
      DecisionRoundTrip(d);
      DecisionRoundTrip(e);
    }
  }

  // ------------------------------------------------------------ checkpoints

  datatype Checkpoint = Checkpoint(
    treeSize: int,
    rootHash: string,
    publishedAt: string,
    logId: string,
    prevRootHash: Option<string>,
    signatures: seq<Json>,
    schema: string)

  /** `signed_dict`: everything but the signatures. */
  function SignedFields(cp: Checkpoint): map<string, Json> {
    map[
      "schema" := Str(cp.schema),
      "log_id" := Str(cp.logId),
      "tree_size" := Int(cp.treeSize),
      "root_hash" := Str(cp.rootHash),
      "published_at" := Str(cp.publishedAt),
      "prev_root_hash" := OptStr(cp.prevRootHash)]
  }

  /** `Checkpoint.to_dict` */
  function CheckpointJson(cp: Checkpoint): Json {
    Obj(SignedFields(cp)["signatures" := Arr(cp.signatures)])
  }

  /** `Checkpoint.from_dict`; `None` is `KeyError`. */
  function CheckpointFromJson(j: Json): Option<Checkpoint> {
    if !j.Obj? then None
    else
      var m := j.fields;
      var treeSize :- if "tree_size" in m && m["tree_size"].Int? then Some(m["tree_size"].n) else None;
      var rootHash :- GetStr(m, "root_hash");
      var publishedAt :- GetStr(m, "published_at");
      var logId :- GetStrOr(m, "log_id", "default");
      var schema :- GetStrOr(m, "schema", CHECKPOINT_SCHEMA);
      var prev := GetOr(m, "prev_root_hash", Null);
      var signatures := GetOr(m, "signatures", Arr([]));
      if !signatures.Arr? || !(prev.Str? || prev.Null?) then None
      else Some(Checkpoint(treeSize, rootHash, publishedAt, logId, if prev.Str? then Some(prev.s) else None,
                           signatures.items, schema))
  }

  lemma SignedLookups(cp: Checkpoint)
    ensures var m := SignedFields(cp);
            && Has(m, "schema", Str(cp.schema)) && Has(m, "log_id", Str(cp.logId))
            && Has(m, "tree_size", Int(cp.treeSize)) && Has(m, "root_hash", Str(cp.rootHash))
            && Has(m, "published_at", Str(cp.publishedAt)) && Has(m, "prev_root_hash", OptStr(cp.prevRootHash))
  {
    assert "schema"[0] != "log_id"[0] && "tree_size"[0] != "root_hash"[0];
  }

  lemma CheckpointRoundTrip(cp: Checkpoint)
    ensures CheckpointFromJson(CheckpointJson(cp)) == Some(cp)
  {
    hide SignedFields;
    SignedLookups(cp);
    var m := CheckpointJson(cp).fields;
    assert Has(m, "schema", Str(cp.schema)) && Has(m, "log_id", Str(cp.logId));
    assert Has(m, "tree_size", Int(cp.treeSize)) && Has(m, "root_hash", Str(cp.rootHash));
    assert Has(m, "published_at", Str(cp.publishedAt)) && Has(m, "prev_root_hash", OptStr(cp.prevRootHash));
    assert Has(m, "signatures", Arr(cp.signatures));
  }

  // ---------------------------------------------------------- what may be left out

  function RequestDefault(k: string): Option<Json> {
    if k == "nonce" then Some(Str("")) else if k == "schema" then Some(Str("approvo/request/v1")) else None
  }

  function DecisionDefault(k: string): Option<Json> {
    if k == "comment" || k == "idempotency_key" then Some(Str("")) else if k == "authn" then Some(Null)
    else if k == "schema" then Some(Str("approvo/decision/v1")) else None
  }

  function CheckpointDefault(k: string): Option<Json> {
    if k == "log_id" then Some(Str("default")) else if k == "prev_root_hash" then Some(Null)
    else if k == "signatures" then Some(Arr([])) else if k == "schema" then Some(Str("approvo/checkpoint/v1")) else None
  }

  /** A dictionary that leaves out an optional field is read as one that has the default there. */
  lemma RequestDefaults(m: map<string, Json>, k: string)
    requires k !in m && RequestDefault(k).Some?
    ensures RequestFromJson(Obj(m)) == RequestFromJson(Obj(m[k := RequestDefault(k).value]))
  {
  }

  lemma DecisionDefaults(m: map<string, Json>, k: string)
    requires k !in m && DecisionDefault(k).Some?
    ensures DecisionFromJson(Obj(m)) == DecisionFromJson(Obj(m[k := DecisionDefault(k).value]))
  {
  }

  lemma CheckpointDefaults(m: map<string, Json>, k: string)
    requires k !in m && CheckpointDefault(k).Some?
    ensures CheckpointFromJson(Obj(m)) == CheckpointFromJson(Obj(m[k := CheckpointDefault(k).value]))
  {
  }
}
