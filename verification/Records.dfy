/** Re-deriving a request's record from the ledger, and rendering it as a view. */
module Records {
  import opened ByteStrings
  import opened JsonText
  import opened Canonical
  import opened Models
  import opened Datetime
  import opened PolicyEngine
  import opened Verifier
  import opened Envelope
  import opened Ceremony
  import opened Reads

  /** What is fixed while the service runs. `reasons` stands for the evaluation's explanatory
      texts. */
  datatype Env = Env(gate: Gate, policies: map<string, Policy>, reasons: (Request, seq<Decision>, string) -> seq<Json>)

  function Strs(items: seq<string>): (r: seq<Json>)
    ensures |r| == |items|
  {
    if items == [] then [] else [Str(items[0])] + Strs(items[1..])
  }

  function PolicyJson(p: Policy): Json {
    Obj(map[
      "schema" := Str(p.schema),
      "id" := Str(p.id),
      "kind" := Str(p.kind),
      "allowed_approvers" := Arr(Strs(p.allowedApprovers)),
      "threshold" := Int(p.threshold),
      "require_distinct_roles" := Arr(Strs(p.requireDistinctRoles)),
      "separation_of_duties" := Bool(p.separationOfDuties),
      "reject_is_terminal" := Bool(p.rejectIsTerminal),
      "max_age_seconds" := Int(p.maxAgeSeconds),
      "required_subject_fields" := Arr(Strs(p.requiredSubjectFields))])
  }

  /** `Policy.digest` */
  function PolicyDigest(H: Hash, p: Policy): string {
    CanonicalHash(H, PolicyJson(p))
  }

  lemma {:induction false} StrsInjective(a: seq<string>, b: seq<string>)
    requires Strs(a) == Strs(b)
    ensures a == b
  {
    if a != [] {
      assert Strs(a)[0] == Strs(b)[0] && Strs(a)[1..] == Strs(b)[1..];
      StrsInjective(a[1..], b[1..]);
      assert a == [a[0]] + a[1..] && b == [b[0]] + b[1..];
    }
  }

  /** A policy digest binds the whole policy, or the two canonical texts collide. */
  lemma PolicyDigestBinds(H: Hash, p: Policy, q: Policy)
    requires PolicyDigest(H, p) == PolicyDigest(H, q)
    ensures p == q || Collides(H, HashClash(PolicyJson(p), PolicyJson(q)))
  {
    hide PolicyJson, CanonicalHash, Collides;
    CanonicalHashBinds(H, PolicyJson(p), PolicyJson(q));
    if PolicyJson(p) == PolicyJson(q) {
      PolicyLookups(p);
      PolicyLookups(q);
      StrsInjective(p.allowedApprovers, q.allowedApprovers);
      StrsInjective(p.requireDistinctRoles, q.requireDistinctRoles);
      StrsInjective(p.requiredSubjectFields, q.requiredSubjectFields);
    }
  }

  lemma PolicyLookups(p: Policy)
    ensures PolicyJson(p).Obj?
    ensures var m := PolicyJson(p).fields;
            && Has(m, "schema", Str(p.schema)) && Has(m, "id", Str(p.id)) && Has(m, "kind", Str(p.kind))
            && Has(m, "allowed_approvers", Arr(Strs(p.allowedApprovers))) && Has(m, "threshold", Int(p.threshold))
            && Has(m, "require_distinct_roles", Arr(Strs(p.requireDistinctRoles)))
            && Has(m, "separation_of_duties", Bool(p.separationOfDuties))
            && Has(m, "reject_is_terminal", Bool(p.rejectIsTerminal))
            && Has(m, "max_age_seconds", Int(p.maxAgeSeconds))
            && Has(m, "required_subject_fields", Arr(Strs(p.requiredSubjectFields)))
  {
    hide Strs;
  }

  // ------------------------------------------------------------- the decisions

  /** The envelopes recorded among a request's events, in order. */
  function Envelopes(events: seq<LedgerEntry>): seq<Json> {
    if events == [] then []
    else
      var n := |events| - 1;
      Envelopes(events[..n]) + if events[n].eventType == RECORDED then [events[n].payload] else []
  }

  /** The decisions among the envelopes that are authorized; `None` raises. */
  function AuthorizedAmong(g: Gate, envelopes: seq<Json>): Option<seq<Decision>> {
    if envelopes == [] then Some([])
    else
      var n := |envelopes| - 1;
      var before :- AuthorizedAmong(g, envelopes[..n]);
      var d :- DecodeDecision(envelopes[n]);
      var authorized :- MayDecide(g, envelopes[n], d);
      Some(if authorized then before + [d] else before)
  }

  /** `_decisions_for` */
  function DecisionsFor(g: Gate, log: seq<LedgerEntry>, r: Request): Option<seq<Decision>> {
    AuthorizedAmong(g, Envelopes(EventsFor(log, RequestId(g.H, r))))
  }

  // ---------------------------------------------------------------- the record

  datatype Record = Record(request: Request, decisions: seq<Decision>, result: PolicyResult)

  datatype Recomputed = NoSuchPolicy | PolicyChanged | Raised | Derived(record: Record)

  /** `_recompute` */
  function Recompute(env: Env, log: seq<LedgerEntry>, r: Request, at: string): Recomputed {
    if r.policyId !in env.policies then NoSuchPolicy
    else
      var policy := env.policies[r.policyId];
      if PolicyDigest(env.gate.H, policy) != r.policyDigest then PolicyChanged
      else
        match DecisionsFor(env.gate, log, r)
        case None => Raised
        case Some(ds) =>
          match Evaluate(env.gate.H, env.gate.trust.parse, r, ds, policy, env.gate.identities, at)
          case None => Raised
          case Some(result) => Derived(Record(r, ds, result))
  }

  lemma DerivedFor(env: Env, log: seq<LedgerEntry>, r: Request, at: string)
    requires Recompute(env, log, r, at).Derived?
    ensures Recompute(env, log, r, at).record.request == r
  {
    hide PolicyDigest, DecisionsFor, Evaluate;
  }

  function StatusName(v: Verdict): string {
    match v
    case Pending => "pending"
    case Approved => "approved"
    case Rejected => "rejected"
    case Expired => "expired"
  }

  function StatusPayload(env: Env, record: Record, at: string): Json {
    Obj(map[
      "request_id" := Str(RequestId(env.gate.H, record.request)),
      "status" := Str(StatusName(record.result.status)),
      "policy_result" := Obj(map[
        "status" := Str(StatusName(record.result.status)),
        "satisfied_by" := Arr(Strs(record.result.satisfiedBy)),
        "reasons" := Arr(env.reasons(record.request, record.decisions, at))])])
  }

  /** `payload.get("status")`; `Null` is `None`. */
  function StatusIn(payload: Json): Json {
    if payload.Obj? then GetOr(payload.fields, "status", Null) else Null
  }

  lemma StatusIsInPayload(env: Env, record: Record, at: string)
    ensures StatusIn(StatusPayload(env, record, at)) == Str(StatusName(record.result.status))
  {
    hide RequestId, Strs;
    assert "status"[0] != "policy_result"[0];
  }

  /** `_last_recorded_status`, over a request's events. */
  function LastStatus(events: seq<LedgerEntry>): Json {
    if events == [] then Null
    else
      var last := events[|events| - 1];
      if last.eventType == STATUS_CHANGED then StatusIn(last.payload) else LastStatus(events[..|events| - 1])
  }

  // ------------------------------------------------------------------ the view

  predicate CouldVote(r: Request, p: Policy, identity: Identity, id: string) {
    && !(p.separationOfDuties && id == r.requestedBy)
    && (id in p.allowedApprovers || HoldsAllowedRole(identity.roles, p.allowedApprovers))
  }

  /** `eligible_approvers`: the roster members who could cast a counting vote, sorted. */
  function EligibleApprovers(r: Request, p: Policy, identities: map<string, Identity>): seq<string> {
    SortedKeys(set a | a in identities && CouldVote(r, p, identities[a], a))
  }

  datatype View = View(
    requestId: string,
    kind: string,
    status: Verdict,
    requestedBy: string,
    policyId: string,
    subject: Json,
    createdAt: string,
    notValidAfter: string,
    updatedAt: string,
    approvals: nat,
    threshold: int,
    approvers: seq<string>,
    pendingFor: seq<string>,
    lastSeq: int)

  function Undecided(eligible: seq<string>, decided: set<string>): seq<string> {
    if eligible == [] then []
    else (if eligible[0] in decided then [] else [eligible[0]]) + Undecided(eligible[1..], decided)
  }

  /** `build_view` */
  function BuildView(H: Hash, record: Record, p: Policy, identities: map<string, Identity>, lastSeq: int, updatedAt: string): View {
    var r, result := record.request, record.result;
    var decided := set d | d in record.decisions :: d.approverId;
    View(RequestId(H, r), r.kind, result.status, r.requestedBy, r.policyId, r.subject, r.createdAt, r.notValidAfter,
         updatedAt, if result.status.Rejected? then 0 else |result.satisfiedBy|, p.threshold, result.satisfiedBy,
         if result.status.Pending? then Undecided(EligibleApprovers(r, p, identities), decided) else [], lastSeq)
  }

  /** A view waits for exactly the roster members whose vote would be eligible and who have not
      decided; under separation of duties never for the requester. */
  lemma PendingForExactly(H: Hash, record: Record, p: Policy, identities: map<string, Identity>, lastSeq: int, updatedAt: string,
                          a: string)
    requires record.result.status.Pending?
    ensures a in BuildView(H, record, p, identities, lastSeq, updatedAt).pendingFor
       <==> && a in identities && Eligible(a, p, identities)
            && !(p.separationOfDuties && a == record.request.requestedBy)
            && forall d :: d in record.decisions ==> d.approverId != a
  {
    hide SortedKeys, RequestId, HoldsAllowedRole;
    UndecidedExactly(EligibleApprovers(record.request, p, identities), set d | d in record.decisions :: d.approverId, a);
  }

  lemma {:induction false} UndecidedExactly(eligible: seq<string>, decided: set<string>, a: string)
    ensures a in Undecided(eligible, decided) <==> a in eligible && a !in decided
  {
    if eligible != [] {
      UndecidedExactly(eligible[1..], decided, a);
    }
  }

  /** The loop over the roster. */
  method CollectEligible(r: Request, p: Policy, identities: map<string, Identity>) returns (out: seq<string>)
    ensures out == EligibleApprovers(r, p, identities)
  {
    hide HoldsAllowedRole;
    var left := identities.Keys;
    var found: set<string> := {};
    while left != {}
      invariant left <= identities.Keys
      invariant forall a :: a in found <==> a in identities.Keys - left && CouldVote(r, p, identities[a], a)
      decreases left
    {
      var id :| id in left;
      if CouldVote(r, p, identities[id], id) {
        found := found + {id};
      }
      left := left - {id};
    }
    assert found == set a | a in identities && CouldVote(r, p, identities[a], a);
    return SortedKeys(found);
  }

  /** The number a view shows, against the policy: an approved request shows enough approvals, a
      rejected one none, and one that is pending or expired under a policy without role requirements
      too few; nobody is awaited unless it is pending. */
  lemma ViewShowsApprovals(env: Env, log: seq<LedgerEntry>, r: Request, at: string, lastSeq: int, updatedAt: string)
    requires Recompute(env, log, r, at).Derived?
    ensures r.policyId in env.policies
    ensures var p := env.policies[r.policyId];
            var v := BuildView(env.gate.H, Recompute(env, log, r, at).record, p, env.gate.identities, lastSeq, updatedAt);
            && (v.status.Approved? ==> v.approvals >= v.threshold)
            && (v.status.Rejected? ==> v.approvals == 0 && v.approvers != [])
            && ((v.status.Pending? || v.status.Expired?) && p.requireDistinctRoles == [] ==> v.approvals < v.threshold)
            && (v.pendingFor != [] ==> v.status.Pending?)
  {
    hide RequestId, PolicyDigest, DecisionsFor, EligibleApprovers, Undecided, Deadline, ContextDigest, Readable, Judge, Voices;
    hide CouldVote;
    var g := env.gate;
    var p := env.policies[r.policyId];
    var ds := DecisionsFor(g, log, r).value;
    var c := CaseOf(g.H, g.trust.parse, r, p, g.identities).value;
    JudgeCounts(c, Voices(c, ds), Instant(g.trust.parse(at).value));
  }

  lemma JudgeCounts(c: Case, voices: map<string, Decision>, now: int)
    ensures var r := Judge(c, voices, now);
            && (r.status.Approved? ==> |r.satisfiedBy| >= c.policy.threshold)
            && (r.status.Rejected? ==> r.satisfiedBy != [])
            && ((r.status.Pending? || r.status.Expired?) && c.policy.requireDistinctRoles == [] ==>
                 |r.satisfiedBy| < c.policy.threshold)
  {
    hide Voters, StrictlySorted, SortedKeys, RolesSatisfied;
    NoRolesRequired(Voters(voices, APPROVE), c.policy, c.identities);
    var rejecters := Voters(voices, REJECT);
    if rejecters != {} {
      var a :| a in rejecters;
      assert a in SortedKeys(rejecters);
    }
  }

  lemma NoRolesRequired(approvers: set<string>, p: Policy, identities: map<string, Identity>)
    ensures p.requireDistinctRoles == [] ==> RolesSatisfied(approvers, p, identities)
  {
  }

  // ----------------------------------------------------------- growing ledgers

  lemma {:induction false} EnvelopesAppend(a: seq<LedgerEntry>, b: seq<LedgerEntry>)
    ensures Envelopes(a + b) == Envelopes(a) + Envelopes(b)
  {
    if b == [] {
      assert a + b == a;
    } else {
      var n := |b| - 1;
      assert (a + b)[..|a| + n] == a + b[..n] && (a + b)[|a| + n] == b[n];
      EnvelopesAppend(a, b[..n]);
    }
  }

  lemma {:induction false} LastStatusAppends(a: seq<LedgerEntry>, b: seq<LedgerEntry>)
    requires forall e :: e in b ==> e.eventType != STATUS_CHANGED
    ensures LastStatus(a + b) == LastStatus(a)
  {
    if b == [] {
      assert a + b == a;
    } else {
      var n := |b| - 1;
      assert (a + b)[..|a| + n] == a + b[..n] && (a + b)[|a| + n] == b[n];
      LastStatusAppends(a, b[..n]);
    }
  }
}
