/** The detached signing ceremony: the challenge the service hands out, the envelope made from the
    client's signature, and the checks an envelope passes before it is recorded. */
module Ceremony {
  import opened ByteStrings
  import opened JsonText
  import opened Canonical
  import opened Models
  import opened Datetime
  import opened PolicyEngine
  import opened Keys
  import opened Envelope
  import opened Verifier

  /** The advisory expiry of a challenge is not part of this model: nothing reads it. */
  datatype Challenge = Challenge(
    requestId: string,
    approverId: string,
    verdict: string,
    payloadType: string,
    payload64: string,
    pae64: string,
    decidedAt: string,
    idempotencyKey: string)

  /** The decision a challenge asks for. */
  function Asked(H: Hash, r: Request, requestId: string, approverId: string, verdict: string, comment: string,
                 idempotencyKey: string, now: string): Decision {
    Decision(requestId, ContextDigest(H, r), verdict, approverId, now, comment,
             if idempotencyKey != "" then idempotencyKey else requestId + ":" + approverId + ":" + verdict,
             Null, DECISION_SCHEMA)
  }

  /** `prepare_decision`, after the request has been loaded. */
  function Prepare(d: Decision): Challenge {
    var body := JsonBytes(DecisionJson(d));
    Challenge(d.requestId, d.approverId, d.verdict, DECISION_PAYLOAD_TYPE, Base64(body),
              Base64(Pae(DECISION_PAYLOAD_TYPE, body)), d.decidedAt, d.idempotencyKey)
  }

  /** `envelope_from_challenge` */
  function EnvelopeFromChallenge(ch: Challenge, signatures: seq<Json>): Json {
    MakeEnvelope(ch.payloadType, ch.payload64, signatures)
  }

  /** What is fixed while the service runs, as far as a decision's checks read it. */
  datatype Gate = Gate(H: Hash, trust: Trust, logId: string, skew: int, identities: map<string, Identity>)

  datatype Screening = Passed | ContextMismatch | FromTheFuture | WindowClosed | NotAuthorized | BadTime

  function Known(identities: map<string, Identity>, approverId: string): bool {
    identities == map[] || approverId in identities
  }

  function MayDecide(g: Gate, envelope: Json, d: Decision): Option<bool> {
    Authorized(g.trust, envelope, d.approverId, g.logId, d.decidedAt, Known(g.identities, d.approverId))
  }

  /** `parse_rfc3339(text) + skew`; `None` is an exception. */
  function Limit(parse: Parse, text: string, skew: int): Option<DateTime> {
    var t :- parse(text);
    Plus(t, skew)
  }

  /** Whether the decision's time is past the limit; `None` is an exception. */
  function Past(parse: Parse, decidedAt: string, text: string, skew: int): Option<bool> {
    var decided :- parse(decidedAt);
    var limit :- Limit(parse, text, skew);
    Less(limit, decided)
  }

  /** The checks of `submit_signed_decision` between loading the request and recording. */
  function Screen(g: Gate, envelope: Json, d: Decision, r: Request, now: string): Screening {
    if d.contextDigest != ContextDigest(g.H, r) then ContextMismatch
    else
      match Past(g.trust.parse, d.decidedAt, now, g.skew)
      case None => BadTime
      case Some(future) =>
        if future then FromTheFuture
        else (
          match Past(g.trust.parse, d.decidedAt, r.notValidAfter, g.skew)
          case None => BadTime
          case Some(closed) =>
            if closed then WindowClosed
            else (
              match MayDecide(g, envelope, d)
              case None => BadTime
              case Some(authorized) => if authorized then Passed else NotAuthorized))
  }

  /** The decision is dated no later than the skew after the time in `text`: the sum exists, and the
      two can be compared. */
  predicate Within(parse: Parse, decidedAt: string, text: string, skew: int) {
    && parse(decidedAt).Some? && parse(text).Some?
    && Plus(parse(text).value, skew).Some?
    && Aware(parse(decidedAt).value) == Aware(parse(text).value)
    && Instant(parse(decidedAt).value) <= Instant(parse(text).value) + skew
  }

  lemma NotPastIsWithin(parse: Parse, decidedAt: string, text: string, skew: int)
    ensures Past(parse, decidedAt, text, skew) == Some(false) <==> Within(parse, decidedAt, text, skew)
  {
  }

  /** The decision is dated later than the skew after the time in `text`. */
  predicate Beyond(parse: Parse, decidedAt: string, text: string, skew: int) {
    && parse(decidedAt).Some? && parse(text).Some?
    && Plus(parse(text).value, skew).Some?
    && Aware(parse(decidedAt).value) == Aware(parse(text).value)
    && Instant(parse(decidedAt).value) > Instant(parse(text).value) + skew
  }

  lemma PastIsBeyond(parse: Parse, decidedAt: string, text: string, skew: int)
    ensures Past(parse, decidedAt, text, skew) == Some(true) <==> Beyond(parse, decidedAt, text, skew)
  {
  }

  /** Which refusal a decision meets: the first of the checks that fails, in the service's order. */
  lemma ScreenExactly(g: Gate, envelope: Json, d: Decision, r: Request, now: string)
    ensures var why := Screen(g, envelope, d, r, now);
            var bound := d.contextDigest == ContextDigest(g.H, r);
            var present := Within(g.trust.parse, d.decidedAt, now, g.skew);
            var open := Within(g.trust.parse, d.decidedAt, r.notValidAfter, g.skew);
            && (why.ContextMismatch? <==> !bound)
            && (why.FromTheFuture? <==> bound && Beyond(g.trust.parse, d.decidedAt, now, g.skew))
            && (why.WindowClosed? <==> bound && present && Beyond(g.trust.parse, d.decidedAt, r.notValidAfter, g.skew))
            && (why.NotAuthorized? <==> bound && present && open && MayDecide(g, envelope, d) == Some(false))
            && (why.Passed? <==> bound && present && open && MayDecide(g, envelope, d) == Some(true))
  {
    hide ContextDigest, Past, Within, Beyond, MayDecide;
    NotPastIsWithin(g.trust.parse, d.decidedAt, now, g.skew);
    NotPastIsWithin(g.trust.parse, d.decidedAt, r.notValidAfter, g.skew);
    PastIsBeyond(g.trust.parse, d.decidedAt, now, g.skew);
    PastIsBeyond(g.trust.parse, d.decidedAt, r.notValidAfter, g.skew);
  }

  /** A decision passes exactly when it is bound to the request, dated within the skew of the present
      and of the closing time, and some signature on its envelope is by a key that is good at its time
      and speaks for its approver. */
  lemma PassedExactly(g: Gate, envelope: Json, d: Decision, r: Request, now: string)
    requires WellKeyed(g.trust.keys)
    ensures Screen(g, envelope, d, r, now).Passed?
       <==> && d.contextDigest == ContextDigest(g.H, r)
            && Within(g.trust.parse, d.decidedAt, now, g.skew) && Within(g.trust.parse, d.decidedAt, r.notValidAfter, g.skew)
            && SignableBytes(envelope).Some? && SignaturesOf(envelope).Some?
            && (forall s :: s in SignaturesOf(envelope).value ==>
                  Counting(g.trust, s, SignableBytes(envelope).value, d.decidedAt).Some?)
            && exists s, id :: s in SignaturesOf(envelope).value && id in g.trust.keys
                 && SpeaksFor(g.trust.keys[id], d.approverId, g.logId, g.identities == map[] || d.approverId in g.identities)
                 && Vouches(g.trust, s, SignableBytes(envelope).value, d.decidedAt, id)
  {
    hide ContextDigest, Past, Within, SpeaksFor, Vouches, Counting, SignaturesOf, SignableBytes, Authorized;
    NotPastIsWithin(g.trust.parse, d.decidedAt, now, g.skew);
    NotPastIsWithin(g.trust.parse, d.decidedAt, r.notValidAfter, g.skew);
    AuthorizedExactly(g.trust, envelope, d.approverId, g.logId, d.decidedAt, Known(g.identities, d.approverId));
  }

  /** A closing time so late that the skew cannot be added to it: every decision that gets past the
      first time check is refused with an exception, however it is signed. */
  lemma NeverClosingNeverPasses(g: Gate, envelope: Json, d: Decision, r: Request, now: string)
    requires g.trust.parse(r.notValidAfter).Some? && g.trust.parse(r.notValidAfter).value.wall + g.skew >= WALL_END
    ensures !Screen(g, envelope, d, r, now).Passed?
    ensures d.contextDigest == ContextDigest(g.H, r) && Within(g.trust.parse, d.decidedAt, now, g.skew) ==>
              Screen(g, envelope, d, r, now) == BadTime
  {
    hide ContextDigest, MayDecide;
    NotPastIsWithin(g.trust.parse, d.decidedAt, now, g.skew);
  }

  /** The bytes the client is asked to sign are exactly the bytes the service will check, and the
      envelope made from them decodes to the decision that was prepared. */
  lemma ChallengeRoundTrip(d: Decision, signatures: seq<Json>)
    ensures var ch := Prepare(d);
            var envelope := EnvelopeFromChallenge(ch, signatures);
            && DecodeDecision(envelope) == Some(d)
            && SignableBytes(envelope).Some? && SignableBytes(envelope) == Base64Decode(ch.pae64)
            && SignaturesOf(envelope) == Some(signatures)
  {
    hide Base64, Base64Decode, JsonBytes, Pae, DecisionJson, LoadBytes, DecisionFromJson, MakeEnvelope;
    hide UnwrapPayload, SignableBytes;
    var payload := DecisionJson(d);
    WrapRoundTrip(payload, DECISION_PAYLOAD_TYPE, signatures);
    Base64RoundTrip(Pae(DECISION_PAYLOAD_TYPE, JsonBytes(payload)));
    DecisionRoundTrip(d);
    MadeEnvelope(DECISION_PAYLOAD_TYPE, Base64(JsonBytes(payload)), signatures);
  }

  /** The decision asked for. */
  predicate IsAsked(H: Hash, r: Request, requestId: string, approverId: string, verdict: string, comment: string,
                    idempotencyKey: string, now: string, d: Decision) {
    && d.requestId == requestId && d.contextDigest == ContextDigest(H, r) && d.verdict == verdict && d.approverId == approverId
    && d.decidedAt == now && d.comment == comment && d.schema == "approvo/decision/v1"
    && d.idempotencyKey == if idempotencyKey == "" then requestId + ":" + approverId + ":" + verdict else idempotencyKey
  }

  /** The challenge says what it asks for, its payload is the decision it asks for, and the bytes to sign
      are the encoding of that payload. */
  predicate ChallengeFor(H: Hash, r: Request, requestId: string, approverId: string, verdict: string, comment: string,
                         idempotencyKey: string, now: string, ch: Challenge) {
    && ch.requestId == requestId && ch.approverId == approverId && ch.verdict == verdict && ch.decidedAt == now
    && ch.payloadType == "application/vnd.approvo.decision+json"
    && var body := Base64Decode(ch.payload64);
       && body.Some? && Base64Decode(ch.pae64) == Some(Pae(ch.payloadType, body.value)) && LoadBytes(body.value).Some?
       && var d := DecisionFromJson(LoadBytes(body.value).value);
          && d.Some? && IsAsked(H, r, requestId, approverId, verdict, comment, idempotencyKey, now, d.value)
          && d.value.idempotencyKey == ch.idempotencyKey && d.value.authn == Null
  }

  lemma ChallengeTells(H: Hash, r: Request, requestId: string, approverId: string, verdict: string, comment: string,
                       idempotencyKey: string, now: string)
    ensures ChallengeFor(H, r, requestId, approverId, verdict, comment, idempotencyKey, now,
                         Prepare(Asked(H, r, requestId, approverId, verdict, comment, idempotencyKey, now)))
  {
    hide Base64, Base64Decode, JsonBytes, Pae, DecisionJson, LoadBytes, DecisionFromJson, ContextDigest;
    var d := Asked(H, r, requestId, approverId, verdict, comment, idempotencyKey, now);
    Base64RoundTrip(JsonBytes(DecisionJson(d)));
    Base64RoundTrip(Pae(DECISION_PAYLOAD_TYPE, JsonBytes(DecisionJson(d))));
    LoadBytesInverts(DecisionJson(d));
    DecisionRoundTrip(d);
  }

  /** The client's answer to a challenge: its signature over the decoded bytes. */
  function Answer(ch: Challenge, signer: Signer): Json {
    var signable := Base64Decode(ch.pae64);
    EnvelopeFromChallenge(ch, [SignatureEntry(signer.keyid, signer.sign(if signable.Some? then signable.value else []))])
  }

  /** The whole ceremony: a challenge answered with a key that may speak for the approver, valid
      when the decision was prepared, passes every check if it comes back no more than the skew
      before its time and inside the window. */
  lemma CeremonyPasses(g: Gate, d: Decision, r: Request, signer: Signer, now: string)
    requires WellKeyed(g.trust.keys) && Signs(g.trust, signer)
    requires var key := g.trust.keys[signer.keyid];
             MaySpeakFor(key, d.approverId, g.logId, Known(g.identities, d.approverId))
             && ValidAt(g.trust.parse, key, d.decidedAt) == Some(true)
    requires d.contextDigest == ContextDigest(g.H, r)
    requires Within(g.trust.parse, d.decidedAt, now, g.skew) && Within(g.trust.parse, d.decidedAt, r.notValidAfter, g.skew)
    ensures var envelope := Answer(Prepare(d), signer);
            DecodeDecision(envelope) == Some(d) && Screen(g, envelope, d, r, now) == Passed
  {
    hide DecodeDecision, SignableBytes, Base64Decode, Base64, Prepare, EnvelopeFromChallenge, SignatureEntry;
    hide ContextDigest, ValidAt, ScopedTo, Signs, MaySpeakFor, SignaturesOf, Authorized, Within, Past;
    NotPastIsWithin(g.trust.parse, d.decidedAt, now, g.skew);
    NotPastIsWithin(g.trust.parse, d.decidedAt, r.notValidAfter, g.skew);
    var ch := Prepare(d);
    ChallengeRoundTrip(d, []);
    var signable := Base64Decode(ch.pae64).value;
    var entry := SignatureEntry(signer.keyid, signer.sign(signable));
    ChallengeRoundTrip(d, [entry]);
    AnswerIsAuthorized(g, EnvelopeFromChallenge(ch, [entry]), d, signer, signable);
  }

  lemma AnswerIsAuthorized(g: Gate, envelope: Json, d: Decision, signer: Signer, signable: Bytes)
    requires WellKeyed(g.trust.keys) && Signs(g.trust, signer)
    requires SignableBytes(envelope) == Some(signable)
    requires SignaturesOf(envelope) == Some([SignatureEntry(signer.keyid, signer.sign(signable))])
    requires var key := g.trust.keys[signer.keyid];
             MaySpeakFor(key, d.approverId, g.logId, Known(g.identities, d.approverId))
             && ValidAt(g.trust.parse, key, d.decidedAt) == Some(true)
    ensures MayDecide(g, envelope, d) == Some(true)
  {
    hide SignableBytes, SignatureEntry, ValidAt, ScopedTo, SignaturesOf, MaySpeakFor, Authorized, KeyNamed, SignatureHolds;
    hide FromHex;
    var entry := SignatureEntry(signer.keyid, signer.sign(signable));
    var key := g.trust.keys[signer.keyid];
    SignedHolds(g.trust, signer, signable);
    assert CountsFor(g.trust, entry, signable, d.decidedAt, key);
    assert entry in [entry] && SomeCountsFor(g.trust, [entry], signable, d.decidedAt, key);
    OneCollected(g.trust, entry, signable, d.decidedAt);
    AuthorizedBySignature(g.trust, envelope, d.approverId, g.logId, d.decidedAt, Known(g.identities, d.approverId));
  }

  lemma OneCollected(trust: Trust, sig: Json, signable: Bytes, at: string)
    requires Counting(trust, sig, signable, at).Some?
    ensures Collected(trust, [sig], signable, at).Some?
  {
    hide Counting;
    assert [sig][..0] == [];
  }
}
