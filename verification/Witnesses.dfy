/** Concrete runs. One meets the hypotheses of the theorems about runs together; the others are the
    inputs at which `verify` raises or fails, and at which the ceremony does. Times are read by
    `Clock.ReadTime`, and a signature is its key followed by what it signs, which can fail to check. */
module Witnesses {
  import opened ByteStrings
  import opened JsonText
  import opened Canonical
  import opened Models
  import opened Datetime
  import opened Chain
  import opened PolicyEngine
  import opened PolicyTheorems
  import opened Keys
  import opened Verifier
  import opened Envelope
  import opened Ceremony
  import opened Reads
  import opened Records
  import opened Audit
  import opened Operations
  import opened LedgerHealth
  import opened SequentialRuns
  import opened FalseAlarms
  import opened ServiceGuarantees
  import C = Clock
  import Protocol

  // ---------------------------------------------------------------------- times

  /** Twelve o'clock on the first of January 2026. */
  const NOON: int := 63902865600000000
  const MINUTE: int := 60000000
  const SKEW: int := 5 * MINUTE

  function Minute(k: nat): C.Civil {
    C.Civil(2026, 1, 1, 12, k, 0, 0)
  }

  /** The stamp of the `k`-th minute past noon. */
  function M(k: nat): string
    requires k < 60
  {
    C.ToRfc3339(Minute(k))
  }

  lemma MinuteReads(k: nat)
    requires k < 60
    ensures C.ReadTime(M(k)) == Some(Reading(NOON + k * MINUTE, Some(0)))
    ensures ClockReading(C.ReadTime, M(k)) == Some(NOON + k * MINUTE) && Clock(C.ReadTime, M(k)) == NOON + k * MINUTE
  {
    hide C.ReadTime, C.ToRfc3339, C.DaysBeforeYear, C.DaysBeforeMonth;
    C.ReadsBack(Minute(k));
    YearOf2026();
    C.JanuaryFirst(2026);
  }

  lemma YearOf2026()
    ensures C.DaysBeforeYear(2026) == 739616
  {
  }

  lemma Later(i: nat, j: nat)
    requires i <= j < 60
    ensures NotBefore(C.ReadTime, Clock(C.ReadTime, M(i)), M(j))
  {
    hide C.ReadTime, M;
    MinuteReads(i);
    MinuteReads(j);
  }

  // ----------------------------------------------------------- keys and signatures

  function Signed(key: Bytes, msg: Bytes): Bytes {
    key + msg
  }

  function Checks(scheme: string, key: Bytes, sig: Bytes, msg: Bytes): bool {
    sig == Signed(key, msg)
  }

  function NoReasons(r: Request, ds: seq<Decision>, at: string): seq<Json> {
    []
  }

  const ALICE := KeyRef("a", "ed25519", "01", "alice", M(0), None, None, APPROVER, None)
  const LOGKEY := KeyRef("l", "ed25519", "02", "log", M(0), None, None, LOG, None)

  function SignerOf(keyid: string, key: Bytes): Signer {
    Signer(keyid, msg => Signed(key, msg))
  }

  const SIGNER := SignerOf("a", [1])
  const LOGGER := SignerOf("l", [2])

  function TheTrust(): Trust {
    Trust(C.ReadTime, Checks, map["a" := ALICE, "l" := LOGKEY])
  }

  /** A signature by one key does not check under another, nor over another message. */
  lemma SignaturesCanFail(msg: Bytes, other: Bytes)
    ensures !Checks("ed25519", [2], SIGNER.sign(msg), msg)
    ensures Checks("ed25519", [1], SIGNER.sign(msg), other) <==> msg == other
  {
    assert ([1] + msg)[0] != ([2] + msg)[0];
    assert ([1] + msg)[1..] == msg && ([1] + other)[1..] == other;
  }

  lemma HexOne()
    ensures FromHex("01") == Some([1]) && FromHex("02") == Some([2])
  {
    HexRoundTrip([1]);
    HexRoundTrip([2]);
    assert [1][1..] == [] && [2][1..] == [];
    assert ToHex([1]) == [HexDigit(0), HexDigit(1)] + "" && ToHex([2]) == [HexDigit(0), HexDigit(2)] + "";
    assert [HexDigit(0), HexDigit(1)] == "01" && [HexDigit(0), HexDigit(2)] == "02";
  }

  lemma TrustHolds()
    ensures WellKeyed(TheTrust().keys) && TheTrust().parse == C.ReadTime
    ensures "a" in TheTrust().keys && TheTrust().keys["a"] == ALICE && "l" in TheTrust().keys && TheTrust().keys["l"] == LOGKEY
    ensures Signs(TheTrust(), SIGNER) && Signs(TheTrust(), LOGGER)
  {
    hide FromHex, M;
    assert "a"[0] != "l"[0];
    HexOne();
  }

  lemma KeysAreValid(k: nat)
    requires k < 60
    ensures ValidAt(C.ReadTime, ALICE, M(k)) == Some(true) && ValidAt(C.ReadTime, LOGKEY, M(k)) == Some(true)
  {
    hide C.ReadTime, M;
    MinuteReads(0);
    MinuteReads(k);
  }

  // ------------------------------------------------------------------ the service

  function PolicyWith(maxAgeSeconds: int, rejectIsTerminal: bool): Policy {
    Policy("p", "release", ["alice"], 1, [], true, rejectIsTerminal, maxAgeSeconds, [], "approvo/policy/v1")
  }

  function ServiceWith(H: Hash, p: Policy, keyed: bool): Service {
    Service(Env(Gate(H, TheTrust(), "default", SKEW, map[]), map["p" := p], NoReasons), keyed, true)
  }

  function Until(closes: string): Opening {
    Opening("release", map[], "bob", "p", closes, "")
  }

  function Opened(H: Hash, p: Policy, closes: string): Request {
    RequestFor(H, Until(closes), p, M(0))
  }

  function Open(closes: string): Op {
    CreateOp(Until(closes), M(0))
  }

  lemma RequestIsOpen(H: Hash, p: Policy, keyed: bool, closes: string)
    requires p.requiredSubjectFields == []
    ensures var st, r := RunAll(ServiceWith(H, p, keyed), [Open(closes)]), Opened(H, p, closes);
            && st.keys == map[] && st.log == [EntryFor(H, [], CreatedDraft(H, r))]
            && LoadRequest(st.log, RequestId(H, r)) == Found(r)
  {
    hide RunAll, LoadRequest, RequestId, EntryFor, CreatedDraft, M, TheTrust, RequestFor;
    OneOpening(ServiceWith(H, p, keyed), Until(closes), M(0));
  }

  // ------------------------------------------- deadlines that cannot be told

  lemma OpeningRaises(H: Hash, p: Policy, closes: string)
    requires p.requiredSubjectFields == [] && !WindowOpens(ServiceWith(H, p, true).env, Opened(H, p, closes))
    ensures Verify(ServiceWith(H, p, true).env, RunAll(ServiceWith(H, p, true), [Open(closes)]).log, None, 0, None, NEXT).None?
  {
    hide RunAll, Verify, WindowOpens, M, C.ReadTime, RequestFor;
    MinuteReads(0);
    Later(0, 1);
    OpeningThatRaises(ServiceWith(H, p, true), Until(closes), M(0), M(1));
  }

  /** An age limit of a million million seconds: the closing time parses, and `verify` raises. */
  lemma AgeLimitOverflows(H: Hash)
    ensures var s := ServiceWith(H, PolicyWith(1000000000000, true), true);
            && s.env.gate.trust.parse(CLOSES).Some?
            && Verify(s.env, RunAll(s, [Open(CLOSES)]).log, None, 0, None, NEXT).None?
  {
    hide RunAll, Verify, M, C.ReadTime, PolicyDigest;
    MinuteReads(0);
    MinuteReads(59);
    OpeningRaises(H, PolicyWith(1000000000000, true), CLOSES);
  }

  lemma DateAlone()
    ensures C.ReadTime("2026-12-31").Some? && !Aware(C.ReadTime("2026-12-31").value)
  {
    hide C.ReadField, C.Padded, C.Number, C.Wall, C.DaysIn;
    PaddedTexts();
    assert "2026-12-31" == C.Padded(2026, 4) + ['-'] + "12-31";
    C.FieldReads(2026, 4, '-', "12-31");
    assert "12-31" == C.Padded(12, 2) + ['-'] + "31";
    C.FieldReads(12, 2, '-', "31");
    C.PaddedReads(31, 2);
    assert C.DaysIn(2026, 12) == 31 by {
      Decembers();
    }
  }

  lemma Decembers()
    ensures forall y :: C.DaysIn(y, 12) == 31
  {
  }

  lemma PaddedTexts()
    ensures C.Padded(2026, 4) == "2026" && C.Padded(9999, 4) == "9999" && C.Padded(12, 2) == "12" && C.Padded(31, 2) == "31"
    ensures C.Padded(23, 2) == "23" && C.Padded(59, 2) == "59"
    ensures C.Power10(2) == 100 && C.Power10(4) == 10000
  {
    TwoDigits(2, 0, 2, 6, 2026);
    TwoDigits(9, 9, 9, 9, 9999);
  }

  lemma TwoDigits(a: nat, b: nat, c: nat, d: nat, n: nat)
    requires a < 10 && b < 10 && c < 10 && d < 10 && n == a * 1000 + b * 100 + c * 10 + d
    ensures C.Padded(n, 4) == [Digit(a), Digit(b), Digit(c), Digit(d)]
  {
    assert n / 10 == a * 100 + b * 10 + c && n % 10 == d;
    assert n / 10 / 10 == a * 10 + b && n / 10 % 10 == c;
    assert n / 10 / 10 / 10 == a && n / 10 / 10 % 10 == b;
    assert C.Padded(a, 1) == [Digit(a)];
    assert C.Padded(n / 10 / 10, 2) == [Digit(a), Digit(b)];
    assert C.Padded(n / 10, 3) == [Digit(a), Digit(b), Digit(c)];
  }

  /** A closing time without an offset: it parses, and `verify` raises. */
  lemma DateAloneRaises(H: Hash)
    ensures var s := ServiceWith(H, PolicyWith(604800, true), true);
            && s.env.gate.trust.parse("2026-12-31").Some?
            && Verify(s.env, RunAll(s, [Open("2026-12-31")]).log, None, 0, None, NEXT).None?
  {
    hide RunAll, Verify, M, C.ReadTime, PolicyDigest;
    MinuteReads(0);
    DateAlone();
    OpeningRaises(H, PolicyWith(604800, true), "2026-12-31");
  }

  lemma EndOfTime()
    ensures C.ReadTime("9999-12-31T23:59:59Z") == Some(Reading(WALL_END - 1000000, Some(0)))
  {
    hide C.ReadField, C.Padded, C.Number, C.Wall, C.IsCivil;
    PaddedTexts();
    assert "9999-12-31T23:59:59Z" == C.Padded(9999, 4) + ['-'] + "12-31T23:59:59Z";
    C.FieldReads(9999, 4, '-', "12-31T23:59:59Z");
    assert "12-31T23:59:59Z" == C.Padded(12, 2) + ['-'] + "31T23:59:59Z";
    C.FieldReads(12, 2, '-', "31T23:59:59Z");
    assert "31T23:59:59Z" == C.Padded(31, 2) + ['T'] + "23:59:59Z";
    C.FieldReads(31, 2, 'T', "23:59:59Z");
    assert "23:59:59Z" == C.Padded(23, 2) + [':'] + "59:59Z";
    C.FieldReads(23, 2, ':', "59:59Z");
    assert "59:59Z" == C.Padded(59, 2) + [':'] + "59Z";
    C.FieldReads(59, 2, ':', "59Z");
    assert "59Z" == C.Padded(59, 2) + ['Z'] + "";
    C.FieldReads(59, 2, 'Z', "");
    LastSecond();
  }

  lemma LastSecond()
    ensures var t := C.Civil(9999, 12, 31, 23, 59, 59, 0);
            C.IsCivil(t) && C.Wall(t) == WALL_END - 1000000
  {
    C.MonthsBefore(9999);
  }

  // ---------------------------------------------------------------- ceremonies

  function Asks(H: Hash, p: Policy, closes: string, verdict: string): Decision {
    var r := Opened(H, p, closes);
    Asked(H, r, RequestId(H, r), "alice", verdict, "", "", M(1))
  }

  /** Alice's signed answer to the challenge for a decision. */
  function EnvelopeOf(d: Decision): Json {
    Answer(Prepare(d), SIGNER)
  }

  function AllAt(k: nat): Times
    requires k < 60
  {
    Times(M(k), M(k), M(k), M(k))
  }

  lemma EnvelopeDecodes(d: Decision)
    ensures DecodeDecision(EnvelopeOf(d)) == Some(d)
  {
    hide DecodeDecision, SignableBytes, Base64Decode, Base64, Prepare, EnvelopeFromChallenge, SignatureEntry;
    ChallengeRoundTrip(d, []);
    var signable := Base64Decode(Prepare(d).pae64).value;
    ChallengeRoundTrip(d, [SignatureEntry(SIGNER.keyid, SIGNER.sign(signable))]);
  }

  lemma MinutesWithin(i: nat, j: nat)
    requires i < 60 && j < 60 && i <= j + 5
    ensures Within(C.ReadTime, M(i), M(j), SKEW)
  {
    hide C.ReadTime, M;
    MinuteReads(i);
    MinuteReads(j);
  }

  /** A request that never closes: every other requirement of the ceremony is met, and the answer is
      refused with an exception, leaving the stores as they were. */
  lemma NeverClosingRefuses(H: Hash, keyed: bool)
    ensures var closes := "9999-12-31T23:59:59Z";
            var p := PolicyWith(604800, true);
            var s, d := ServiceWith(H, p, keyed), Asks(H, p, closes, APPROVE);
            var st := RunAll(s, [Open(closes)]);
            && Within(C.ReadTime, d.decidedAt, M(2), SKEW)
            && C.ReadTime(closes).Some? && Less(C.ReadTime(closes).value, C.ReadTime(d.decidedAt).value) == Some(false)
            && Submit(s, st, EnvelopeOf(d), SUBMITTED) == (st, Refused(BadTime))
  {
    hide RunAll, M, C.ReadTime, PolicyDigest, RequestId, ContextDigest, LoadRequest, DecodeDecision, EnvelopeOf, Screen, Within;
    hide TheTrust, EntryFor, CreatedDraft, RecordDecision, SubmitKeyed;
    var closes := "9999-12-31T23:59:59Z";
    var p := PolicyWith(604800, true);
    var s, d := ServiceWith(H, p, keyed), Asks(H, p, closes, APPROVE);
    EndOfTime();
    MinuteReads(1);
    MinutesWithin(1, 2);
    TrustHolds();
    RequestIsOpen(H, p, keyed, closes);
    EnvelopeDecodes(d);
    NeverClosingNeverPasses(s.env.gate, EnvelopeOf(d), d, Opened(H, p, closes), M(2));
  }

  lemma WindowIsOpen(H: Hash, terminal: bool, keyed: bool)
    ensures var p := PolicyWith(604800, terminal); WindowOpens(ServiceWith(H, p, keyed).env, Opened(H, p, CLOSES))
  {
    hide M, C.ReadTime, PolicyDigest;
    MinuteReads(0);
    MinuteReads(59);
  }

  /** The requirements of the ceremony, at the `k`-th minute. */
  lemma AnswerIsGood(H: Hash, terminal: bool, keyed: bool, st: Stores, verdict: string, k: nat)
    requires 1 <= k < 59
    requires var r := Opened(H, PolicyWith(604800, terminal), CLOSES); LoadRequest(st.log, RequestId(H, r)) == Found(r)
    requires keyed ==> Protocol.KeyOf(Asks(H, PolicyWith(604800, terminal), CLOSES, verdict)) !in st.keys
    ensures var p := PolicyWith(604800, terminal);
            Answered(ServiceWith(H, p, keyed), st, Asks(H, p, CLOSES, verdict), SIGNER, AllAt(k))
  {
    hide M, C.ReadTime, PolicyDigest, RequestId, ContextDigest, LoadRequest, Within, ValidAt, Signs, Protocol.KeyOf, TheTrust;
    MinutesWithin(1, k);
    MinutesWithin(1, 59);
    MinuteReads(k);
    MinuteReads(59);
    TrustHolds();
    KeysAreValid(1);
  }

  lemma AnswerPasses(H: Hash, terminal: bool, keyed: bool, st: Stores, verdict: string, k: nat)
    requires 1 <= k < 59
    requires var r := Opened(H, PolicyWith(604800, terminal), CLOSES); LoadRequest(st.log, RequestId(H, r)) == Found(r)
    ensures var p := PolicyWith(604800, terminal);
            var d := Asks(H, p, CLOSES, verdict);
            Screen(ServiceWith(H, p, keyed).env.gate, EnvelopeOf(d), d, Opened(H, p, CLOSES), M(k)).Passed?
  {
    hide M, C.ReadTime, PolicyDigest, RequestId, ContextDigest, LoadRequest, Within, ValidAt, Signs, Protocol.KeyOf, TheTrust;
    hide Screen, DecodeDecision, Answer, Prepare;
    var p := PolicyWith(604800, terminal);
    var d := Asks(H, p, CLOSES, verdict);
    AnswerIsGood(H, terminal, false, st, verdict, k);
    CeremonyPasses(ServiceWith(H, p, keyed).env.gate, d, Opened(H, p, CLOSES), SIGNER, M(k));
  }

  // ----------------------------------------------------------------- whole runs

  lemma OneMoreOrderly(ops: seq<Op>, op: Op, start: int)
    requires Orderly(C.ReadTime, ops, start) && Ascending(C.ReadTime, ClockAfter(C.ReadTime, ops, start), op)
    ensures Orderly(C.ReadTime, ops + [op], start)
    ensures ClockAfter(C.ReadTime, ops + [op], start) == Clock(C.ReadTime, LastReading(op))
  {
    hide Ascending;
    assert (ops + [op])[..|ops|] == ops;
  }

  lemma SubmitAscends(envelope: Json, i: nat, k: nat)
    requires i <= k < 60
    ensures Ascending(C.ReadTime, Clock(C.ReadTime, M(i)), SubmitOp(envelope, AllAt(k)))
  {
    hide M, C.ReadTime, NotBefore;
    Later(i, k);
    Later(k, k);
  }

  lemma OpeningIsOrderly(closes: string)
    ensures Orderly(C.ReadTime, [Open(closes)], NOON)
    ensures ClockAfter(C.ReadTime, [Open(closes)], NOON) == Clock(C.ReadTime, M(0))
  {
    hide M, C.ReadTime;
    MinuteReads(0);
    assert [Open(closes)][..0] == [];
  }

  const PUBLISH := PublishOp(LOGGER, M(3))

  /** The closing time, the minute of submission, and the minute after the opening. */
  const CLOSES := M(59)
  const SUBMITTED := AllAt(2)
  const NEXT := M(1)
  const LAST := M(3)

  lemma PublishIsTrusted(H: Hash, p: Policy, keyed: bool)
    ensures TrustedOp(ServiceWith(H, p, keyed).env.gate, PUBLISH)
  {
    hide M, ValidAt, Signs, TheTrust;
    TrustHolds();
    KeysAreValid(3);
  }

  lemma OneEnvelopeIsSteadfast(log: seq<LedgerEntry>, envelope: Json)
    requires forall e :: e in log && e.eventType == RECORDED ==> e.payload == envelope
    ensures Steadfast(log)
  {
    hide DecodeDecision, EventsFor, Envelopes, Decoded;
    forall id
      ensures NoReversal(DecisionsIn(EventsFor(log, id)))
    {
      forall d | d in DecisionsIn(EventsFor(log, id))
        ensures Some(d) == DecodeDecision(envelope)
      {
        DecodedAre(Envelopes(EventsFor(log, id)), d);
        EnvelopesAre(EventsFor(log, id));
        EventsForOnly(log, id);
      }
    }
  }

  /** Open, answer, publish. */
  function OpenAnswerPublish(d: Decision): seq<Op> {
    [Open(CLOSES)] + [SubmitOp(EnvelopeOf(d), SUBMITTED)] + [PUBLISH]
  }

  lemma CeremonyIsOrderly(d: Decision)
    ensures Orderly(C.ReadTime, OpenAnswerPublish(d), NOON)
    ensures ClockAfter(C.ReadTime, OpenAnswerPublish(d), NOON) == Clock(C.ReadTime, LAST)
  {
    hide M, C.ReadTime, NotBefore, Orderly, ClockAfter, Clock, EnvelopeOf;
    OpeningIsOrderly(M(59));
    SubmitAscends(EnvelopeOf(d), 0, 2);
    OneMoreOrderly([Open(CLOSES)], SubmitOp(EnvelopeOf(d), SUBMITTED), NOON);
    Later(2, 3);
    OneMoreOrderly([Open(CLOSES)] + [SubmitOp(EnvelopeOf(d), SUBMITTED)], PUBLISH, NOON);
  }

  lemma CeremonyIsTrusted(H: Hash, p: Policy, keyed: bool, d: Decision)
    ensures TrustedKeys(ServiceWith(H, p, keyed).env.gate, OpenAnswerPublish(d))
  {
    hide M, TrustedOp, EnvelopeOf, ServiceWith;
    OthersAreTrusted(ServiceWith(H, p, keyed).env.gate, M(59), EnvelopeOf(d), SUBMITTED);
    PublishIsTrusted(H, p, keyed);
  }

  lemma OthersAreTrusted(g: Gate, closes: string, envelope: Json, t: Times)
    ensures TrustedOp(g, Open(closes)) && TrustedOp(g, SubmitOp(envelope, t))
  {
    hide M, Signs, ValidAt;
  }

  lemma CeremonyIsSteadfast(s: Service, d: Decision)
    ensures Steadfast(RunAll(s, OpenAnswerPublish(d)).log)
  {
    hide RunAll, Steadfast, EnvelopeOf, M;
    var log := RunAll(s, OpenAnswerPublish(d)).log;
    forall e | e in log && e.eventType == RECORDED
      ensures e.payload == EnvelopeOf(d)
    {
      RecordedWasSubmitted(s, OpenAnswerPublish(d), e);
      assert forall op :: op in OpenAnswerPublish(d) ==> op == Open(CLOSES) || op == SubmitOp(EnvelopeOf(d), SUBMITTED) || op == PUBLISH;
    }
    OneEnvelopeIsSteadfast(log, EnvelopeOf(d));
  }

  function Standard(H: Hash, keyed: bool): Service {
    ServiceWith(H, PolicyWith(604800, true), keyed)
  }

  function Approval(H: Hash): Decision {
    Asks(H, PolicyWith(604800, true), CLOSES, APPROVE)
  }

  /** The answered challenge meets every requirement of the ceremony. */
  lemma CeremonyIsAnswered(H: Hash, keyed: bool)
    ensures Answered(Standard(H, keyed), RunAll(Standard(H, keyed), [Open(CLOSES)]), Approval(H), SIGNER, SUBMITTED)
  {
    hide RunAll, M, C.ReadTime, PolicyDigest, RequestId, ContextDigest, LoadRequest, EntryFor, CreatedDraft, TheTrust, Answered, RequestFor;
    RequestIsOpen(H, PolicyWith(604800, true), keyed, CLOSES);
    AnswerIsGood(H, true, keyed, RunAll(Standard(H, keyed), [Open(CLOSES)]), APPROVE, 2);
  }

  /** And so it is recorded, and counted when a checkpoint has been published since. */
  lemma CeremonyHappens(H: Hash, keyed: bool)
    ensures Submit(Standard(H, keyed), RunAll(Standard(H, keyed), [Open(CLOSES)]), EnvelopeOf(Approval(H)), SUBMITTED).1.DecisionRecorded?
    ensures CountedIn(Standard(H, keyed), RunAll(Standard(H, keyed), OpenAnswerPublish(Approval(H))).log, Approval(H))
  {
    hide RunAll, M, C.ReadTime, PolicyDigest, RequestId, ContextDigest, LoadRequest, Submit, DecisionsFor;
    hide EntryFor, CreatedDraft, TheTrust, Answered, Answer, Prepare, WindowOpens, RequestFor;
    RequestIsOpen(H, PolicyWith(604800, true), keyed, CLOSES);
    CeremonyIsAnswered(H, keyed);
    WindowIsOpen(H, true, keyed);
    CeremonyIsRecorded(Standard(H, keyed), [Open(CLOSES)], Approval(H), SIGNER, SUBMITTED, [PUBLISH]);
  }

  /** The decision is among those the service reads for its request. */
  predicate CountedIn(s: Service, log: seq<LedgerEntry>, d: Decision) {
    && LoadRequest(log, d.requestId).Found?
    && var ds := DecisionsFor(s.env.gate, log, LoadRequest(log, d.requestId).request);
       ds.Some? && d in ds.value
  }

  /** What the theorem about `verify` asks of a run. */
  ghost predicate WellBehaved(s: Service, ops: seq<Op>) {
    Orderly(s.env.gate.trust.parse, ops, NOON) && TrustedKeys(s.env.gate, ops) && Steadfast(RunAll(s, ops).log)
  }

  /** The run meets the hypotheses of the theorem about `verify`. */
  lemma CeremonyIsWellBehaved(H: Hash, keyed: bool)
    ensures WellBehaved(Standard(H, keyed), OpenAnswerPublish(Approval(H)))
  {
    hide RunAll, M, C.ReadTime, Orderly, TrustedKeys, Steadfast, TheTrust, OpenAnswerPublish, Asks;
    CeremonyIsOrderly(Approval(H));
    CeremonyIsTrusted(H, PolicyWith(604800, true), keyed, Approval(H));
    CeremonyIsSteadfast(Standard(H, keyed), Approval(H));
    TrustHolds();
  }

  /** The minute at which the ledger is verified. */
  const CHECKED := M(4)

  /** And `verify` reports every check ok. */
  lemma CeremonyVerifies(H: Hash, keyed: bool)
    ensures CleanNow(Standard(H, keyed), OpenAnswerPublish(Approval(H)), CHECKED)
  {
    hide RunAll, M, C.ReadTime, Verify, Orderly, TrustedKeys, Steadfast, WindowsOpen, TheTrust, OpenAnswerPublish, Asks, ClockAfter, AllOk;
    var s, ops := Standard(H, keyed), OpenAnswerPublish(Approval(H));
    CeremonyIsWellBehaved(H, keyed);
    CeremonyIsOrderly(Approval(H));
    Later(3, 4);
    TrustHolds();
    CeremonyWindows(H, keyed, Approval(H));
    WholeLedger(RunAll(s, ops).log);
    NoFalseAlarms(s, ops, NOON, None, 0, None, CHECKED);
  }

  lemma CeremonyWindows(H: Hash, keyed: bool, d: Decision)
    ensures WindowsOpen(Standard(H, keyed).env, RunAll(Standard(H, keyed), OpenAnswerPublish(d)).log)
  {
    hide RunAll, M, RequestJson, RequestFromJson, WindowOpens, EnvelopeOf, RequestFor, TheTrust;
    var s := Standard(H, keyed);
    var r := Opened(H, PolicyWith(604800, true), CLOSES);
    WindowIsOpen(H, true, keyed);
    RequestRoundTrip(H, r);
    forall e | e in RunAll(s, OpenAnswerPublish(d)).log && e.eventType == CREATED
      ensures e.payload == RequestJson(H, r)
    {
      CreatedWasOpened(s, OpenAnswerPublish(d), e);
      assert forall op :: op in OpenAnswerPublish(d) ==> op == Open(CLOSES) || op == SubmitOp(EnvelopeOf(d), SUBMITTED) || op == PUBLISH;
    }
  }

  lemma WholeLedger(log: seq<LedgerEntry>)
    ensures ScanFrom(log, 0, None) == log
  {
  }

  /** `verify` of the whole ledger reports, and every check is ok. */
  predicate CleanNow(s: Service, ops: seq<Op>, now: string) {
    var report := Verify(s.env, RunAll(s, ops).log, None, 0, None, now);
    report.Some? && AllOk(report.value.checks)
  }

  // ------------------------------------------------------------ a changed verdict

  /** A policy under which rejections are not final. */
  const LENIENT := PolicyWith(604800, false)

  function Lenient(H: Hash, keyed: bool): Service {
    ServiceWith(H, LENIENT, keyed)
  }

  function Request1(H: Hash): Request {
    Opened(H, LENIENT, CLOSES)
  }

  /** Alice approves, and then rejects. */
  function First(H: Hash): Decision {
    Asks(H, LENIENT, CLOSES, APPROVE)
  }

  function Second(H: Hash): Decision {
    Asks(H, LENIENT, CLOSES, REJECT)
  }

  function Reversal(H: Hash): seq<Op> {
    [Open(CLOSES)] + [SubmitOp(EnvelopeOf(First(H)), SUBMITTED)] + [SubmitOp(EnvelopeOf(Second(H)), AllAt(3))]
  }

  lemma LenientCase(H: Hash, keyed: bool)
    ensures var c := CaseFor(Lenient(H, keyed).env, Request1(H));
            && c.Some? && c.value.policy == LENIENT && c.value.deadline == NOON + 59 * MINUTE
            && Counts(c.value, First(H)) && Counts(c.value, Second(H))
  {
    hide M, C.ReadTime, PolicyDigest, ContextDigest, RequestId;
    MinuteReads(0);
    MinuteReads(1);
    MinuteReads(59);
    assert "alice"[0] != "bob"[0] && "alice" in ["alice"];
  }

  lemma ReversalStatuses(H: Hash, keyed: bool, k: nat)
    requires k < 59
    ensures StatusAt(Lenient(H, keyed).env, Request1(H), [First(H)], NOON + k * MINUTE) == Some(Approved)
    ensures StatusAt(Lenient(H, keyed).env, Request1(H), [First(H)] + [Second(H)], NOON + k * MINUTE) == Some(Pending)
  {
    hide M, CaseFor, Counts, Voices, Judge, RequestId, ContextDigest, Lenient, Request1, Opened;
    LenientCase(H, keyed);
    StrLeTotal(First(H).decidedAt, Second(H).decidedAt);
    ReversalReopens(CaseFor(Lenient(H, keyed).env, Request1(H)).value, First(H), Second(H), NOON + k * MINUTE);
  }

  /** A submission that passes, under a fresh key or without keys, records. */
  lemma SubmitRecords(s: Service, st: Stores, envelope: Json, d: Decision, r: Request, t: Times)
    requires DecodeDecision(envelope) == Some(d) && LoadRequest(st.log, d.requestId) == Found(r)
    requires Screen(s.env.gate, envelope, d, r, t.screened).Passed? && (s.keyed ==> Protocol.KeyOf(d) !in st.keys)
    ensures Submit(s, st, envelope, t).0.log == RecordDecision(s, st, r, d, envelope, t).0.log
    ensures forall key :: key in Submit(s, st, envelope, t).0.keys ==> key in st.keys || key == Protocol.KeyOf(d)
  {
    hide DecodeDecision, LoadRequest, Screen, Recompute, ProjectRecord, EntryFor, StatusDraft, Fingerprint, Protocol.KeyOf;
  }

  lemma KeysDiffer(H: Hash)
    ensures Protocol.KeyOf(First(H)) != Protocol.KeyOf(Second(H))
  {
    hide RequestId, Opened, ContextDigest, M;
    assert |Protocol.KeyOf(First(H))| == |Protocol.KeyOf(Second(H))| + 1;
  }

  /** The decisions and the last recorded status of the request, and that a second answer may come. */
  ghost predicate Stands(H: Hash, keyed: bool, st: Stores, ds: seq<Decision>, status: Json) {
    var id := RequestId(H, Request1(H));
    && Sound(Lenient(H, keyed).env, st.log) && CreatedByClock(C.ReadTime, st.log)
    && LoadRequest(st.log, id) == Found(Request1(H))
    && DecisionsIn(EventsFor(st.log, id)) == ds && LastStatus(EventsFor(st.log, id)) == status
  }

  lemma AfterOpening(H: Hash, keyed: bool)
    ensures var st := RunAll(Lenient(H, keyed), [Open(CLOSES)]);
            Stands(H, keyed, st, [], Null) && st.keys == map[]
  {
    hide RunAll, M, C.ReadTime, RequestId, LoadRequest, RequestJson, CanonicalHash, Sound, CreatedByClock, TheTrust, RequestFor, EventsFor;
    RequestIsOpen(H, LENIENT, keyed, CLOSES);
    EveryRunIsSound(Lenient(H, keyed), [Open(CLOSES)]);
    OpeningIsOrderly(CLOSES);
    TrustHolds();
    OrderlyStatuses(Lenient(H, keyed), [Open(CLOSES)], NOON, false);
    OneCreated(EntryFor(H, [], CreatedDraft(H, Request1(H))), RequestId(H, Request1(H)));
  }

  lemma OneCreated(e: LedgerEntry, id: string)
    requires e.eventType == CREATED
    ensures DecisionsIn(EventsFor([e], id)) == [] && LastStatus(EventsFor([e], id)) == Null
  {
    hide DecodeDecision, EventsFor, DecisionsIn, LastStatus;
    EventsForOneMore([], e, id);
    NoEvents(id);
    NoDecisions();
    assert [] + [e] == [e];
    DecisionsInAppend([], e);
    LastStatusAppends([], [e]);
    NoStatus();
  }

  lemma NoStatus()
    ensures LastStatus([]) == Null
  {
  }

  /** One more of Alice's answers, after `prior` and at the `k`-th minute. */
  lemma AfterAnswer(H: Hash, keyed: bool, prior: seq<Op>, ds: seq<Decision>, status: Json, verdict: string, k: nat, v: Verdict)
    requires 1 <= k < 59 && Orderly(C.ReadTime, prior, NOON)
    requires NotBefore(C.ReadTime, ClockAfter(C.ReadTime, prior, NOON), M(k))
    requires Stands(H, keyed, RunAll(Lenient(H, keyed), prior), ds, status)
    requires keyed ==> Protocol.KeyOf(Asks(H, LENIENT, CLOSES, verdict)) !in RunAll(Lenient(H, keyed), prior).keys
    requires StatusAt(Lenient(H, keyed).env, Request1(H), ds + [Asks(H, LENIENT, CLOSES, verdict)], NOON + k * MINUTE) == Some(v)
    ensures var d := Asks(H, LENIENT, CLOSES, verdict);
            var st := RunAll(Lenient(H, keyed), prior + [SubmitOp(EnvelopeOf(d), AllAt(k))]);
            && Stands(H, keyed, st, ds + [d], if v.Pending? then status else Str(StatusName(v)))
            && (forall key :: key in st.keys ==> key in RunAll(Lenient(H, keyed), prior).keys || key == Protocol.KeyOf(d))
  {
    hide RunAll, M, C.ReadTime, RequestId, LoadRequest, Sound, CreatedByClock, TheTrust, Opened, EventsFor, Screen, Orderly, ClockAfter;
    hide RecordDecision, Submit, DecodeDecision, EnvelopeOf, ContextDigest, StatusAt, WindowOpens, DecisionsIn, LastStatus, StatusName, NotBefore;
    hide Protocol.KeyOf;
    var s := Lenient(H, keyed);
    var d := Asks(H, LENIENT, CLOSES, verdict);
    var st := RunAll(s, prior);
    var op := SubmitOp(EnvelopeOf(d), AllAt(k));
    MinuteReads(k);
    TrustHolds();
    EnvelopeDecodes(d);
    AnswerPasses(H, false, keyed, st, verdict, k);
    WindowIsOpen(H, false, keyed);
    SubmitRecords(s, st, EnvelopeOf(d), d, Request1(H), AllAt(k));
    RecordOutcome(s, st, Request1(H), d, EnvelopeOf(d), AllAt(k));
    RunOne(s, prior, op);
    EveryRunIsSound(s, prior + [op]);
    AnswerIsOrderly(prior, EnvelopeOf(d), k);
    OrderlyStatuses(s, prior + [op], NOON, false);
  }

  lemma AnswerIsOrderly(prior: seq<Op>, envelope: Json, k: nat)
    requires k < 60 && Orderly(C.ReadTime, prior, NOON) && NotBefore(C.ReadTime, ClockAfter(C.ReadTime, prior, NOON), M(k))
    ensures Orderly(C.ReadTime, prior + [SubmitOp(envelope, AllAt(k))], NOON)
    ensures ClockAfter(C.ReadTime, prior + [SubmitOp(envelope, AllAt(k))], NOON) == Clock(C.ReadTime, M(k))
  {
    hide Orderly, ClockAfter, M, C.ReadTime;
    Later(k, k);
    OneMoreOrderly(prior, SubmitOp(envelope, AllAt(k)), NOON);
  }

  lemma ReversalIsOrderly(H: Hash)
    ensures Orderly(C.ReadTime, Reversal(H), NOON) && ClockAfter(C.ReadTime, Reversal(H), NOON) == Clock(C.ReadTime, LAST)
  {
    hide M, C.ReadTime, NotBefore, Orderly, ClockAfter, Clock, EnvelopeOf, Lenient, Asks;
    OpeningIsOrderly(CLOSES);
    Later(0, 2);
    AnswerIsOrderly([Open(CLOSES)], EnvelopeOf(First(H)), 2);
    Later(2, 3);
    AnswerIsOrderly([Open(CLOSES)] + [SubmitOp(EnvelopeOf(First(H)), SUBMITTED)], EnvelopeOf(Second(H)), 3);
  }

  lemma ReversalIsTrusted(H: Hash, keyed: bool)
    ensures TrustedKeys(Lenient(H, keyed).env.gate, Reversal(H))
  {
    hide M, EnvelopeOf, TrustedOp, Lenient, Asks;
    OthersAreTrusted(Lenient(H, keyed).env.gate, CLOSES, EnvelopeOf(First(H)), SUBMITTED);
    OthersAreTrusted(Lenient(H, keyed).env.gate, CLOSES, EnvelopeOf(Second(H)), AllAt(3));
  }

  /** Both answers are recorded, and the last recorded status is the approval. */
  lemma ReversalStands(H: Hash, keyed: bool)
    ensures Stands(H, keyed, RunAll(Lenient(H, keyed), Reversal(H)), [] + [First(H)] + [Second(H)], Str(StatusName(Approved)))
  {
    hide RunAll, M, C.ReadTime, Stands, Orderly, ClockAfter, NotBefore, StatusAt, EnvelopeOf, Asks, Lenient, Request1, StatusName, Protocol.KeyOf;
    var s := Lenient(H, keyed);
    AfterOpening(H, keyed);
    OpeningIsOrderly(CLOSES);
    ReversalStatuses(H, keyed, 2);
    ReversalStatuses(H, keyed, 3);
    KeysDiffer(H);
    assert [] + [First(H)] == [First(H)];
    Later(0, 2);
    AfterAnswer(H, keyed, [Open(CLOSES)], [], Null, APPROVE, 2, Approved);
    AnswerIsOrderly([Open(CLOSES)], EnvelopeOf(First(H)), 2);
    Later(2, 3);
    AfterAnswer(H, keyed, [Open(CLOSES)] + [SubmitOp(EnvelopeOf(First(H)), SUBMITTED)], [] + [First(H)], Str(StatusName(Approved)), REJECT, 3, Pending);
  }

  /** A run in which one approver changes a verdict: the clock does not go back, no key is untrusted,
      and `verify` reports a check that fails. */
  lemma ReversalAlarms(H: Hash, keyed: bool)
    ensures ReportsFailure(Lenient(H, keyed), Reversal(H), CHECKED)
  {
    hide RunAll, M, C.ReadTime, Verify, Orderly, TrustedKeys, WindowsOpen, TheTrust, Reversal, Asks, ClockAfter, AllOk, Stands, StatusAt;
    hide NoneReopened;
    var s, ops := Lenient(H, keyed), Reversal(H);
    ReversalIsOrderly(H);
    ReversalIsTrusted(H, keyed);
    ReversalStands(H, keyed);
    ReversalStatuses(H, keyed, 4);
    MinuteReads(4);
    Later(3, 4);
    TrustHolds();
    WholeLedger(RunAll(s, ops).log);
    ReversalWindows(H, keyed);
    ReversalReopened(H, keyed, RunAll(s, ops));
    VerifyOutcome(s, ops, NOON, None, 0, None, CHECKED);
  }

  predicate ReportsFailure(s: Service, ops: seq<Op>, now: string) {
    var report := Verify(s.env, RunAll(s, ops).log, None, 0, None, now);
    report.Some? && !AllOk(report.value.checks)
  }

  lemma ReversalReopened(H: Hash, keyed: bool, st: Stores)
    requires Stands(H, keyed, st, [] + [First(H)] + [Second(H)], Str(StatusName(Approved)))
    requires StatusAt(Lenient(H, keyed).env, Request1(H), [First(H)] + [Second(H)], Clock(C.ReadTime, CHECKED)) == Some(Pending)
    ensures !NoneReopened(Lenient(H, keyed).env, st.log, st.log, Clock(C.ReadTime, CHECKED))
  {
    hide M, C.ReadTime, StatusAt, Sound, CreatedByClock, Asks, Lenient, Request1, LoadRequest, EventsFor, DecisionsIn, LastStatus, Clock;
    hide RequestId, RequestFromJson;
    var id := RequestId(H, Request1(H));
    assert [] + [First(H)] + [Second(H)] == [First(H)] + [Second(H)];
    var e := LoadedFromEntry(st.log, id);
    assert Reopened(Lenient(H, keyed).env, st.log, id, Clock(C.ReadTime, CHECKED));
  }

  lemma ReversalWindows(H: Hash, keyed: bool)
    ensures WindowsOpen(Lenient(H, keyed).env, RunAll(Lenient(H, keyed), Reversal(H)).log)
  {
    hide RunAll, M, RequestJson, RequestFromJson, WindowOpens, EnvelopeOf, RequestFor, TheTrust, Asks;
    var s := Lenient(H, keyed);
    var r := Request1(H);
    WindowIsOpen(H, false, keyed);
    RequestRoundTrip(H, r);
    forall e | e in RunAll(s, Reversal(H)).log && e.eventType == CREATED
      ensures e.payload == RequestJson(H, r)
    {
      CreatedWasOpened(s, Reversal(H), e);
      assert forall op :: op in Reversal(H) ==> op == Open(CLOSES) || op.SubmitOp?;
    }
  }
}
