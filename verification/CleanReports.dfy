/** What a clean report of `verify` means, for every ledger, whoever wrote it. */
module CleanReports {
  import opened ByteStrings
  import opened JsonText
  import opened Canonical
  import opened Models
  import opened Datetime
  import opened Merkle
  import opened Chain
  import opened PolicyEngine
  import opened Verifier
  import opened Envelope
  import opened SignedCheckpoints
  import opened Ceremony
  import opened Reads
  import opened Records
  import opened Audit

  // ---------------------------------------------------- what is checked, entry by entry

  /** Position `i` is in the verified segment. */
  predicate Scanned(log: seq<LedgerEntry>, start: nat, limit: Option<nat>, i: int) {
    start <= i < |log| && (limit.Some? ==> i < start + limit.value)
  }

  /** The entry is numbered by its position, carries its own hash, and points to the hash before it;
      where the segment begins its pointer is taken as it is. */
  predicate EntryChained(H: Hash, log: seq<LedgerEntry>, start: nat, i: nat)
    requires i < |log|
  {
    && log[i].seqNo == i && log[i].entryHash == CoreHash(H, log[i])
    && (i > start ==> log[i].prevHash == log[i - 1].entryHash)
  }

  /** The entry holds a decision that decodes, names a request the ledger holds, is bound to exactly
      that request, and is authorized. */
  predicate DecisionHolds(env: Env, log: seq<LedgerEntry>, e: LedgerEntry) {
    && DecodeDecision(e.payload).Some?
    && var d := DecodeDecision(e.payload).value;
       && LoadRequest(log, d.requestId).Found?
       && d.contextDigest == ContextDigest(env.gate.H, LoadRequest(log, d.requestId).request)
       && MayDecide(env.gate, e.payload, d) == Some(true)
  }

  /** The last published checkpoint is at position `i`. */
  predicate LatestAt(log: seq<LedgerEntry>, i: nat) {
    i < |log| && log[i].eventType == "checkpoint.published" && forall j :: i < j < |log| ==> log[j].eventType != "checkpoint.published"
  }

  /** The payload is an accepted checkpoint whose root is the root of the leaves it covers. */
  predicate CheckpointHolds(env: Env, log: seq<LedgerEntry>, payload: Json) {
    && CheckpointFromJson(payload).Some?
    && var cp := CheckpointFromJson(payload).value;
       Accepts(env.gate.trust, cp) && MerkleRoot(env.gate.H, SliceTo(Leaves(log), cp.treeSize)) == cp.rootHash
  }

  /** The pinned checkpoint is accepted and extended by this ledger. */
  predicate PinHolds(env: Env, log: seq<LedgerEntry>, trusted: Option<Checkpoint>) {
    trusted.Some? ==>
      && Accepts(env.gate.trust, trusted.value)
      && VerifyConsistency(env.gate.H, trusted.value, SliceTo(Leaves(log), trusted.value.treeSize)).Extended?
  }

  /** The entry opens a request. */
  predicate Opens(e: LedgerEntry) {
    e.eventType == "request.created" && e.requestId.Some? && e.requestId.value != ""
  }

  /** The request's policy is missing, or is the one it pinned and its last recorded status is what
      evaluating its decisions now gives, unless none is recorded or the window has closed. */
  predicate StatusHolds(env: Env, log: seq<LedgerEntry>, id: string, now: string) {
    match LoadRequest(log, id)
    case NotFound => true
    case Malformed => false
    case Found(r) =>
      r.policyId !in env.policies
      || (&& PolicyDigest(env.gate.H, env.policies[r.policyId]) == r.policyDigest
          && DecisionsFor(env.gate, log, r).Some?
          && var answer := Evaluate(env.gate.H, env.gate.trust.parse, r, DecisionsFor(env.gate, log, r).value,
                                    env.policies[r.policyId], env.gate.identities, now);
             && answer.Some?
             && var recorded := LastStatus(EventsFor(log, id));
                recorded == Null || recorded == Str(StatusName(answer.value.status)) || answer.value.status.Expired?)
  }

  ghost predicate Holds(env: Env, log: seq<LedgerEntry>, trusted: Option<Checkpoint>, start: nat, limit: Option<nat>, now: string) {
    && (forall i: nat :: Scanned(log, start, limit, i) ==> EntryChained(env.gate.H, log, start, i))
    && (forall i: nat :: Scanned(log, start, limit, i) && log[i].eventType == "decision.recorded" ==> DecisionHolds(env, log, log[i]))
    && (forall i: nat :: LatestAt(log, i) ==> CheckpointHolds(env, log, log[i].payload))
    && PinHolds(env, log, trusted)
    && (forall i: nat :: Scanned(log, start, limit, i) && Opens(log[i]) ==> StatusHolds(env, log, log[i].requestId.value, now))
  }

  // ------------------------------------------------------------ part by part

  lemma ScanIs(log: seq<LedgerEntry>, start: nat, limit: Option<nat>)
    ensures var entries := ScanFrom(log, start, limit);
            && (forall k :: 0 <= k < |entries| ==> Scanned(log, start, limit, start + k) && entries[k] == log[start + k])
            && (forall i: nat :: Scanned(log, start, limit, i) ==> i - start < |entries| && entries[i - start] == log[i])
  {
    var stop := if limit.Some? && start + limit.value <= |log| then start + limit.value else |log|;
    var entries := ScanFrom(log, start, limit);
    assert |entries| == if start <= stop then stop - start else 0;
    forall i: nat | Scanned(log, start, limit, i)
      ensures i - start < |entries| && entries[i - start] == log[i]
    {
      assert start <= stop && i < stop;
      assert entries == log[start..stop];
    }
  }

  lemma ChainPart(H: Hash, log: seq<LedgerEntry>, start: nat, limit: Option<nat>)
    ensures Segment(H, ScanFrom(log, start, limit), start, PrevHashAt(log, start)).Intact?
       <==> forall i: nat :: Scanned(log, start, limit, i) ==> EntryChained(H, log, start, i)
  {
    hide CoreHash, Segment;
    var entries := ScanFrom(log, start, limit);
    ScanIs(log, start, limit);
    SegmentIsLinked(H, entries, start, PrevHashAt(log, start));
    forall k | 0 <= k < |entries|
      ensures LinkedAt(H, entries, k, start, PrevHashAt(log, start)) <==> EntryChained(H, log, start, start + k)
    {
    }
    if Linked(H, entries, start, PrevHashAt(log, start)) {
      forall i: nat | Scanned(log, start, limit, i)
        ensures EntryChained(H, log, start, i)
      {
        assert LinkedAt(H, entries, i - start, start, PrevHashAt(log, start));
      }
    } else {
      var k :| 0 <= k < |entries| && !LinkedAt(H, entries, k, start, PrevHashAt(log, start));
      var i := start + k;
      assert Scanned(log, start, limit, i) && !EntryChained(H, log, start, i);
    }
  }

  lemma {:induction false} DecodesExactly(entries: seq<LedgerEntry>)
    ensures Walk(entries).decodes <==> forall e :: e in entries && e.eventType == RECORDED ==> DecodeDecision(e.payload).Some?
  {
    hide DecodeDecision;
    if entries != [] {
      var init, last := entries[..|entries| - 1], entries[|entries| - 1];
      assert entries == init + [last];
      DecodesExactly(init);
    }
  }

  lemma DecisionsPart(env: Env, log: seq<LedgerEntry>, entries: seq<LedgerEntry>)
    ensures (Walk(entries).decodes && Clean(DecisionChecks(env, log, Walk(entries).decisions)))
       <==> forall e :: e in entries && e.eventType == RECORDED ==> DecisionHolds(env, log, e)
  {
    hide DecodeDecision, LoadRequest, ContextDigest, MayDecide, Walk, DecisionChecks, DecisionChecksOf, Clean;
    DecodesExactly(entries);
    if Walk(entries).decodes {
      WalkIds(entries);
      var decisions := Walk(entries).decisions;
      DecisionChecksClean(env, log, decisions);
      forall e | e in entries && e.eventType == RECORDED
        ensures Clean(DecisionChecksOf(env, log, e.payload, DecodeDecision(e.payload).value)) <==> DecisionHolds(env, log, e)
        ensures (e.payload, DecodeDecision(e.payload).value) in decisions
      {
        CleanDecision(env, log, e.payload, DecodeDecision(e.payload).value);
        var i :| 0 <= i < |entries| && entries[i] == e;
        WalkGathers(entries, i);
      }
      EachChecked(env, log, entries, decisions);
    }
  }

  lemma EachChecked(env: Env, log: seq<LedgerEntry>, entries: seq<LedgerEntry>, decisions: seq<(Json, Decision)>)
    requires forall e :: e in entries && e.eventType == RECORDED ==> DecodeDecision(e.payload).Some?
    requires forall e :: e in entries && e.eventType == RECORDED ==>
               && (Clean(DecisionChecksOf(env, log, e.payload, DecodeDecision(e.payload).value)) <==> DecisionHolds(env, log, e))
               && (e.payload, DecodeDecision(e.payload).value) in decisions
    requires forall p :: p in decisions ==>
               exists e :: e in entries && e.eventType == RECORDED && e.payload == p.0 && DecodeDecision(p.0) == Some(p.1)
    ensures (forall i :: 0 <= i < |decisions| ==> Clean(DecisionChecksOf(env, log, decisions[i].0, decisions[i].1)))
       <==> forall e :: e in entries && e.eventType == RECORDED ==> DecisionHolds(env, log, e)
  {
    hide DecodeDecision, DecisionHolds, DecisionChecksOf, Clean;
    if forall e :: e in entries && e.eventType == RECORDED ==> DecisionHolds(env, log, e) {
      forall i | 0 <= i < |decisions|
        ensures Clean(DecisionChecksOf(env, log, decisions[i].0, decisions[i].1))
      {
        assert decisions[i] in decisions;
      }
    } else {
      var e :| e in entries && e.eventType == RECORDED && !DecisionHolds(env, log, e);
      var i :| 0 <= i < |decisions| && decisions[i] == (e.payload, DecodeDecision(e.payload).value);
      assert !Clean(DecisionChecksOf(env, log, decisions[i].0, decisions[i].1));
    }
  }

  lemma {:induction false} LatestExactly(log: seq<LedgerEntry>)
    ensures (forall i: nat :: !LatestAt(log, i)) ==> LatestCheckpoint(log) == Some(None)
    ensures forall i: nat :: LatestAt(log, i) ==>
              LatestCheckpoint(log) == if CheckpointFromJson(log[i].payload).Some? then Some(CheckpointFromJson(log[i].payload)) else None
  {
    hide CheckpointFromJson;
    if log != [] {
      var n := |log| - 1;
      var init := log[..n];
      if log[n].eventType == PUBLISHED {
        assert LatestAt(log, n);
      } else {
        LatestExactly(init);
        forall i: nat
          ensures LatestAt(log, i) <==> LatestAt(init, i)
        {
          assert i < n ==> forall j :: i < j < n ==> init[j] == log[j];
        }
      }
    }
  }

  lemma PublishedPart(env: Env, log: seq<LedgerEntry>)
    ensures Clean(PublishedChecks(env, log)) <==> forall i: nat :: LatestAt(log, i) ==> CheckpointHolds(env, log, log[i].payload)
  {
    hide LatestCheckpoint, CheckpointFromJson, Accepts, MerkleRoot, Leaves;
    LatestExactly(log);
    if i: nat :| LatestAt(log, i) {
      OnlyLatest(log, i);
      if CheckpointFromJson(log[i].payload).Some? {
        var checks := PublishedChecks(env, log).value;
        assert checks[0] in checks && checks[1] in checks;
      }
    }
  }

  lemma OnlyLatest(log: seq<LedgerEntry>, i: nat)
    requires LatestAt(log, i)
    ensures forall j: nat :: LatestAt(log, j) ==> j == i
  {
  }

  lemma PinPart(env: Env, log: seq<LedgerEntry>, trusted: Option<Checkpoint>)
    ensures AllOk(TrustedChecks(env, log, trusted)) <==> PinHolds(env, log, trusted)
  {
    hide Accepts, VerifyConsistency, Leaves;
    if trusted.Some? {
      assert TrustedChecks(env, log, trusted)[0] in TrustedChecks(env, log, trusted);
    }
  }

  lemma CleanStatus(env: Env, log: seq<LedgerEntry>, id: string, now: string)
    ensures Clean(StatusChecksOf(env, log, id, now)) <==> StatusHolds(env, log, id, now)
  {
    hide LoadRequest, PolicyDigest, DecisionsFor, Evaluate, LastStatus, EventsFor, StatusName;
    var checks := StatusChecksOf(env, log, id, now);
    if checks.Some? && checks.value != [] {
      assert checks.value[0] in checks.value;
    }
  }

  lemma StatusesPart(env: Env, log: seq<LedgerEntry>, entries: seq<LedgerEntry>, now: string)
    requires forall e :: e in entries && e.eventType == RECORDED ==> DecodeDecision(e.payload).Some?
    ensures Clean(StatusChecks(env, log, Walk(entries).requestIds, now))
       <==> forall e :: e in entries && e.eventType == CREATED && e.requestId.Some? && e.requestId.value != "" ==>
              StatusHolds(env, log, e.requestId.value, now)
  {
    hide DecodeDecision, Walk, StatusChecks, StatusChecksOf, StatusHolds, Clean;
    WalkIds(entries);
    var ids := Walk(entries).requestIds;
    StatusChecksClean(env, log, ids, now);
    forall id
      ensures Clean(StatusChecksOf(env, log, id, now)) <==> StatusHolds(env, log, id, now)
    {
      CleanStatus(env, log, id, now);
    }
    if forall e :: e in entries && e.eventType == CREATED && e.requestId.Some? && e.requestId.value != "" ==>
         StatusHolds(env, log, e.requestId.value, now)
    {
      forall i | 0 <= i < |ids|
        ensures Clean(StatusChecksOf(env, log, ids[i], now))
      {
        assert ids[i] in ids;
      }
    } else {
      var e :| e in entries && e.eventType == CREATED && e.requestId.Some? && e.requestId.value != ""
               && !StatusHolds(env, log, e.requestId.value, now);
      var i :| 0 <= i < |ids| && ids[i] == e.requestId.value;
      assert !Clean(StatusChecksOf(env, log, ids[i], now));
    }
  }

  // ------------------------------------------------------------- the whole report

  ghost predicate InSegment(log: seq<LedgerEntry>, start: nat, limit: Option<nat>, e: LedgerEntry) {
    exists i: nat :: Scanned(log, start, limit, i) && log[i] == e
  }

  lemma OverSegment(log: seq<LedgerEntry>, start: nat, limit: Option<nat>, e: LedgerEntry)
    ensures e in ScanFrom(log, start, limit) <==> InSegment(log, start, limit, e)
  {
    var entries := ScanFrom(log, start, limit);
    ScanIs(log, start, limit);
    if i: nat :| Scanned(log, start, limit, i) && log[i] == e {
      assert entries[i - start] == e;
    }
    if e in entries {
      var k :| 0 <= k < |entries| && entries[k] == e;
      var i := start + k;
      assert Scanned(log, start, limit, i) && log[i] == e;
    }
  }

  /** Every check of a report is ok exactly when, in the segment, the chain holds, every recorded
      decision holds and every request's status holds; the latest published checkpoint of the ledger
      holds; and the pinned checkpoint holds. Nothing is assumed of the ledger. */
  lemma CleanExactly(env: Env, log: seq<LedgerEntry>, trusted: Option<Checkpoint>, start: nat, limit: Option<nat>, now: string)
    ensures var report := Verify(env, log, trusted, start, limit, now);
            (report.Some? && AllOk(report.value.checks)) <==> Holds(env, log, trusted, start, limit, now)
  {
    hide Verify, AllOk, Walk, Segment, PublishedChecks, TrustedChecks, DecisionChecks, StatusChecks, ScanFrom, Clean, Scanned, InSegment;
    hide EntryChained, DecisionHolds, StatusHolds, CheckpointHolds, PinHolds, DecodeDecision, LatestAt;
    var entries := ScanFrom(log, start, limit);
    ReportClean(env, log, trusted, start, limit, now);
    ChainPart(env.gate.H, log, start, limit);
    DecisionsPart(env, log, entries);
    PublishedPart(env, log);
    PinPart(env, log, trusted);
    forall e
      ensures e in entries <==> InSegment(log, start, limit, e)
    {
      OverSegment(log, start, limit, e);
    }
    forall e
      ensures DecisionHolds(env, log, e) ==> DecodeDecision(e.payload).Some?
    {
      HeldDecodes(env, log, e);
    }
    if forall e :: e in entries && e.eventType == RECORDED ==> DecisionHolds(env, log, e) {
      StatusesPart(env, log, entries, now);
    }
    EntriesInSegment(env, log, entries, start, limit, now);
  }

  lemma HeldDecodes(env: Env, log: seq<LedgerEntry>, e: LedgerEntry)
    ensures DecisionHolds(env, log, e) ==> DecodeDecision(e.payload).Some?
  {
    hide DecodeDecision, LoadRequest, ContextDigest, MayDecide;
  }

  lemma EntriesInSegment(env: Env, log: seq<LedgerEntry>, entries: seq<LedgerEntry>, start: nat, limit: Option<nat>, now: string)
    requires forall e :: e in entries <==> InSegment(log, start, limit, e)
    ensures (forall e :: e in entries && e.eventType == RECORDED ==> DecisionHolds(env, log, e))
       <==> (forall i: nat :: Scanned(log, start, limit, i) && log[i].eventType == "decision.recorded" ==> DecisionHolds(env, log, log[i]))
    ensures (forall e :: e in entries && e.eventType == CREATED && e.requestId.Some? && e.requestId.value != "" ==>
               StatusHolds(env, log, e.requestId.value, now))
       <==> (forall i: nat :: Scanned(log, start, limit, i) && Opens(log[i]) ==> StatusHolds(env, log, log[i].requestId.value, now))
  {
    hide DecisionHolds, StatusHolds;
    forall i: nat | Scanned(log, start, limit, i)
      ensures log[i] in entries
    {
      assert InSegment(log, start, limit, log[i]);
    }
  }

  /** What a clean report from the first entry on means: the chain is linked, and linked from genesis
      exactly when its first entry points there, which `verify` takes on trust; every recorded
      decision holds; the latest published checkpoint is accepted, and its root is the root of the
      leaves it covers; and every request opened under a policy that is at hand is opened under the
      policy it pinned, and its last recorded status is the present one, or the window has closed. */
  lemma CleanReportMeans(env: Env, log: seq<LedgerEntry>, trusted: Option<Checkpoint>, now: string, i: nat)
    requires var report := Verify(env, log, trusted, 0, None, now); report.Some? && AllOk(report.value.checks)
    requires i < |log|
    ensures Linked(env.gate.H, log, 0, log[0].prevHash)
    ensures Linked(env.gate.H, log, 0, ZERO_HASH) <==> log[0].prevHash == ZERO_HASH
    ensures log[i].eventType == "decision.recorded" ==> DecisionHolds(env, log, log[i])
    ensures LatestAt(log, i) ==> CheckpointHolds(env, log, log[i].payload)
    ensures Opens(log[i]) ==> StatusHolds(env, log, log[i].requestId.value, now)
  {
    hide Verify, AllOk, DecisionHolds, CheckpointHolds, StatusHolds, PinHolds, EntryChained, LatestAt, Linked;
    CleanExactly(env, log, trusted, 0, None, now);
    assert Scanned(log, 0, None, i);
    ChainedIsLinked(env.gate.H, log);
    LinkedStart(env.gate.H, log);
  }

  lemma ChainedIsLinked(H: Hash, log: seq<LedgerEntry>)
    requires log != [] && forall i: nat :: Scanned(log, 0, None, i) ==> EntryChained(H, log, 0, i)
    ensures Linked(H, log, 0, log[0].prevHash)
  {
    hide CoreHash;
    forall i | 0 <= i < |log|
      ensures LinkedAt(H, log, i, 0, log[0].prevHash)
    {
      assert Scanned(log, 0, None, i);
    }
  }

  // --------------------------------------------------------------- forks and rewrites

  /** Two ledgers whose first entries have one root, where the first may be too short: where equal
      hashes come from different bytes. */
  function RootedClash(H: Hash, here: seq<LedgerEntry>, there: seq<LedgerEntry>, n: nat): Pair
    requires n <= |there|
  {
    if n <= |here| then ForkClash(H, here[..n], there[..n]) else RootClash(H, Leaves(here), Leaves(there[..n]))
  }

  lemma RootsBindPrefixes(H: Hash, here: seq<LedgerEntry>, there: seq<LedgerEntry>, n: nat, before: string)
    requires Linked(H, here, 0, before) && Linked(H, there, 0, ZERO_HASH) && n <= |there| && n <= |here|
    requires MerkleRoot(H, Leaves(here[..n])) == MerkleRoot(H, Leaves(there[..n]))
    ensures here[..n] == there[..n] || Collides(H, ForkClash(H, here[..n], there[..n]))
  {
    hide MerkleRoot, Collides, RootClash, ForkClash, Leaves, Linked;
    MerkleRootBindsLeaves(H, Leaves(here[..n]), Leaves(there[..n]));
    if Leaves(here[..n]) == Leaves(there[..n]) {
      SameLeavesBind(H, here, there, n, before, ZERO_HASH);
    } else {
      ClashOfLeaves(H, here[..n], there[..n]);
    }
  }

  lemma RootsBindEntries(H: Hash, here: seq<LedgerEntry>, there: seq<LedgerEntry>, n: nat, before: string)
    requires Linked(H, here, 0, before) && Segment(H, there, 0, ZERO_HASH).Intact? && n <= |there|
    requires MerkleRoot(H, SliceTo(Leaves(here), n)) == MerkleRoot(H, Leaves(there[..n]))
    ensures (n <= |here| && here[..n] == there[..n]) || Collides(H, RootedClash(H, here, there, n))
  {
    hide MerkleRoot, Collides, RootClash, ForkClash, Segment, Leaves, Linked, SliceTo;
    PrefixOrAll(Leaves(here), n);
    if n <= |here| {
      LeavesOfPrefix(here, n);
      SegmentIsLinked(H, there, 0, ZERO_HASH);
      RootsBindPrefixes(H, here, there, n, before);
    } else {
      TooShort(H, Leaves(here), Leaves(there[..n]));
    }
  }

  lemma PrefixOrAll(leaves: seq<string>, n: nat)
    ensures SliceTo(leaves, n) == if n <= |leaves| then leaves[..n] else leaves
  {
  }

  lemma TooShort(H: Hash, a: seq<string>, b: seq<string>)
    requires MerkleRoot(H, a) == MerkleRoot(H, b) && |a| != |b|
    ensures Collides(H, RootClash(H, a, b))
  {
    hide MerkleRoot, Collides, RootClash;
    MerkleRootBindsLeaves(H, a, b);
  }

  lemma ClashOfLeaves(H: Hash, a: seq<LedgerEntry>, b: seq<LedgerEntry>)
    requires |a| == |b| && Leaves(a) != Leaves(b)
    ensures ForkClash(H, a, b) == RootClash(H, Leaves(a), Leaves(b))
  {
    hide RootClash, Leaves;
  }

  lemma CleanIsLinked(env: Env, log: seq<LedgerEntry>, trusted: Option<Checkpoint>, now: string)
    requires Holds(env, log, trusted, 0, None, now)
    ensures Linked(env.gate.H, log, 0, if log == [] then ZERO_HASH else log[0].prevHash)
  {
    hide DecisionHolds, CheckpointHolds, StatusHolds, PinHolds, EntryChained, LatestAt, Linked;
    if log != [] {
      ChainedIsLinked(env.gate.H, log);
    } else {
      EmptyIsLinked(env.gate.H);
    }
  }

  lemma EmptyIsLinked(H: Hash)
    ensures Linked(H, [], 0, ZERO_HASH)
  {
  }

  /** History cannot be rewritten behind a published checkpoint. When a report is clean and the latest
      checkpoint on this ledger was built over another verified ledger, every entry it covers is here,
      field by field, or two texts with one hash have been found. */
  lemma PublishedDetectsRewrites(env: Env, here: seq<LedgerEntry>, there: seq<LedgerEntry>, trusted: Option<Checkpoint>, now: string,
                                 i: nat)
    requires var report := Verify(env, here, trusted, 0, None, now); report.Some? && AllOk(report.value.checks)
    requires LatestAt(here, i) && CheckpointFromJson(here[i].payload).Some?
    requires CommitsTo(env.gate.H, CheckpointFromJson(here[i].payload).value, there)
    requires Segment(env.gate.H, there, 0, ZERO_HASH).Intact?
    ensures var cp := CheckpointFromJson(here[i].payload).value;
            && Accepts(env.gate.trust, cp)
            && ((cp.treeSize <= |here| && here[..cp.treeSize] == there[..cp.treeSize])
                || Collides(env.gate.H, RootedClash(env.gate.H, here, there, cp.treeSize)))
  {
    hide Verify, AllOk, DecisionHolds, StatusHolds, PinHolds, EntryChained, Linked, MerkleRoot, Segment, Leaves, Accepts, Collides;
    hide CheckpointFromJson, RootedClash;
    CleanExactly(env, here, trusted, 0, None, now);
    CleanIsLinked(env, here, trusted, now);
    var cp := CheckpointFromJson(here[i].payload).value;
    assert CheckpointHolds(env, here, here[i].payload);
    RootsBindEntries(env.gate.H, here, there, cp.treeSize, if here == [] then ZERO_HASH else here[0].prevHash);
  }

  /** A clean report against a checkpoint pinned elsewhere: it is accepted, and the entries it covers
      are here, field by field, or two texts with one hash have been found. */
  lemma CleanReportDetectsForks(env: Env, here: seq<LedgerEntry>, there: seq<LedgerEntry>, cp: Checkpoint, now: string)
    requires var report := Verify(env, here, Some(cp), 0, None, now); report.Some? && AllOk(report.value.checks)
    requires CommitsTo(env.gate.H, cp, there) && Segment(env.gate.H, there, 0, ZERO_HASH).Intact?
    ensures Accepts(env.gate.trust, cp) && cp.treeSize <= |here|
    ensures here[..cp.treeSize] == there[..cp.treeSize]
         || Collides(env.gate.H, ForkClash(env.gate.H, here[..cp.treeSize], there[..cp.treeSize]))
  {
    hide Verify, AllOk, DecisionHolds, CheckpointHolds, StatusHolds, EntryChained, Linked, LatestAt, Segment, Accepts, MerkleRoot;
    hide ForkClash, Collides, Leaves;
    CleanExactly(env, here, Some(cp), 0, None, now);
    CleanIsLinked(env, here, Some(cp), now);
    PrefixSuffices(env.gate.H, cp, Leaves(here));
    var before := if here == [] then ZERO_HASH else here[0].prevHash;
    SegmentIsLinked(env.gate.H, here, 0, before);
    ForksAreDetected(env.gate.H, here, there, cp, before, ZERO_HASH);
  }

  /** The report names the positions it is about: from where it was asked to start, up to the last
      entry of the segment when the chain holds, and nowhere beyond the start otherwise. */
  lemma ReportNames(env: Env, log: seq<LedgerEntry>, trusted: Option<Checkpoint>, start: nat, limit: Option<nat>, now: string)
    requires Verify(env, log, trusted, start, limit, now).Some?
    ensures var report := Verify(env, log, trusted, start, limit, now).value;
            && report.fromSeq == start
            && report.toSeq >= start
            && (report.toSeq > start ==> Scanned(log, start, limit, report.toSeq))
            && (AllOk(report.checks) ==> forall i: nat :: Scanned(log, start, limit, i) ==> i <= report.toSeq)
  {
    hide Walk, Segment, PublishedChecks, TrustedChecks, DecisionChecks, StatusChecks, AllOk;
    var entries := ScanFrom(log, start, limit);
    ScanIs(log, start, limit);
    SegmentIsLinked(env.gate.H, entries, start, PrevHashAt(log, start));
    ReportClean(env, log, trusted, start, limit, now);
  }

  /** What `verify` should report: clean exactly when everything holds, over the positions it names. */
  ghost predicate ReportTold(env: Env, log: seq<LedgerEntry>, trusted: Option<Checkpoint>, start: nat, limit: Option<nat>, now: string,
                             report: Option<Report>)
  {
    && ((report.Some? && AllOk(report.value.checks)) <==> Holds(env, log, trusted, start, limit, now))
    && (report.Some? ==>
         && report.value.fromSeq == start && report.value.toSeq >= start
         && (report.value.toSeq > start ==> Scanned(log, start, limit, report.value.toSeq))
         && (AllOk(report.value.checks) ==> forall i: nat :: Scanned(log, start, limit, i) ==> i <= report.value.toSeq))
  }

  lemma ReportIsTold(env: Env, log: seq<LedgerEntry>, trusted: Option<Checkpoint>, start: nat, limit: Option<nat>, now: string)
    ensures ReportTold(env, log, trusted, start, limit, now, Verify(env, log, trusted, start, limit, now))
  {
    hide Verify, AllOk, Holds, Scanned;
    CleanExactly(env, log, trusted, start, limit, now);
    if Verify(env, log, trusted, start, limit, now).Some? {
      ReportNames(env, log, trusted, start, limit, now);
    }
  }
}
