/** What a report of `verify` finds wrong, and when there is an exception instead of a report, for every
    ledger, whoever wrote it. */
module Findings {
  import opened ByteStrings
  import opened JsonText
  import opened Canonical
  import opened Models
  import opened Merkle
  import opened Chain
  import opened Verifier
  import opened Envelope
  import opened SignedCheckpoints
  import opened Ceremony
  import opened Reads
  import opened Records
  import opened Audit
  import opened CleanReports

  // --------------------------------------------------------------- what is gathered

  /** The walk gets past this position: it is in the segment, and every decision up to it decodes. */
  ghost predicate Gathered(log: seq<LedgerEntry>, start: nat, limit: Option<nat>, i: int) {
    && Scanned(log, start, limit, i)
    && forall j :: start <= j <= i && log[j].eventType == "decision.recorded" ==> DecodeDecision(log[j].payload).Some?
  }

  ghost predicate DecisionAt(log: seq<LedgerEntry>, start: nat, limit: Option<nat>, i: int, envelope: Json, d: Decision) {
    Gathered(log, start, limit, i) && log[i].eventType == "decision.recorded" && log[i].payload == envelope
    && DecodeDecision(envelope) == Some(d)
  }

  ghost predicate OpeningAt(log: seq<LedgerEntry>, start: nat, limit: Option<nat>, i: int, id: string) {
    Gathered(log, start, limit, i) && Opens(log[i]) && log[i].requestId == Some(id)
  }

  /** The walk over the entries alone gets past this one. */
  ghost predicate Got(entries: seq<LedgerEntry>, i: int) {
    0 <= i < |entries| && forall j :: 0 <= j <= i && entries[j].eventType == RECORDED ==> DecodeDecision(entries[j].payload).Some?
  }

  ghost predicate GotDecision(entries: seq<LedgerEntry>, i: int, p: (Json, Decision)) {
    Got(entries, i) && entries[i].eventType == RECORDED && entries[i].payload == p.0 && DecodeDecision(p.0) == Some(p.1)
  }

  ghost predicate GotOpening(entries: seq<LedgerEntry>, i: int, id: string) {
    Got(entries, i) && entries[i].eventType == CREATED && entries[i].requestId == Some(id) && id != ""
  }

  ghost predicate WalkIs(entries: seq<LedgerEntry>) {
    var w := Walk(entries);
    && (w.decodes <==> forall i :: 0 <= i < |entries| ==> Got(entries, i))
    && (forall p :: p in w.decisions <==> exists i :: GotDecision(entries, i, p))
    && forall id :: id in w.requestIds <==> exists i :: GotOpening(entries, i, id)
  }

  lemma GotEarlier(entries: seq<LedgerEntry>, i: int)
    requires entries != []
    ensures var init := entries[..|entries| - 1];
            if i < |init| then Got(entries, i) <==> Got(init, i)
            else Got(entries, i) <==>
                 && i == |init| && (forall j :: 0 <= j < |init| ==> Got(init, j))
                 && (entries[i].eventType == RECORDED ==> DecodeDecision(entries[i].payload).Some?)
  {
    hide DecodeDecision;
    var init := entries[..|entries| - 1];
    if i == |init| && forall j :: 0 <= j < |init| ==> Got(init, j) {
      assert forall j :: 0 <= j < |init| && init[j].eventType == RECORDED ==> Got(init, j) && DecodeDecision(init[j].payload).Some?;
    }
  }

  lemma {:induction false} WalkExactly(entries: seq<LedgerEntry>)
    ensures WalkIs(entries)
  {
    hide WalkIs;
    if entries == [] {
      NothingWalked();
    } else {
      WalkExactly(entries[..|entries| - 1]);
      WalkStep(entries);
    }
  }

  lemma NothingWalked()
    ensures WalkIs([])
  {
  }

  lemma GotInRange(entries: seq<LedgerEntry>, i: int)
    ensures Got(entries, i) ==> 0 <= i < |entries|
  {
  }

  /** One more entry to walk. */
  lemma WalkStep(entries: seq<LedgerEntry>)
    requires entries != [] && WalkIs(entries[..|entries| - 1])
    ensures WalkIs(entries)
  {
    hide DecodeDecision, Got;
    var n := |entries| - 1;
    var init, last := entries[..n], entries[n];
    forall i
      ensures Got(init, i) ==> 0 <= i < n
      ensures i < n ==> (Got(entries, i) <==> Got(init, i))
      ensures i >= n ==> (Got(entries, i) <==> (i == n && Walk(init).decodes && (last.eventType == RECORDED ==> DecodeDecision(last.payload).Some?)))
    {
      GotEarlier(entries, i);
      GotInRange(init, i);
    }
    var before, w := Walk(init), Walk(entries);
    forall p
      ensures p in w.decisions <==> exists i :: GotDecision(entries, i, p)
    {
      assert forall i :: i < n ==> (GotDecision(entries, i, p) <==> GotDecision(init, i, p));
      assert p in w.decisions <==> p in before.decisions || GotDecision(entries, n, p);
    }
    forall id
      ensures id in w.requestIds <==> exists i :: GotOpening(entries, i, id)
    {
      assert forall i :: i < n ==> (GotOpening(entries, i, id) <==> GotOpening(init, i, id));
      assert id in w.requestIds <==> id in before.requestIds || GotOpening(entries, n, id);
    }
    assert w.decodes <==> before.decodes && Got(entries, n);
  }

  // ------------------------------------------------------------- the causes of findings

  /** Some check on this topic has failed. */
  predicate Finds(checks: seq<Check>, topic: Topic) {
    Check(false, topic) in checks
  }

  /** What is wrong with a recorded decision. */
  predicate DecisionFails(env: Env, log: seq<LedgerEntry>, envelope: Json, d: Decision, topic: Topic) {
    match topic
    case RequestKnown => LoadRequest(log, d.requestId).NotFound?
    case DecisionBound =>
      LoadRequest(log, d.requestId).Found?
      && d.contextDigest != ContextDigest(env.gate.H, LoadRequest(log, d.requestId).request)
    case DecisionSigned => LoadRequest(log, d.requestId).Found? && MayDecide(env.gate, envelope, d) == Some(false)
    case _ => false
  }

  /** Whether a decision can be checked at all. */
  predicate DecisionReads(env: Env, log: seq<LedgerEntry>, envelope: Json, d: Decision) {
    && !LoadRequest(log, d.requestId).Malformed?
    && (LoadRequest(log, d.requestId).Found? ==> MayDecide(env.gate, envelope, d).Some?)
  }

  /** What is wrong with the status of a request. */
  predicate StatusFails(env: Env, log: seq<LedgerEntry>, id: string, now: string, topic: Topic) {
    LoadRequest(log, id).Found?
    && var r := LoadRequest(log, id).request;
       match topic
       case PolicyPinned => r.policyId in env.policies && PolicyDigest(env.gate.H, env.policies[r.policyId]) != r.policyDigest
       case StatusReproduced =>
         var derived := Recompute(env, log, r, now);
         && derived.Derived? && !derived.record.result.status.Expired?
         && LastStatus(EventsFor(log, id)) != Null
         && LastStatus(EventsFor(log, id)) != Str(StatusName(derived.record.result.status))
       case _ => false
  }

  /** Whether a status can be checked at all. */
  predicate StatusReads(env: Env, log: seq<LedgerEntry>, id: string, now: string) {
    && !LoadRequest(log, id).Malformed?
    && (LoadRequest(log, id).Found? ==> !Recompute(env, log, LoadRequest(log, id).request, now).Raised?)
  }

  lemma OneDecision(env: Env, log: seq<LedgerEntry>, envelope: Json, d: Decision)
    ensures var checks := DecisionChecksOf(env, log, envelope, d);
            && (checks.Some? <==> DecisionReads(env, log, envelope, d))
            && (checks.Some? ==> forall topic :: Finds(checks.value, topic) <==> DecisionFails(env, log, envelope, d, topic))
  {
    hide LoadRequest, MayDecide, ContextDigest;
    var checks := DecisionChecksOf(env, log, envelope, d);
    if checks.Some? && LoadRequest(log, d.requestId).Found? {
      assert checks.value[0] in checks.value && checks.value[1] in checks.value;
    } else if checks.Some? {
      assert checks.value[0] in checks.value;
    }
  }

  lemma OneStatus(env: Env, log: seq<LedgerEntry>, id: string, now: string)
    ensures var checks := StatusChecksOf(env, log, id, now);
            && (checks.Some? <==> StatusReads(env, log, id, now))
            && (checks.Some? ==> forall topic :: Finds(checks.value, topic) <==> StatusFails(env, log, id, now, topic))
  {
    hide LoadRequest, Recompute, LastStatus, EventsFor, StatusName, PolicyDigest;
    var checks := StatusChecksOf(env, log, id, now);
    if LoadRequest(log, id).Found? {
      DerivedOrNot(env, log, LoadRequest(log, id).request, now);
    }
    if checks.Some? && checks.value != [] {
      assert checks.value[0] in checks.value;
    }
  }

  lemma DerivedOrNot(env: Env, log: seq<LedgerEntry>, r: Request, now: string)
    ensures Recompute(env, log, r, now).PolicyChanged?
       <==> r.policyId in env.policies && PolicyDigest(env.gate.H, env.policies[r.policyId]) != r.policyDigest
  {
    hide DecisionsFor, PolicyDigest;
  }

  lemma FindsConcat(a: seq<Check>, b: seq<Check>, topic: Topic)
    ensures Finds(a + b, topic) <==> Finds(a, topic) || Finds(b, topic)
  {
  }

  lemma {:induction false} AllDecisions(env: Env, log: seq<LedgerEntry>, ps: seq<(Json, Decision)>, topic: Topic)
    ensures var checks := DecisionChecks(env, log, ps);
            && (checks.Some? <==> forall p :: p in ps ==> DecisionReads(env, log, p.0, p.1))
            && (checks.Some? ==> (Finds(checks.value, topic) <==> exists p :: p in ps && DecisionFails(env, log, p.0, p.1, topic)))
  {
    hide DecisionChecksOf, DecisionReads, DecisionFails, Finds;
    if ps == [] {
      NothingFound(topic);
    } else {
      var init, last := ps[..|ps| - 1], ps[|ps| - 1];
      assert ps == init + [last];
      AllDecisions(env, log, init, topic);
      OneDecision(env, log, last.0, last.1);
      if DecisionChecks(env, log, init).Some? && DecisionChecksOf(env, log, last.0, last.1).Some? {
        FindsConcat(DecisionChecks(env, log, init).value, DecisionChecksOf(env, log, last.0, last.1).value, topic);
      }
    }
  }

  lemma NothingFound(topic: Topic)
    ensures !Finds([], topic)
  {
  }

  lemma {:induction false} AllStatuses(env: Env, log: seq<LedgerEntry>, ids: seq<string>, now: string, topic: Topic)
    ensures var checks := StatusChecks(env, log, ids, now);
            && (checks.Some? <==> forall id :: id in ids ==> StatusReads(env, log, id, now))
            && (checks.Some? ==> (Finds(checks.value, topic) <==> exists id :: id in ids && StatusFails(env, log, id, now, topic)))
  {
    hide StatusChecksOf, StatusReads, StatusFails, Finds;
    if ids == [] {
      NothingFound(topic);
    } else {
      var init, last := ids[..|ids| - 1], ids[|ids| - 1];
      assert ids == init + [last];
      AllStatuses(env, log, init, now, topic);
      OneStatus(env, log, last, now);
      if StatusChecks(env, log, init, now).Some? && StatusChecksOf(env, log, last, now).Some? {
        FindsConcat(StatusChecks(env, log, init, now).value, StatusChecksOf(env, log, last, now).value, topic);
      }
    }
  }

  // ------------------------------------------------------------------ the whole report

  /** The segment's chain does not hold at this position, or its decision does not decode. */
  predicate Breaks(H: Hash, log: seq<LedgerEntry>, start: nat, i: nat)
    requires i < |log|
  {
    !EntryChained(H, log, start, i) || (log[i].eventType == "decision.recorded" && DecodeDecision(log[i].payload).None?)
  }

  /** The latest published checkpoint is this one. */
  ghost predicate Latest(log: seq<LedgerEntry>, cp: Checkpoint) {
    exists i: nat :: LatestAt(log, i) && CheckpointFromJson(log[i].payload) == Some(cp)
  }

  /** Why a check on the topic fails. */
  ghost predicate Cause(env: Env, log: seq<LedgerEntry>, trusted: Option<Checkpoint>, start: nat, limit: Option<nat>, now: string,
                        topic: Topic)
  {
    match topic
    case ChainIntact => exists i: nat :: Scanned(log, start, limit, i) && Breaks(env.gate.H, log, start, i)
    case CheckpointSigned => exists cp :: Latest(log, cp) && !Accepts(env.gate.trust, cp)
    case RootReproduced => exists cp :: Latest(log, cp) && MerkleRoot(env.gate.H, SliceTo(Leaves(log), cp.treeSize)) != cp.rootHash
    case TrustedExtended => !PinHolds(env, log, trusted)
    case PolicyPinned => exists i, id :: OpeningAt(log, start, limit, i, id) && StatusFails(env, log, id, now, topic)
    case StatusReproduced => exists i, id :: OpeningAt(log, start, limit, i, id) && StatusFails(env, log, id, now, topic)
    case PolicyAvailable => false
    case _ => exists i, envelope, d :: DecisionAt(log, start, limit, i, envelope, d) && DecisionFails(env, log, envelope, d, topic)
  }

  /** Whether there is a report: the latest checkpoint reads, every decision gathered can be checked, and
      so can the status of every request gathered. */
  ghost predicate Reports(env: Env, log: seq<LedgerEntry>, start: nat, limit: Option<nat>, now: string) {
    && (forall i: nat :: LatestAt(log, i) ==> CheckpointFromJson(log[i].payload).Some?)
    && (forall i, envelope, d :: DecisionAt(log, start, limit, i, envelope, d) ==> DecisionReads(env, log, envelope, d))
    && (forall i, id :: OpeningAt(log, start, limit, i, id) ==> StatusReads(env, log, id, now))
  }

  /** Where the walk over a segment stands is where it stands in the ledger. */
  lemma GotIsGathered(log: seq<LedgerEntry>, start: nat, limit: Option<nat>, i: int)
    ensures Gathered(log, start, limit, i) <==> Got(ScanFrom(log, start, limit), i - start)
  {
    hide DecodeDecision;
    var entries := ScanFrom(log, start, limit);
    ScanIs(log, start, limit);
    if Got(entries, i - start) {
      assert Scanned(log, start, limit, start + (i - start));
      forall j | start <= j <= i && log[j].eventType == "decision.recorded"
        ensures DecodeDecision(log[j].payload).Some?
      {
        assert Scanned(log, start, limit, j) && entries[j - start] == log[j];
      }
    }
    if Gathered(log, start, limit, i) {
      forall k | 0 <= k <= i - start && entries[k].eventType == RECORDED
        ensures DecodeDecision(entries[k].payload).Some?
      {
        assert entries[k] == log[start + k];
      }
    }
  }

  lemma WalkGathers(log: seq<LedgerEntry>, start: nat, limit: Option<nat>)
    ensures var w := Walk(ScanFrom(log, start, limit));
            && (forall p: (Json, Decision) :: p in w.decisions <==> exists i :: DecisionAt(log, start, limit, i, p.0, p.1))
            && (forall id :: id in w.requestIds <==> exists i :: OpeningAt(log, start, limit, i, id))
            && (w.decodes <==> forall i: nat :: Scanned(log, start, limit, i) && log[i].eventType == "decision.recorded" ==>
                  DecodeDecision(log[i].payload).Some?)
  {
    hide DecodeDecision, Got, Gathered, Walk, ScanFrom, Scanned;
    var entries := ScanFrom(log, start, limit);
    ScanIs(log, start, limit);
    WalkExactly(entries);
    forall i
      ensures Gathered(log, start, limit, i) <==> Got(entries, i - start)
      ensures Got(entries, i - start) ==> 0 <= i - start < |entries| && start <= i < |log| && entries[i - start] == log[i]
      ensures Gathered(log, start, limit, i) ==> start <= i < |log|
    {
      GotIsGathered(log, start, limit, i);
      GotInRange(entries, i - start);
      GatheredInRange(log, start, limit, i);
    }
    var w := Walk(entries);
    forall p: (Json, Decision)
      ensures p in w.decisions <==> exists i :: DecisionAt(log, start, limit, i, p.0, p.1)
    {
      if k :| GotDecision(entries, k, p) {
        assert Got(entries, start + k - start) && DecisionAt(log, start, limit, start + k, p.0, p.1);
      }
      if i :| DecisionAt(log, start, limit, i, p.0, p.1) {
        assert GotDecision(entries, i - start, p);
      }
    }
    forall id
      ensures id in w.requestIds <==> exists i :: OpeningAt(log, start, limit, i, id)
    {
      if k :| GotOpening(entries, k, id) {
        assert Got(entries, start + k - start) && OpeningAt(log, start, limit, start + k, id);
      }
      if i :| OpeningAt(log, start, limit, i, id) {
        assert GotOpening(entries, i - start, id);
      }
    }
    AllGot(entries);
    DecodingSegment(log, start, limit);
  }

  lemma DecodingSegment(log: seq<LedgerEntry>, start: nat, limit: Option<nat>)
    ensures (forall e :: e in ScanFrom(log, start, limit) && e.eventType == RECORDED ==> DecodeDecision(e.payload).Some?)
       <==> forall i: nat :: Scanned(log, start, limit, i) && log[i].eventType == "decision.recorded" ==>
              DecodeDecision(log[i].payload).Some?
  {
    hide DecodeDecision, ScanFrom;
    var entries := ScanFrom(log, start, limit);
    ScanIs(log, start, limit);
    forall e | e in entries
      ensures exists i: nat :: Scanned(log, start, limit, i) && log[i] == e
    {
      var k :| 0 <= k < |entries| && entries[k] == e;
      assert Scanned(log, start, limit, start + k) && log[start + k] == e;
    }
    forall i: nat | Scanned(log, start, limit, i)
      ensures log[i] in entries
    {
      assert entries[i - start] == log[i];
    }
  }

  lemma GatheredInRange(log: seq<LedgerEntry>, start: nat, limit: Option<nat>, i: int)
    ensures Gathered(log, start, limit, i) ==> start <= i < |log|
  {
  }

  lemma AllGot(entries: seq<LedgerEntry>)
    ensures (forall i :: 0 <= i < |entries| ==> Got(entries, i))
       <==> forall e :: e in entries && e.eventType == RECORDED ==> DecodeDecision(e.payload).Some?
  {
    hide DecodeDecision;
    if e :| e in entries && e.eventType == RECORDED && DecodeDecision(e.payload).None? {
      var k :| 0 <= k < |entries| && entries[k] == e;
      assert !Got(entries, k);
    }
  }

  lemma ChainFinding(H: Hash, log: seq<LedgerEntry>, start: nat, limit: Option<nat>)
    ensures LastReached(H, log, start, limit).None? <==> exists i: nat :: Scanned(log, start, limit, i) && Breaks(H, log, start, i)
  {
    hide DecodeDecision, Walk, Segment, Scanned, EntryChained, ScanFrom;
    WalkGathers(log, start, limit);
    ChainPart(H, log, start, limit);
    forall i: nat | Scanned(log, start, limit, i)
      ensures i < |log|
    {
      ScannedInRange(log, start, limit, i);
    }
  }

  lemma ScannedInRange(log: seq<LedgerEntry>, start: nat, limit: Option<nat>, i: nat)
    requires Scanned(log, start, limit, i)
    ensures i < |log|
  {
  }

  lemma PublishedFinding(env: Env, log: seq<LedgerEntry>, topic: Topic)
    ensures var checks := PublishedChecks(env, log);
            && (checks.Some? <==> forall i: nat :: LatestAt(log, i) ==> CheckpointFromJson(log[i].payload).Some?)
            && (checks.Some? ==>
                 (Finds(checks.value, topic) <==>
                   exists cp :: Latest(log, cp)
                     && if topic.CheckpointSigned? then !Accepts(env.gate.trust, cp)
                        else topic.RootReproduced? && MerkleRoot(env.gate.H, SliceTo(Leaves(log), cp.treeSize)) != cp.rootHash))
  {
    hide LatestCheckpoint, CheckpointFromJson, Accepts, MerkleRoot, Leaves, LatestAt;
    LatestExactly(log);
    var checks := PublishedChecks(env, log);
    if i: nat :| LatestAt(log, i) {
      LatestIsOne(log, i);
      if checks.Some? {
        LatestIsOne(log, i);
        var cp := CheckpointFromJson(log[i].payload).value;
        assert Latest(log, cp);
        assert checks.value[0] in checks.value && checks.value[1] in checks.value;
      }
    }
  }

  lemma LatestIsOne(log: seq<LedgerEntry>, i: nat)
    requires LatestAt(log, i)
    ensures i < |log| && forall j: nat :: LatestAt(log, j) ==> j == i
  {
    OnlyLatest(log, i);
  }

  /** There is a report exactly when the latest checkpoint reads, and every decision and every status that
      the walk gathers can be checked. */
  lemma ReportsExactly(env: Env, log: seq<LedgerEntry>, trusted: Option<Checkpoint>, start: nat, limit: Option<nat>, now: string)
    ensures Verify(env, log, trusted, start, limit, now).Some? <==> Reports(env, log, start, limit, now)
  {
    hide Walk, ScanFrom, LastReached, PublishedChecks, TrustedChecks, DecisionChecks, StatusChecks, DecisionReads, StatusReads, LatestAt;
    hide DecisionAt, OpeningAt, CheckpointFromJson;
    var w := Walk(ScanFrom(log, start, limit));
    WalkGathers(log, start, limit);
    PublishedFinding(env, log, RootReproduced);
    AllDecisions(env, log, w.decisions, DecisionBound);
    AllStatuses(env, log, w.requestIds, now, StatusReproduced);
    GatheredRead(env, log, start, limit, now);
  }

  lemma GatheredRead(env: Env, log: seq<LedgerEntry>, start: nat, limit: Option<nat>, now: string)
    ensures var w := Walk(ScanFrom(log, start, limit));
            && ((forall p :: p in w.decisions ==> DecisionReads(env, log, p.0, p.1))
                <==> forall i, envelope, d :: DecisionAt(log, start, limit, i, envelope, d) ==> DecisionReads(env, log, envelope, d))
            && ((forall id :: id in w.requestIds ==> StatusReads(env, log, id, now))
                <==> forall i, id :: OpeningAt(log, start, limit, i, id) ==> StatusReads(env, log, id, now))
  {
    hide Walk, ScanFrom, DecisionReads, StatusReads, DecisionAt, OpeningAt;
    var w := Walk(ScanFrom(log, start, limit));
    WalkGathers(log, start, limit);
    forall i, envelope, d | DecisionAt(log, start, limit, i, envelope, d)
      ensures (envelope, d) in w.decisions
    {
      var p := (envelope, d);
      assert DecisionAt(log, start, limit, i, p.0, p.1);
    }
  }

  lemma GatheredFail(env: Env, log: seq<LedgerEntry>, start: nat, limit: Option<nat>, now: string, topic: Topic)
    ensures var w := Walk(ScanFrom(log, start, limit));
            && ((exists p :: p in w.decisions && DecisionFails(env, log, p.0, p.1, topic))
                <==> exists i, envelope, d :: DecisionAt(log, start, limit, i, envelope, d) && DecisionFails(env, log, envelope, d, topic))
            && ((exists id :: id in w.requestIds && StatusFails(env, log, id, now, topic))
                <==> exists i, id :: OpeningAt(log, start, limit, i, id) && StatusFails(env, log, id, now, topic))
  {
    hide Walk, ScanFrom, DecisionFails, StatusFails, DecisionAt, OpeningAt;
    var w := Walk(ScanFrom(log, start, limit));
    WalkGathers(log, start, limit);
    if i, envelope, d :| DecisionAt(log, start, limit, i, envelope, d) && DecisionFails(env, log, envelope, d, topic) {
      var p := (envelope, d);
      assert DecisionAt(log, start, limit, i, p.0, p.1) && p in w.decisions && DecisionFails(env, log, p.0, p.1, topic);
    }
    if p :| p in w.decisions && DecisionFails(env, log, p.0, p.1, topic) {
      var i :| DecisionAt(log, start, limit, i, p.0, p.1);
    }
  }

  /** A check on a topic fails exactly for its cause: on any ledger, from any position, for any length,
      against any pinned checkpoint. */
  lemma FindsExactly(env: Env, log: seq<LedgerEntry>, trusted: Option<Checkpoint>, start: nat, limit: Option<nat>, now: string,
                     topic: Topic)
    requires Verify(env, log, trusted, start, limit, now).Some?
    ensures Finds(Verify(env, log, trusted, start, limit, now).value.checks, topic)
       <==> Cause(env, log, trusted, start, limit, now, topic)
  {
    hide Walk, ScanFrom, LastReached, PublishedChecks, TrustedChecks, DecisionChecks, StatusChecks, DecisionFails, StatusFails, Finds;
    hide DecisionAt, OpeningAt, Scanned, Breaks, Latest, PinHolds, Accepts, MerkleRoot, Leaves, SliceTo, DecisionReads, StatusReads;
    var w := Walk(ScanFrom(log, start, limit));
    var first := [Check(LastReached(env.gate.H, log, start, limit).Some?, ChainIntact)];
    var published, pinned := PublishedChecks(env, log).value, TrustedChecks(env, log, trusted);
    var decisions, statuses := DecisionChecks(env, log, w.decisions).value, StatusChecks(env, log, w.requestIds, now).value;
    FindsConcat(first, published, topic);
    FindsConcat(first + published, pinned, topic);
    FindsConcat(first + published + pinned, decisions, topic);
    FindsConcat(first + published + pinned + decisions, statuses, topic);
    FirstFinding(first[0], topic);
    ChainFinding(env.gate.H, log, start, limit);
    PublishedFinding(env, log, topic);
    PinnedFinding(env, log, trusted, topic);
    AllDecisions(env, log, w.decisions, topic);
    AllStatuses(env, log, w.requestIds, now, topic);
    GatheredFail(env, log, start, limit, now, topic);
    OwnTopics(env, log, now, topic);
  }

  lemma FirstFinding(c: Check, topic: Topic)
    ensures Finds([c], topic) <==> c == Check(false, topic)
  {
    assert c in [c];
  }

  lemma PinnedFinding(env: Env, log: seq<LedgerEntry>, trusted: Option<Checkpoint>, topic: Topic)
    ensures Finds(TrustedChecks(env, log, trusted), topic) <==> topic.TrustedExtended? && !PinHolds(env, log, trusted)
  {
    hide Accepts, VerifyConsistency, Leaves, SliceTo;
    if trusted.Some? {
      assert TrustedChecks(env, log, trusted)[0] in TrustedChecks(env, log, trusted);
    }
  }

  /** Decisions and statuses have topics of their own. */
  lemma OwnTopics(env: Env, log: seq<LedgerEntry>, now: string, topic: Topic)
    ensures !(topic.RequestKnown? || topic.DecisionBound? || topic.DecisionSigned?) ==>
              forall envelope, d :: !DecisionFails(env, log, envelope, d, topic)
    ensures !(topic.PolicyPinned? || topic.StatusReproduced?) ==> forall id :: !StatusFails(env, log, id, now, topic)
  {
    hide LoadRequest, ContextDigest, MayDecide, PolicyDigest, Recompute, LastStatus, EventsFor;
  }

  /** How far a report says that it has verified: to the last position of the segment, if no position
      breaks the chain; and otherwise, or when nothing is scanned, no further than where it was asked to
      start. */
  lemma ReachesExactly(env: Env, log: seq<LedgerEntry>, trusted: Option<Checkpoint>, start: nat, limit: Option<nat>, now: string)
    requires Verify(env, log, trusted, start, limit, now).Some?
    ensures var report := Verify(env, log, trusted, start, limit, now).value;
            && report.fromSeq == start
            && if (exists i: nat :: Scanned(log, start, limit, i))
                  && forall i: nat :: Scanned(log, start, limit, i) ==> !Breaks(env.gate.H, log, start, i)
               then Scanned(log, start, limit, report.toSeq) && forall i: nat :: Scanned(log, start, limit, i) ==> i <= report.toSeq
               else report.toSeq == start
  {
    hide Walk, ScanFrom, Segment, PublishedChecks, TrustedChecks, DecisionChecks, StatusChecks, Breaks;
    var entries := ScanFrom(log, start, limit);
    ScanIs(log, start, limit);
    SegmentIsLinked(env.gate.H, entries, start, PrevHashAt(log, start));
    ChainFinding(env.gate.H, log, start, limit);
    if entries != [] {
      assert entries[|entries| - 1] == log[start + (|entries| - 1)];
    }
  }
}
