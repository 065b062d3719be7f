/** `verify`: re-derive everything from the ledger and report every check. */
module Audit {
  import opened ByteStrings
  import opened JsonText
  import opened Canonical
  import opened Models
  import opened Merkle
  import opened Chain
  import opened PolicyEngine
  import opened Verifier
  import opened Envelope
  import opened SignedCheckpoints
  import opened Ceremony
  import opened Reads
  import opened Records

  datatype Topic =
    | ChainIntact | CheckpointSigned | RootReproduced | TrustedExtended
    | RequestKnown | DecisionBound | DecisionSigned
    | PolicyAvailable | PolicyPinned | StatusReproduced

  datatype Check = Check(ok: bool, topic: Topic)

  datatype Report = Report(checks: seq<Check>, fromSeq: int, toSeq: int)

  predicate AllOk(checks: seq<Check>) {
    forall c :: c in checks ==> c.ok
  }

  /** `scan(start, limit)` */
  function ScanFrom(log: seq<LedgerEntry>, start: nat, limit: Option<nat>): seq<LedgerEntry> {
    var stop := if limit.Some? && start + limit.value <= |log| then start + limit.value else |log|;
    if start <= stop then log[start..stop] else []
  }

  datatype Walked = Walked(decisions: seq<(Json, Decision)>, requestIds: seq<string>, decodes: bool)

  /** What the walk gathers before the chain is verified; it ends at an envelope that does not
      decode. */
  function Walk(entries: seq<LedgerEntry>): Walked {
    if entries == [] then Walked([], [], true)
    else
      var w, last := Walk(entries[..|entries| - 1]), entries[|entries| - 1];
      if !w.decodes then w
      else if last.eventType == RECORDED then
        match DecodeDecision(last.payload)
        case None => w.(decodes := false)
        case Some(d) => w.(decisions := w.decisions + [(last.payload, d)])
      else if last.eventType == CREATED && last.requestId.Some? && last.requestId.value != "" then
        w.(requestIds := w.requestIds + [last.requestId.value])
      else w
  }

  function PrevHashAt(log: seq<LedgerEntry>, start: nat): string {
    if start < |log| then log[start].prevHash else ZERO_HASH
  }

  /** The last seq reached, `start - 1` unless the chain is intact. */
  function LastReached(H: Hash, log: seq<LedgerEntry>, start: nat, limit: Option<nat>): Option<int> {
    var entries := ScanFrom(log, start, limit);
    if !Walk(entries).decodes then None
    else
      match Segment(H, entries, start, PrevHashAt(log, start))
      case Intact(last, _) => Some(last)
      case _ => None
  }

  /** The latest checkpoint: its signature and its root. `None` raises. */
  function PublishedChecks(env: Env, log: seq<LedgerEntry>): Option<seq<Check>> {
    var latest :- LatestCheckpoint(log);
    Some(match latest
         case None => []
         case Some(cp) =>
           [Check(Accepts(env.gate.trust, cp), CheckpointSigned),
            Check(MerkleRoot(env.gate.H, SliceTo(Leaves(log), cp.treeSize)) == cp.rootHash, RootReproduced)])
  }

  /** A checkpoint pinned elsewhere: signed, and extended by this ledger. */
  function TrustedChecks(env: Env, log: seq<LedgerEntry>, trusted: Option<Checkpoint>): seq<Check> {
    match trusted
    case None => []
    case Some(cp) =>
      [Check(Accepts(env.gate.trust, cp)
             && VerifyConsistency(env.gate.H, cp, SliceTo(Leaves(log), cp.treeSize)).Extended?, TrustedExtended)]
  }

  function DecisionChecksOf(env: Env, log: seq<LedgerEntry>, envelope: Json, d: Decision): Option<seq<Check>> {
    match LoadRequest(log, d.requestId)
    case NotFound => Some([Check(false, RequestKnown)])
    case Malformed => None
    case Found(r) =>
      var authorized :- MayDecide(env.gate, envelope, d);
      Some([Check(d.contextDigest == ContextDigest(env.gate.H, r), DecisionBound), Check(authorized, DecisionSigned)])
  }

  function DecisionChecks(env: Env, log: seq<LedgerEntry>, decisions: seq<(Json, Decision)>): Option<seq<Check>> {
    if decisions == [] then Some([])
    else
      var n := |decisions| - 1;
      var before :- DecisionChecks(env, log, decisions[..n]);
      var these :- DecisionChecksOf(env, log, decisions[n].0, decisions[n].1);
      Some(before + these)
  }

  function StatusChecksOf(env: Env, log: seq<LedgerEntry>, requestId: string, now: string): Option<seq<Check>> {
    match LoadRequest(log, requestId)
    case NotFound => Some([])
    case Malformed => None
    case Found(r) =>
      match Recompute(env, log, r, now)
      case NoSuchPolicy => Some([Check(true, PolicyAvailable)])
      case PolicyChanged => Some([Check(false, PolicyPinned)])
      case Raised => None
      case Derived(record) =>
        var recorded := LastStatus(EventsFor(log, requestId));
        Some([Check(recorded == Null || recorded == Str(StatusName(record.result.status)) || record.result.status.Expired?,
                    StatusReproduced)])
  }

  function StatusChecks(env: Env, log: seq<LedgerEntry>, requestIds: seq<string>, now: string): Option<seq<Check>> {
    if requestIds == [] then Some([])
    else
      var n := |requestIds| - 1;
      var before :- StatusChecks(env, log, requestIds[..n], now);
      var these :- StatusChecksOf(env, log, requestIds[n], now);
      Some(before + these)
  }

  /** `verify`; `None` is an exception that escapes it. */
  function Verify(env: Env, log: seq<LedgerEntry>, trusted: Option<Checkpoint>, start: nat, limit: Option<nat>, now: string): Option<Report> {
    var walked := Walk(ScanFrom(log, start, limit));
    var reached := LastReached(env.gate.H, log, start, limit);
    var published :- PublishedChecks(env, log);
    var decisions :- DecisionChecks(env, log, walked.decisions);
    var statuses :- StatusChecks(env, log, walked.requestIds, now);
    var last := if reached.Some? then reached.value else start - 1;
    Some(Report([Check(reached.Some?, ChainIntact)] + published + TrustedChecks(env, log, trusted) + decisions + statuses,
                start, if last >= start then last else start))
  }

  // ------------------------------------------------------- when a report is clean

  lemma AllOkConcat(a: seq<Check>, b: seq<Check>)
    ensures AllOk(a + b) <==> AllOk(a) && AllOk(b)
  {
    assert forall c :: c in a + b <==> c in a || c in b;
  }

  predicate Clean(checks: Option<seq<Check>>) {
    checks.Some? && AllOk(checks.value)
  }

  lemma {:induction false} DecisionChecksClean(env: Env, log: seq<LedgerEntry>, decisions: seq<(Json, Decision)>)
    ensures Clean(DecisionChecks(env, log, decisions))
       <==> forall i :: 0 <= i < |decisions| ==> Clean(DecisionChecksOf(env, log, decisions[i].0, decisions[i].1))
  {
    hide DecisionChecksOf, AllOk;
    if decisions == [] {
      NoChecksOk();
    } else {
      var n := |decisions| - 1;
      var init := decisions[..n];
      DecisionChecksClean(env, log, init);
      assert forall i :: 0 <= i < n ==> init[i] == decisions[i];
      if DecisionChecks(env, log, init).Some? && DecisionChecksOf(env, log, decisions[n].0, decisions[n].1).Some? {
        AllOkConcat(DecisionChecks(env, log, init).value, DecisionChecksOf(env, log, decisions[n].0, decisions[n].1).value);
      }
    }
  }

  lemma NoChecksOk()
    ensures AllOk([])
  {
  }

  lemma {:induction false} StatusChecksClean(env: Env, log: seq<LedgerEntry>, requestIds: seq<string>, now: string)
    ensures Clean(StatusChecks(env, log, requestIds, now))
       <==> forall i :: 0 <= i < |requestIds| ==> Clean(StatusChecksOf(env, log, requestIds[i], now))
  {
    hide StatusChecksOf, AllOk;
    if requestIds == [] {
      NoChecksOk();
    } else {
      var n := |requestIds| - 1;
      var init := requestIds[..n];
      StatusChecksClean(env, log, init, now);
      assert forall i :: 0 <= i < n ==> init[i] == requestIds[i];
      if StatusChecks(env, log, init, now).Some? && StatusChecksOf(env, log, requestIds[n], now).Some? {
        AllOkConcat(StatusChecks(env, log, init, now).value, StatusChecksOf(env, log, requestIds[n], now).value);
      }
    }
  }

  /** The status checks raise exactly when one of them does. */
  lemma {:induction false} StatusChecksRaise(env: Env, log: seq<LedgerEntry>, requestIds: seq<string>, now: string)
    ensures StatusChecks(env, log, requestIds, now).Some?
       <==> forall i :: 0 <= i < |requestIds| ==> StatusChecksOf(env, log, requestIds[i], now).Some?
  {
    hide StatusChecksOf;
    if requestIds != [] {
      var n := |requestIds| - 1;
      var init := requestIds[..n];
      StatusChecksRaise(env, log, init, now);
      assert forall i :: 0 <= i < n ==> init[i] == requestIds[i];
    }
  }

  /** A report is clean exactly when every part of it is. */
  lemma ReportClean(env: Env, log: seq<LedgerEntry>, trusted: Option<Checkpoint>, start: nat, limit: Option<nat>, now: string)
    ensures var report := Verify(env, log, trusted, start, limit, now);
            var walked := Walk(ScanFrom(log, start, limit));
            (report.Some? && AllOk(report.value.checks))
            <==> && LastReached(env.gate.H, log, start, limit).Some?
                 && Clean(PublishedChecks(env, log)) && AllOk(TrustedChecks(env, log, trusted))
                 && Clean(DecisionChecks(env, log, walked.decisions))
                 && Clean(StatusChecks(env, log, walked.requestIds, now))
  {
    hide AllOk, LastReached, PublishedChecks, TrustedChecks, DecisionChecks, StatusChecks, Walk, ScanFrom;
    var report := Verify(env, log, trusted, start, limit, now);
    if report.Some? {
      var walked := Walk(ScanFrom(log, start, limit));
      var first := [Check(LastReached(env.gate.H, log, start, limit).Some?, ChainIntact)];
      var published := PublishedChecks(env, log).value;
      var pinned := TrustedChecks(env, log, trusted);
      var decisions := DecisionChecks(env, log, walked.decisions).value;
      var statuses := StatusChecks(env, log, walked.requestIds, now).value;
      AllOkConcat(first, published);
      AllOkConcat(first + published, pinned);
      AllOkConcat(first + published + pinned, decisions);
      AllOkConcat(first + published + pinned + decisions, statuses);
      OneCheckOk(first[0]);
    }
  }

  lemma OneCheckOk(c: Check)
    ensures AllOk([c]) <==> c.ok
  {
    assert c in [c];
  }

  // -------------------------------------------------- what a clean report proves

  lemma {:induction false} WalkGathers(entries: seq<LedgerEntry>, i: nat)
    requires i < |entries| && Walk(entries).decodes
    ensures entries[i].eventType == RECORDED ==>
              && DecodeDecision(entries[i].payload).Some?
              && (entries[i].payload, DecodeDecision(entries[i].payload).value) in Walk(entries).decisions
    ensures entries[i].eventType == CREATED && entries[i].requestId.Some? && entries[i].requestId.value != "" ==>
              entries[i].requestId.value in Walk(entries).requestIds
  {
    hide DecodeDecision;
    var n := |entries| - 1;
    if i < n {
      WalkGathers(entries[..n], i);
    }
  }

  lemma {:induction false} WalkIds(entries: seq<LedgerEntry>)
    requires forall e :: e in entries && e.eventType == RECORDED ==> DecodeDecision(e.payload).Some?
    ensures Walk(entries).decodes
    ensures forall id :: id in Walk(entries).requestIds <==>
              id != "" && exists e :: e in entries && e.eventType == CREATED && e.requestId == Some(id)
    ensures forall p :: p in Walk(entries).decisions ==>
              exists e :: e in entries && e.eventType == RECORDED && e.payload == p.0 && DecodeDecision(p.0) == Some(p.1)
  {
    hide DecodeDecision;
    if entries != [] {
      var init, last := entries[..|entries| - 1], entries[|entries| - 1];
      assert entries == init + [last];
      assert forall e :: e in entries <==> e in init || e == last;
      WalkIds(init);
    }
  }

  /** A ledger of one entry that points anywhere: `verify` from the first entry on finds nothing wrong
      with it, although it does not start from genesis. */
  lemma GenesisIsNotChecked(env: Env, before: string, now: string)
    ensures var e := Sealed(env.gate.H, LedgerEntry(0, now, before, STATUS_CHANGED, None, Obj(map[]), ""));
            var report := Verify(env, [e], None, 0, None, now);
            && report.Some? && AllOk(report.value.checks)
            && (Linked(env.gate.H, [e], 0, ZERO_HASH) <==> before == ZERO_HASH)
  {
    hide CanonicalHash, Verify, AllOk, Walk, PublishedChecks, DecisionChecks, StatusChecks;
    var H := env.gate.H;
    var e := Sealed(H, LedgerEntry(0, now, before, STATUS_CHANGED, None, Obj(map[]), ""));
    assert CoreJson(e) == CoreJson(e.(entryHash := ""));
    assert LinkedAt(H, [e], 0, 0, before);
    SegmentIsLinked(H, [e], 0, before);
    LinkedStart(H, [e]);
    QuietWalk(e);
    NothingToCheck(env, e, now);
    assert ScanFrom([e], 0, None) == [e];
    ReportClean(env, [e], None, 0, None, now);
  }

  lemma QuietWalk(e: LedgerEntry)
    requires e.eventType == STATUS_CHANGED
    ensures Walk([e]) == Walked([], [], true)
  {
    assert [e][..0] == [];
  }

  lemma NothingToCheck(env: Env, e: LedgerEntry, now: string)
    requires e.eventType == STATUS_CHANGED
    ensures Clean(PublishedChecks(env, [e])) && AllOk(TrustedChecks(env, [e], None))
    ensures Clean(DecisionChecks(env, [e], [])) && Clean(StatusChecks(env, [e], [], now))
  {
    assert [e][..0] == [];
    assert LatestCheckpoint([]) == Some(None);
    NoChecksOk();
  }

  lemma LinkedStart(H: Hash, log: seq<LedgerEntry>)
    requires log != []
    ensures Linked(H, log, 0, ZERO_HASH) ==> log[0].prevHash == ZERO_HASH
  {
    hide CoreHash;
    assert Linked(H, log, 0, ZERO_HASH) ==> LinkedAt(H, log, 0, 0, ZERO_HASH);
  }

  lemma CleanDecision(env: Env, log: seq<LedgerEntry>, envelope: Json, d: Decision)
    ensures Clean(DecisionChecksOf(env, log, envelope, d))
       <==> && LoadRequest(log, d.requestId).Found?
            && d.contextDigest == ContextDigest(env.gate.H, LoadRequest(log, d.requestId).request)
            && MayDecide(env.gate, envelope, d) == Some(true)
  {
    hide LoadRequest, MayDecide, ContextDigest;
    var checks := DecisionChecksOf(env, log, envelope, d);
    if checks.Some? {
      assert forall k :: 0 <= k < |checks.value| ==> checks.value[k] in checks.value;
      if LoadRequest(log, d.requestId).Found? {
        assert checks.value[0].topic == DecisionBound && checks.value[1].topic == DecisionSigned;
      } else {
        assert !checks.value[0].ok;
      }
    }
  }
}
