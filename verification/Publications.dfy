/** What publishing a checkpoint answers and writes, said in terms of the ledger. */
module Publications {
  import opened ByteStrings
  import opened JsonText
  import opened Canonical
  import opened Models
  import opened Merkle
  import opened Chain
  import opened Verifier
  import opened SignedCheckpoints
  import opened Ceremony
  import opened Reads
  import opened Records
  import opened Operations
  import opened LedgerHealth
  import opened SequentialRuns
  import opened CleanReports

  /** The latest checkpoint on the ledger has this root, or there is none yet. */
  ghost predicate Follows(log: seq<LedgerEntry>, prev: Option<string>) {
    if exists i: nat :: LatestAt(log, i) then
      exists i: nat :: LatestAt(log, i) && CheckpointFromJson(log[i].payload).Some?
        && prev == Some(CheckpointFromJson(log[i].payload).value.rootHash)
    else prev == None
  }

  /** The checkpoint covers the whole ledger, at this time, after the one before it, under one
      signature over its canonical fields. */
  ghost predicate Covers(g: Gate, log: seq<LedgerEntry>, signer: Signer, now: string, cp: Checkpoint) {
    && cp.treeSize == |log| && cp.rootHash == MerkleRoot(g.H, Leaves(log)) && Follows(log, cp.prevRootHash)
    && cp.publishedAt == now && cp.logId == g.logId && cp.schema == "approvo/checkpoint/v1"
    && cp.signatures == [SignatureEntry(signer.keyid, signer.sign(Utf8("approvo/checkpoint/v1\n") + JsonBytes(Obj(SignedFields(cp)))))]
  }

  predicate CheckpointEntry(e: LedgerEntry, cp: Checkpoint) {
    && e.eventType == "checkpoint.published" && e.requestId == None && e.recordedAt == cp.publishedAt
    && CheckpointFromJson(e.payload) == Some(cp)
  }

  /** What `checkpoint` should answer and leave, on any ledger: an exception exactly when the latest
      checkpoint cannot be read; otherwise a checkpoint over the ledger, appended to it. */
  ghost predicate PublishTold(s: Service, st: Stores, signer: Signer, now: string, after: Stores, cp: Option<Checkpoint>) {
    && after.keys == st.keys && after.views == st.views
    && (cp.None? <==> exists i: nat :: LatestAt(st.log, i) && CheckpointFromJson(st.log[i].payload).None?)
    && (cp.None? ==> after.log == st.log)
    && (cp.Some? ==>
         && |after.log| == |st.log| + 1 && after.log[..|st.log|] == st.log
         && CheckpointEntry(after.log[|st.log|], cp.value) && Covers(s.env.gate, st.log, signer, now, cp.value))
  }

  lemma LatestIsFollowed(log: seq<LedgerEntry>)
    ensures LatestCheckpoint(log).None? <==> exists i: nat :: LatestAt(log, i) && CheckpointFromJson(log[i].payload).None?
    ensures LatestCheckpoint(log).Some? ==>
              var previous := LatestCheckpoint(log).value;
              Follows(log, if previous.Some? then Some(previous.value.rootHash) else None)
  {
    hide LatestCheckpoint, CheckpointFromJson;
    LatestExactly(log);
    if i: nat :| LatestAt(log, i) {
      OnlyLatest(log, i);
    }
  }

  lemma PublishIsTold(s: Service, st: Stores, signer: Signer, now: string)
    ensures PublishTold(s, st, signer, now, Publish(s, st, signer, now).0, Publish(s, st, signer, now).1)
  {
    hide LatestCheckpoint, LatestAt, Follows, MerkleRoot, Leaves, CheckpointFromJson, CheckpointJson, SignatureEntry, JsonBytes, Utf8;
    hide SignedFields, CanonicalHash;
    LatestIsFollowed(st.log);
    if LatestCheckpoint(st.log).Some? {
      var g := s.env.gate;
      var unsigned := BuildCheckpoint(g.H, Leaves(st.log), g.logId, now, LatestCheckpoint(st.log).value);
      var cp := SignCheckpoint(unsigned, signer);
      LeavesAreAll(st.log);
      SignaturesAreLeftOut(unsigned, cp);
      CheckpointRoundTrip(cp);
    }
  }

  lemma LeavesAreAll(log: seq<LedgerEntry>)
    ensures |Leaves(log)| == |log|
  {
  }

  lemma SignaturesAreLeftOut(cp: Checkpoint, other: Checkpoint)
    requires cp.(signatures := []) == other.(signatures := [])
    ensures SignedFields(cp) == SignedFields(other)
  {
    assert SignedFields(cp) == SignedFields(cp.(signatures := []));
    assert SignedFields(other) == SignedFields(other.(signatures := []));
  }

  /** In every run a checkpoint is published, and it covers the ledger. */
  lemma PublishAnswers(s: Service, ops: seq<Op>, signer: Signer, now: string)
    ensures var st := RunAll(s, ops);
            && PublishTold(s, st, signer, now, Publish(s, st, signer, now).0, Publish(s, st, signer, now).1)
            && Publish(s, st, signer, now).1.Some?
  {
    hide RunAll, Publish, Covers, CheckpointEntry, CheckpointFromJson, Linked, EntryOk;
    var log := RunAll(s, ops).log;
    PublishIsTold(s, RunAll(s, ops), signer, now);
    EveryRunIsSound(s, ops);
    if i: nat :| LatestAt(log, i) && CheckpointFromJson(log[i].payload).None? {
      CheckpointsRead(s.env, log, log[i]);
      assert false;
    }
  }

  lemma CheckpointsRead(env: Env, log: seq<LedgerEntry>, e: LedgerEntry)
    requires EntriesOk(env, log) && e in log && e.eventType == "checkpoint.published"
    ensures CheckpointFromJson(e.payload).Some?
  {
    hide CommitsTo, CheckpointFromJson;
    assert EntryOk(env, log, e);
  }
}
