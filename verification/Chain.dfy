/** Building and verifying the hash chain, and fork detection against a checkpoint. */
module Chain {
  import opened ByteStrings
  import opened JsonText
  import opened Canonical
  import opened Models
  import opened Merkle

  /** `next_entry`: the sealed entry that would follow `prev`. */
  function NextEntry(H: Hash, prev: Option<LedgerEntry>, eventType: string, payload: Json,
                     atTime: string, requestId: Option<string>): LedgerEntry {
    Sealed(H, LedgerEntry(
      if prev.Some? then prev.value.seqNo + 1 else 0,
      atTime,
      if prev.Some? then prev.value.entryHash else ZERO_HASH,
      eventType, requestId, payload, ""))
  }

  datatype SegmentResult =
    | Intact(lastSeq: int, lastHash: string)
    | SeqGap(at: int)
    | ChainBroken(at: int)
    | EntryHashMismatch(at: int)

  /** `verify_segment`, one entry at a time. */
  function Segment(H: Hash, entries: seq<LedgerEntry>, first: int, prevHash: string): SegmentResult {
    if entries == [] then Intact(first - 1, prevHash)
    else
      var e := entries[0];
      if e.seqNo != first then SeqGap(e.seqNo)
      else if e.prevHash != prevHash then ChainBroken(e.seqNo)
      else if e.entryHash != CoreHash(H, e) then EntryHashMismatch(e.seqNo)
      else Segment(H, entries[1..], e.seqNo + 1, e.entryHash)
  }

  /** The loop of the source, with its four running variables. */
  method VerifySegment(H: Hash, entries: seq<LedgerEntry>, first: int, expectedPrev: string) returns (r: SegmentResult)
    ensures r == Segment(H, entries, first, expectedPrev)
  {
    var seqNo, prevHash := first, expectedPrev;
    var lastSeq, lastHash := first - 1, expectedPrev;
    for i := 0 to |entries|
      invariant lastSeq == seqNo - 1 && lastHash == prevHash
      invariant Segment(H, entries, first, expectedPrev) == Segment(H, entries[i..], seqNo, prevHash)
    {
      var entry := entries[i];
      assert entries[i..][0] == entry && entries[i..][1..] == entries[i + 1..];
      if entry.seqNo != seqNo {
        return SeqGap(entry.seqNo);
      }
      if entry.prevHash != prevHash {
        return ChainBroken(entry.seqNo);
      }
      if entry.entryHash != CoreHash(H, entry) {
        return EntryHashMismatch(entry.seqNo);
      }
      lastSeq, lastHash := entry.seqNo, entry.entryHash;
      seqNo, prevHash := entry.seqNo + 1, entry.entryHash;
    }
    return Intact(lastSeq, lastHash);
  }

  /** The chain property, stated of all positions at once. */
  ghost predicate Linked(H: Hash, entries: seq<LedgerEntry>, first: int, prevHash: string) {
    forall i :: 0 <= i < |entries| ==> LinkedAt(H, entries, i, first, prevHash)
  }

  ghost predicate LinkedAt(H: Hash, entries: seq<LedgerEntry>, i: nat, first: int, prevHash: string)
    requires i < |entries|
  {
    && entries[i].seqNo == first + i
    && entries[i].prevHash == HashBefore(entries, i, prevHash)
    && entries[i].entryHash == CoreHash(H, entries[i])
  }

  /** The hash that position `i` must point back to. */
  function HashBefore(entries: seq<LedgerEntry>, i: nat, prevHash: string): string
    requires i <= |entries|
  {
    if i == 0 then prevHash else entries[i - 1].entryHash
  }

  /** `verify_segment` accepts exactly the linked segments, and returns where they end. */
  lemma {:induction false} SegmentIsLinked(H: Hash, entries: seq<LedgerEntry>, first: int, prevHash: string)
    ensures Linked(H, entries, first, prevHash) <==> Segment(H, entries, first, prevHash).Intact?
    ensures Linked(H, entries, first, prevHash) ==>
              Segment(H, entries, first, prevHash)
              == Intact(first + |entries| - 1, HashBefore(entries, |entries|, prevHash))
  {
    hide CoreHash;
    if entries != [] {
      var e, rest := entries[0], entries[1..];
      SegmentIsLinked(H, rest, first + 1, e.entryHash);
      LinkedFromHead(H, entries, first, prevHash);
    }
  }

  lemma LinkedFromHead(H: Hash, entries: seq<LedgerEntry>, first: int, prevHash: string)
    requires entries != []
    ensures Linked(H, entries, first, prevHash)
       <==> LinkedAt(H, entries, 0, first, prevHash) && Linked(H, entries[1..], first + 1, entries[0].entryHash)
  {
    hide CoreHash;
    var rest, next, hash := entries[1..], first + 1, entries[0].entryHash;
    forall i | 0 < i < |entries|
      ensures LinkedAt(H, entries, i, first, prevHash) <==> LinkedAt(H, rest, i - 1, next, hash)
    {
      assert rest[i - 1] == entries[i];
    }
    if Linked(H, entries, first, prevHash) {
      forall i | 0 <= i < |rest|
        ensures LinkedAt(H, rest, i, next, hash)
      {
        assert LinkedAt(H, entries, i + 1, first, prevHash);
      }
    }
    if Linked(H, rest, next, hash) && LinkedAt(H, entries, 0, first, prevHash) {
      forall i | 0 <= i < |entries|
        ensures LinkedAt(H, entries, i, first, prevHash)
      {
        if i > 0 {
          assert LinkedAt(H, rest, i - 1, next, hash);
        }
      }
    }
  }

  /** Verifying page by page: the second page starts one past the first one's last seq, at its last
      hash; a failure in the first page is the failure of the whole. */
  lemma {:induction false} SegmentComposes(H: Hash, a: seq<LedgerEntry>, b: seq<LedgerEntry>, first: int, prevHash: string)
    ensures var page := Segment(H, a, first, prevHash);
            Segment(H, a + b, first, prevHash) == if page.Intact? then Segment(H, b, page.lastSeq + 1, page.lastHash) else page
  {
    hide CoreHash;
    if a == [] {
      assert a + b == b;
    } else {
      assert (a + b)[0] == a[0] && (a + b)[1..] == a[1..] + b;
      SegmentComposes(H, a[1..], b, a[0].seqNo + 1, a[0].entryHash);
    }
  }

  /** Passing the returned seq itself, as the source's documentation has it, refuses every ledger
      that has a second page. */
  lemma PagingByLastSeqFails(H: Hash, a: seq<LedgerEntry>, b: seq<LedgerEntry>, first: int, prevHash: string)
    requires Segment(H, a + b, first, prevHash).Intact? && b != []
    ensures var page := Segment(H, a, first, prevHash);
            page.Intact? && Segment(H, b, page.lastSeq, page.lastHash) == SeqGap(page.lastSeq + 1)
  {
    hide CoreHash;
    SegmentComposes(H, a, b, first, prevHash);
  }

  // ----------------------------------------------------- a chain binds its past

  /** Compare two chains from their last entries down to the first difference. */
  function SegmentClash(a: seq<LedgerEntry>, b: seq<LedgerEntry>): Pair {
    if a == [] || b == [] then Pair([], [])
    else
      var x, y := a[|a| - 1], b[|b| - 1];
      if !SameCore(x, y) then HashClash(CoreJson(x), CoreJson(y))
      else SegmentClash(a[..|a| - 1], b[..|b| - 1])
  }

  /** Two non-empty segments accepted from the same start with the same last hash are the same
      segment, length included. */
  lemma {:induction false} SegmentBinds(H: Hash, a: seq<LedgerEntry>, b: seq<LedgerEntry>, first: int, prevHash: string)
    requires a != [] && b != []
    requires Segment(H, a, first, prevHash).Intact? && Segment(H, b, first, prevHash).Intact?
    requires Segment(H, a, first, prevHash).lastHash == Segment(H, b, first, prevHash).lastHash
    ensures a == b || Collides(H, SegmentClash(a, b))
  {
    hide Segment;
    SegmentIsLinked(H, a, first, prevHash);
    SegmentIsLinked(H, b, first, prevHash);
    LinkedBinds(H, a, b, first, prevHash);
  }

  lemma {:induction false} LinkedBinds(H: Hash, a: seq<LedgerEntry>, b: seq<LedgerEntry>, first: int, prevHash: string)
    requires a != [] && b != []
    requires Linked(H, a, first, prevHash) && Linked(H, b, first, prevHash)
    requires a[|a| - 1].entryHash == b[|b| - 1].entryHash
    ensures a == b || Collides(H, SegmentClash(a, b))
  {
    hide CoreHash, Collides, HashClash, CoreJson, Linked;
    var x, y := a[|a| - 1], b[|b| - 1];
    LinkedInit(H, a, first, prevHash);
    LinkedInit(H, b, first, prevHash);
    CoreHashBinds(H, x, y);
    if SameCore(x, y) {
      assert x == y;
      var c, d := a[..|a| - 1], b[..|b| - 1];
      assert a == c + [x] && b == d + [y];
      if c != [] {
        LinkedBinds(H, c, d, first, prevHash);
      }
    }
  }

  lemma LinkedInit(H: Hash, a: seq<LedgerEntry>, first: int, prevHash: string)
    requires a != [] && Linked(H, a, first, prevHash)
    ensures Linked(H, a[..|a| - 1], first, prevHash)
    ensures LinkedAt(H, a, |a| - 1, first, prevHash)
  {
    hide CoreHash;
    var c := a[..|a| - 1];
    forall i | 0 <= i < |c|
      ensures LinkedAt(H, c, i, first, prevHash)
    {
      assert LinkedAt(H, a, i, first, prevHash);
    }
  }

  // ------------------------------------------------- checkpoints and extension

  /** `[e.entry_hash for e in entries]` */
  function Leaves(entries: seq<LedgerEntry>): (hs: seq<string>)
    ensures |hs| == |entries| && forall i :: 0 <= i < |hs| ==> hs[i] == entries[i].entryHash
  {
    if entries == [] then [] else [entries[0].entryHash] + Leaves(entries[1..])
  }

  lemma LeavesOfPrefix(entries: seq<LedgerEntry>, n: nat)
    requires n <= |entries|
    ensures Leaves(entries)[..n] == Leaves(entries[..n])
  {
  }

  /** `build_checkpoint` */
  function BuildCheckpoint(H: Hash, leaves: seq<string>, logId: string, atTime: string, prev: Option<Checkpoint>): Checkpoint {
    Checkpoint(|leaves|, MerkleRoot(H, leaves), atTime, logId,
               if prev.Some? then Some(prev.value.rootHash) else None, [], CHECKPOINT_SCHEMA)
  }

  datatype Consistency = Extended | HasShrunk | NotAnExtension

  /** `s[:n]`, which counts from the end when `n` is negative. */
  function SliceTo<T>(s: seq<T>, n: int): seq<T> {
    if n >= 0 then s[..if n <= |s| then n else |s|] else s[..if |s| + n >= 0 then |s| + n else 0]
  }

  /** `verify_consistency` */
  function VerifyConsistency(H: Hash, trusted: Checkpoint, prefix: seq<string>): Consistency {
    if |prefix| < trusted.treeSize then HasShrunk
    else if MerkleRoot(H, SliceTo(prefix, trusted.treeSize)) != trusted.rootHash then NotAnExtension
    else Extended
  }

  /** Handing it only the first `tree_size` leaves, as `verify` does, changes nothing. */
  lemma PrefixSuffices(H: Hash, trusted: Checkpoint, leaves: seq<string>)
    requires trusted.treeSize >= 0
    ensures VerifyConsistency(H, trusted, SliceTo(leaves, trusted.treeSize)) == VerifyConsistency(H, trusted, leaves)
  {
    hide MerkleRoot;
    var n, prefix := trusted.treeSize, SliceTo(leaves, trusted.treeSize);
    assert |leaves| >= n ==> prefix == leaves[..n] && SliceTo(prefix, n) == prefix[..n] == prefix;
  }

  /** The checkpoint commits to the first `treeSize` entries of `log`. */
  ghost predicate CommitsTo(H: Hash, cp: Checkpoint, log: seq<LedgerEntry>) {
    0 <= cp.treeSize <= |log| && cp.rootHash == MerkleRoot(H, Leaves(log[..cp.treeSize]))
  }

  lemma BuiltCheckpointCommits(H: Hash, log: seq<LedgerEntry>, logId: string, atTime: string, prev: Option<Checkpoint>)
    ensures CommitsTo(H, BuildCheckpoint(H, Leaves(log), logId, atTime, prev), log)
  {
    hide MerkleRoot;
    assert log[..|log|] == log;
  }

  function FirstDifference(a: seq<LedgerEntry>, b: seq<LedgerEntry>): (i: nat)
    requires |a| == |b|
    ensures i <= |a| && a[..i] == b[..i] && (i < |a| ==> a[i] != b[i])
  {
    if a == [] || a[0] != b[0] then 0 else
      var i := 1 + FirstDifference(a[1..], b[1..]);
      assert a[..i] == [a[0]] + a[1..][..i - 1] && b[..i] == [b[0]] + b[1..][..i - 1];
      i
  }

  /** Two ledgers of one length with the same root: where equal hashes come from different bytes. */
  function ForkClash(H: Hash, a: seq<LedgerEntry>, b: seq<LedgerEntry>): Pair
    requires |a| == |b|
  {
    var i := FirstDifference(a, b);
    if Leaves(a) != Leaves(b) then RootClash(H, Leaves(a), Leaves(b))
    else if i < |a| then HashClash(CoreJson(a[i]), CoreJson(b[i]))
    else Pair([], [])
  }

  /** Fork detection: when two verified ledgers both extend one checkpoint, the entries it covers
      agree in every field, whatever hashes the two start from. */
  lemma ForksAreDetected(H: Hash, a: seq<LedgerEntry>, b: seq<LedgerEntry>, cp: Checkpoint, beforeA: string, beforeB: string)
    requires Segment(H, a, 0, beforeA).Intact? && Segment(H, b, 0, beforeB).Intact?
    requires CommitsTo(H, cp, b)
    requires VerifyConsistency(H, cp, Leaves(a)).Extended?
    ensures cp.treeSize <= |a|
    ensures a[..cp.treeSize] == b[..cp.treeSize]
         || Collides(H, ForkClash(H, a[..cp.treeSize], b[..cp.treeSize]))
  {
    hide Segment, MerkleRoot, CoreHash, RootClash, FirstDifference, Leaves;
    SegmentIsLinked(H, a, 0, beforeA);
    SegmentIsLinked(H, b, 0, beforeB);
    var n := cp.treeSize;
    var x, y := a[..n], b[..n];
    LeavesOfPrefix(a, n);
    MerkleRootBindsLeaves(H, Leaves(x), Leaves(y));
    if Leaves(x) == Leaves(y) {
      SameLeavesBind(H, a, b, n, beforeA, beforeB);
    }
  }

  lemma SameLeavesBind(H: Hash, a: seq<LedgerEntry>, b: seq<LedgerEntry>, n: nat, beforeA: string, beforeB: string)
    requires n <= |a| && n <= |b| && Leaves(a[..n]) == Leaves(b[..n])
    requires Linked(H, a, 0, beforeA) && Linked(H, b, 0, beforeB)
    ensures a[..n] == b[..n] || Collides(H, ForkClash(H, a[..n], b[..n]))
  {
    hide MerkleRoot, CoreHash, RootClash, FirstDifference, Leaves;
    var x, y := a[..n], b[..n];
    var i := FirstDifference(x, y);
    if i < n {
      assert LinkedAt(H, a, i, 0, beforeA) && LinkedAt(H, b, i, 0, beforeB);
      assert x[i].entryHash == Leaves(x)[i] == Leaves(y)[i] == y[i].entryHash;
      CoreHashBinds(H, x[i], y[i]);
    } else {
      assert x == x[..n] && y == y[..n];
    }
  }

  /** Conversely, a ledger that extends the committed entries always passes. */
  lemma ExtensionsPass(H: Hash, a: seq<LedgerEntry>, b: seq<LedgerEntry>, cp: Checkpoint)
    requires CommitsTo(H, cp, b)
    requires cp.treeSize <= |a| && a[..cp.treeSize] == b[..cp.treeSize]
    ensures VerifyConsistency(H, cp, Leaves(a)).Extended?
  {
    hide MerkleRoot;
    LeavesOfPrefix(a, cp.treeSize);
  }
}
