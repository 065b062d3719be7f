/** The in-memory stores: lists and dictionaries changed in place. */
module MemoryStores {
  import opened ByteStrings
  import opened Models
  import opened Chain
  import opened Reads
  import opened Records
  import opened Operations
  import Audit
  import Protocol

  // ------------------------------------------------------------ the per-request index

  /** The seqs of one request's entries, in list order. */
  function SeqsOf(entries: seq<LedgerEntry>, id: string): seq<int> {
    if entries == [] then []
    else
      var n := |entries| - 1;
      SeqsOf(entries[..n], id) + if entries[n].requestId == Some(id) then [entries[n].seqNo] else []
  }

  /** The index after one more entry; an empty request id is not indexed. */
  function Noted(index: map<string, seq<int>>, e: LedgerEntry): map<string, seq<int>> {
    if e.requestId.Some? && e.requestId.value != "" then
      index[e.requestId.value := (if e.requestId.value in index then index[e.requestId.value] else []) + [e.seqNo]]
    else index
  }

  /** The index lists, for every non-empty request id, exactly its entries. */
  ghost predicate Indexes(index: map<string, seq<int>>, entries: seq<LedgerEntry>) {
    forall id :: IndexesAt(index, entries, id)
  }

  ghost predicate IndexesAt(index: map<string, seq<int>>, entries: seq<LedgerEntry>, id: string) {
    && (id in index <==> id != "" && SeqsOf(entries, id) != [])
    && (id in index ==> index[id] == SeqsOf(entries, id))
  }

  lemma SeqsOfOneMore(entries: seq<LedgerEntry>, e: LedgerEntry, id: string)
    ensures SeqsOf(entries + [e], id) == SeqsOf(entries, id) + if e.requestId == Some(id) then [e.seqNo] else []
  {
    assert (entries + [e])[..|entries|] == entries;
  }

  lemma NotedIndexes(index: map<string, seq<int>>, entries: seq<LedgerEntry>, e: LedgerEntry)
    requires Indexes(index, entries)
    ensures Indexes(Noted(index, e), entries + [e])
  {
    hide SeqsOf;
    forall id
      ensures IndexesAt(Noted(index, e), entries + [e], id)
    {
      assert IndexesAt(index, entries, id);
      SeqsOfOneMore(entries, e, id);
    }
  }

  /** Every entry's seq is its position. */
  ghost predicate InPlace(entries: seq<LedgerEntry>) {
    forall i :: 0 <= i < |entries| ==> entries[i].seqNo == i
  }

  /** `entries[s]` for an index that may count from the end; `None` is `IndexError`. */
  function At(entries: seq<LedgerEntry>, s: int): Option<LedgerEntry> {
    if 0 <= s < |entries| then Some(entries[s])
    else if -|entries| <= s < 0 then Some(entries[|entries| + s])
    else None
  }

  function Fetched(entries: seq<LedgerEntry>, seqs: seq<int>): Option<seq<LedgerEntry>> {
    if seqs == [] then Some([])
    else
      var before :- Fetched(entries, seqs[..|seqs| - 1]);
      var e :- At(entries, seqs[|seqs| - 1]);
      Some(before + [e])
  }

  lemma {:induction false} FetchedStops(entries: seq<LedgerEntry>, seqs: seq<int>, n: nat)
    requires n <= |seqs|
    ensures Fetched(entries, seqs[..n]).None? ==> Fetched(entries, seqs).None?
    decreases |seqs|
  {
    if n < |seqs| {
      var init := seqs[..|seqs| - 1];
      assert init[..n] == seqs[..n];
      FetchedStops(entries, init, n);
    } else {
      assert seqs[..n] == seqs;
    }
  }

  lemma FetchedOneMore(entries: seq<LedgerEntry>, seqs: seq<int>, k: int)
    requires Fetched(entries, seqs).Some? && 0 <= k < |entries|
    ensures Fetched(entries, seqs + [k]) == Some(Fetched(entries, seqs).value + [entries[k]])
  {
    assert (seqs + [k])[..|seqs|] == seqs;
  }

  /** Where entries are in place, fetching by the index is filtering the list. */
  lemma {:induction false} FetchingIsFiltering(entries: seq<LedgerEntry>, n: nat, id: string)
    requires InPlace(entries) && n <= |entries|
    ensures Fetched(entries, SeqsOf(entries[..n], id)) == Some(EventsFor(entries[..n], id))
  {
    if n > 0 {
      hide SeqsOf, EventsFor, Fetched;
      var init, last := entries[..n - 1], entries[n - 1];
      FetchingIsFiltering(entries, n - 1, id);
      assert entries[..n] == init + [last];
      SeqsOfOneMore(init, last, id);
      EventsForOneMore(init, last, id);
      if last.requestId == Some(id) {
        FetchedOneMore(entries, SeqsOf(init, id), n - 1);
      } else {
        assert SeqsOf(init, id) + [] == SeqsOf(init, id) && EventsFor(init, id) + [] == EventsFor(init, id);
      }
    }
  }

  class MemoryEventStore {
    const logId: string
    var entries: seq<LedgerEntry>
    var byRequest: map<string, seq<int>>

    ghost predicate Valid()
      reads this
    {
      Indexes(byRequest, entries)
    }

    constructor (logId: string)
      ensures Valid() && this.logId == logId && entries == [] && InPlace(entries)
    {
      this.logId := logId;
      entries := [];
      byRequest := map[];
    }

    /** Entries loaded verbatim, in place or not. */
    constructor FromEntries(loaded: seq<LedgerEntry>, logId: string)
      ensures Valid() && this.logId == logId && entries == loaded
    {
      this.logId := logId;
      entries := loaded;
      byRequest := map[];
      new;
      for i := 0 to |loaded|
        invariant entries == loaded && Indexes(byRequest, loaded[..i])
      {
        var entry := loaded[i];
        NotedIndexes(byRequest, loaded[..i], entry);
        assert loaded[..i] + [entry] == loaded[..i + 1];
        byRequest := Noted(byRequest, entry);
      }
      assert loaded[..|loaded|] == loaded;
    }

    method Head() returns (e: Option<LedgerEntry>)
      ensures e == HeadOf(entries)
    {
      e := if |entries| > 0 then Some(entries[|entries| - 1]) else None;
    }

    /** `LedgerConflict` unless the seq is the next one. */
    method Append(e: LedgerEntry) returns (ok: bool)
      requires Valid()
      modifies this
      ensures Valid() && ok == (e.seqNo == |old(entries)|)
      ensures entries == if ok then old(entries) + [e] else old(entries)
      ensures old(InPlace(entries)) ==> InPlace(entries)
    {
      if e.seqNo != |entries| {
        return false;
      }
      NotedIndexes(byRequest, entries, e);
      entries := entries + [e];
      byRequest := Noted(byRequest, e);
      return true;
    }

    method GetBySeq(s: int) returns (e: Option<LedgerEntry>)
      ensures e == if 0 <= s < |entries| then Some(entries[s]) else None
    {
      e := if 0 <= s < |entries| then Some(entries[s]) else None;
    }

    /** Through the index; on entries in place it is exactly the request's entries. */
    method EventsForRequest(id: string) returns (events: Option<seq<LedgerEntry>>)
      requires Valid()
      ensures InPlace(entries) ==> events == Some(if id == "" then [] else EventsFor(entries, id))
      ensures events == if id == "" then Some([]) else Fetched(entries, SeqsOf(entries, id))
    {
      var seqs := if id in byRequest then byRequest[id] else [];
      assert IndexesAt(byRequest, entries, id);
      FetchingEmpty(entries);
      if InPlace(entries) {
        FetchingIsFiltering(entries, |entries|, id);
        assert entries[..|entries|] == entries;
      }
      var found := [];
      for i := 0 to |seqs|
        invariant Fetched(entries, seqs[..i]) == Some(found)
      {
        assert seqs[..i + 1][..i] == seqs[..i];
        FetchedStops(entries, seqs, i + 1);
        var e := At(entries, seqs[i]);
        if e.None? {
          return None;
        }
        found := found + [e.value];
      }
      assert seqs[..|seqs|] == seqs;
      return Some(found);
    }

    method Scan(start: nat, limit: Option<nat>) returns (found: seq<LedgerEntry>)
      ensures found == Audit.ScanFrom(entries, start, limit)
    {
      var stop := |entries|;
      if limit.Some? && start + limit.value < stop {
        stop := start + limit.value;
      }
      found := if start <= stop then entries[start..stop] else [];
    }

    method LeafHashes(upTo: Option<int>) returns (hashes: seq<string>)
      ensures hashes == if upTo.None? then Leaves(entries) else SliceTo(Leaves(entries), upTo.value)
    {
      hashes := [];
      for i := 0 to |entries|
        invariant hashes == Leaves(entries[..i])
      {
        assert Leaves(entries[..i + 1]) == Leaves(entries[..i]) + [entries[i].entryHash];
        hashes := hashes + [entries[i].entryHash];
      }
      assert entries[..|entries|] == entries;
      if upTo.Some? {
        hashes := SliceTo(hashes, upTo.value);
      }
    }

    /** The last published checkpoint, searched from the end; `None` is a payload that raises. */
    method LatestPublished() returns (cp: Option<Option<Checkpoint>>)
      ensures cp == LatestCheckpoint(entries)
    {
      var i := |entries|;
      assert entries[..i] == entries;
      while i > 0
        invariant 0 <= i <= |entries|
        invariant LatestCheckpoint(entries) == LatestCheckpoint(entries[..i])
      {
        i := i - 1;
        assert entries[..i + 1][..i] == entries[..i];
        if entries[i].eventType == PUBLISHED {
          var found := CheckpointFromJson(entries[i].payload);
          return if found.None? then None else Some(found);
        }
      }
      return Some(None);
    }
  }

  lemma FetchingEmpty(entries: seq<LedgerEntry>)
    ensures Fetched(entries, []) == Some([])
  {
  }

  datatype Reserved = Won | Lost(response: Option<string>) | Conflict

  class MemoryIdempotencyStore {
    var data: map<string, Protocol.Reservation>

    constructor ()
      ensures data == map[]
    {
      data := map[];
    }

    /** Insert if absent; a loser learns the winner's response, if it has completed. */
    method Reserve(key: string, fingerprint: string) returns (r: Reserved)
      modifies this
      ensures r.Won? <==> key !in old(data)
      ensures r.Won? ==> data == old(data)[key := Protocol.Reservation(fingerprint, None)]
      ensures !r.Won? ==> data == old(data)
      ensures r.Conflict? <==> key in old(data) && old(data)[key].fingerprint != fingerprint
      ensures r.Lost? ==> r.response == data[key].response
    {
      if key !in data {
        data := data[key := Protocol.Reservation(fingerprint, None)];
        return Won;
      }
      if data[key].fingerprint != fingerprint {
        return Conflict;
      }
      return Lost(data[key].response);
    }

    /** `KeyError` when the key is not reserved. */
    method Complete(key: string, response: string) returns (ok: bool)
      modifies this
      ensures ok == (key in old(data))
      ensures data == if ok then old(data)[key := old(data)[key].(response := Some(response))] else old(data)
    {
      if key !in data {
        return false;
      }
      data := data[key := data[key].(response := Some(response))];
      return true;
    }

    method Release(key: string)
      modifies this
      ensures data == old(data) - {key}
    {
      data := data - {key};
    }
  }

  class MemoryProjectionStore {
    var views: map<string, View>

    constructor ()
      ensures views == map[]
    {
      views := map[];
    }

    method Put(v: View)
      modifies this
      ensures views == Upsert(old(views), v)
      ensures v.requestId in views && views[v.requestId].lastSeq >= v.lastSeq
      ensures forall id :: id in old(views) ==> id in views && views[id].lastSeq >= old(views)[id].lastSeq
    {
      if v.requestId in views && views[v.requestId].lastSeq > v.lastSeq {
        return;
      }
      views := views[v.requestId := v];
    }

    method Clear()
      modifies this
      ensures views == map[]
    {
      views := map[];
    }
  }
}
