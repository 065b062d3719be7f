/** What a rebuild answers and stores, said in terms of the ledger. */
module Rebuilds {
  import opened ByteStrings
  import opened JsonText
  import opened Canonical
  import opened Models
  import opened Chain
  import opened PolicyEngine
  import opened Verifier
  import opened Ceremony
  import opened Reads
  import opened Records
  import opened Operations
  import opened LedgerHealth
  import opened SequentialRuns
  import opened Renderings
  import opened Answers
  import opened ReadModel
  import FalseAlarms

  // ------------------------------------------------------------- the last position

  /** The last entry filed under the id is at this position. */
  predicate LastPlace(log: seq<LedgerEntry>, id: string, i: int) {
    && 0 <= i < |log| && log[i].requestId == Some(id)
    && forall j :: i < j < |log| ==> log[j].requestId != Some(id)
  }

  predicate Numbered(log: seq<LedgerEntry>) {
    forall i :: 0 <= i < |log| ==> log[i].seqNo == i
  }

  lemma {:induction false} HighestIsLast(log: seq<LedgerEntry>, id: string)
    requires Numbered(log)
    ensures EventsFor(log, id) != [] ==> LastPlace(log, id, MaxSeq(EventsFor(log, id)))
  {
    hide EventsFor, MaxSeq;
    if log != [] {
      var n := |log| - 1;
      var init, last := log[..n], log[n];
      assert log == init + [last];
      HighestIsLast(init, id);
      EventsForOneMore(init, last, id);
      if last.requestId == Some(id) {
        EventsForOnly(init, id);
        forall x | x in EventsFor(init, id)
          ensures x.seqNo < last.seqNo
        {
          var i :| 0 <= i < n && init[i] == x;
        }
        MaxSeqLast(EventsFor(init, id), last);
      } else {
        assert EventsFor(log, id) == EventsFor(init, id) + [] == EventsFor(init, id);
      }
    } else {
      NoEventsInNothing(id);
    }
  }

  lemma NoEventsInNothing(id: string)
    ensures EventsFor([], id) == []
  {
  }

  lemma LinkedIsNumbered(H: Hash, log: seq<LedgerEntry>)
    requires Linked(H, log, 0, ZERO_HASH)
    ensures Numbered(log)
  {
    hide CoreHash;
    forall i | 0 <= i < |log|
      ensures log[i].seqNo == i
    {
      assert LinkedAt(H, log, i, 0, ZERO_HASH);
    }
  }

  // -------------------------------------------------------------------- rebuilding

  /** The status of the id can be told at this time. */
  ghost predicate CanTell(env: Env, log: seq<LedgerEntry>, id: string, now: string) {
    LoadRequest(log, id).Found? && Tellable(env, LoadRequest(log, id).request, RecordedUnder(log, id), now)
  }

  /** The view is the truth about the id: its true record at this time, at its last position. */
  ghost predicate TrueView(env: Env, log: seq<LedgerEntry>, id: string, now: string, v: View) {
    exists record: Record ::
      && TrueRecord(env, log, id, now, record) && record.request.policyId in env.policies
      && Shows(env, record, now, v.lastSeq, v) && LastPlace(log, id, v.lastSeq)
  }

  /** Where requests are opened. */
  function Openings(log: seq<LedgerEntry>): set<int> {
    set i | 0 <= i < |log| && log[i].eventType == "request.created"
  }

  /** The opening at this position is the first of a request whose status cannot be told. */
  ghost predicate StopsAt(env: Env, log: seq<LedgerEntry>, now: string, i: nat) {
    && i < |log| && log[i].eventType == "request.created" && log[i].requestId.Some? && !CanTell(env, log, log[i].requestId.value, now)
    && forall j :: 0 <= j < i && log[j].eventType == "request.created" && log[j].requestId.Some? ==>
         CanTell(env, log, log[j].requestId.value, now)
  }

  /** What `rebuild_projections` should answer and leave: an exception exactly when the status of some
      request ever opened cannot be told, and then one true view for each request opened before the first
      such; otherwise how many were opened, and one true view for each. */
  ghost predicate RebuildTold(s: Service, st: Stores, now: string, after: Stores, rebuilt: Option<nat>) {
    && after.log == st.log && after.keys == st.keys
    && (rebuilt.Some? <==> forall id :: OpenedUnder(st.log, id) ==> CanTell(s.env, st.log, id, now))
    && (rebuilt.Some? ==>
         && rebuilt.value == |Openings(st.log)|
         && forall id :: id in after.views <==> OpenedUnder(st.log, id))
    && (rebuilt.None? ==>
         exists i: nat :: StopsAt(s.env, st.log, now, i) && forall id :: id in after.views <==> OpenedUnder(st.log[..i], id))
    && forall id :: id in after.views ==> TrueView(s.env, st.log, id, now, after.views[id])
  }

  lemma {:induction false} RebuildReturnsExactly(s: Service, log: seq<LedgerEntry>, ids: seq<string>, now: string)
    requires s.projects && EntriesOk(s.env, log) && forall id :: id in ids ==> LoadRequest(log, id).Found?
    ensures RebuildAll(s, log, ids, now).rebuilt
         == if forall id :: id in ids ==> CanTell(s.env, log, id, now) then Some(|ids|) else None
    decreases |ids|
  {
    hide EntriesOk, LoadRequest, CanTell, RebuildOne;
    if ids != [] {
      var init, last := ids[..|ids| - 1], ids[|ids| - 1];
      assert ids == init + [last];
      RebuildReturnsExactly(s, log, init, now);
      if RebuildAll(s, log, init, now).rebuilt.Some? {
        OneIsTold(s, log, RebuildAll(s, log, init, now), last, now);
      }
    }
  }

  lemma OneIsTold(s: Service, log: seq<LedgerEntry>, so: Rebuilding, id: string, now: string)
    requires s.projects && EntriesOk(s.env, log) && so.rebuilt.Some? && LoadRequest(log, id).Found?
    ensures RebuildOne(s, log, so, id, now).rebuilt == if CanTell(s.env, log, id, now) then Some(so.rebuilt.value + 1) else None
  {
    hide EntriesOk, LoadRequest, Recompute, EventsFor, MaxSeq, ProjectRecord, TrueRecord, Tellable, RecordedUnder;
    DerivesTruth(s.env, log, id, now);
  }

  lemma OneMoreOpening(log: seq<LedgerEntry>, e: LedgerEntry)
    ensures |Openings(log + [e])| == |Openings(log)| + if e.eventType == "request.created" then 1 else 0
  {
    var n := |log|;
    assert Openings(log + [e]) == if e.eventType == "request.created" then Openings(log) + {n} else Openings(log);
  }

  lemma {:induction false} AsManyAsOpened(log: seq<LedgerEntry>)
    requires forall e :: e in log && e.eventType == "request.created" ==> e.requestId.Some? && e.requestId.value != ""
    ensures |CreatedIds(log)| == |Openings(log)|
  {
    hide Openings;
    if log == [] {
      NothingOpened();
    } else {
      var init, last := log[..|log| - 1], log[|log| - 1];
      assert log == init + [last];
      AsManyAsOpened(init);
      OneMoreOpening(init, last);
      assert last in log;
    }
  }

  lemma NothingOpened()
    ensures Openings([]) == {}
  {
  }

  lemma OpenedAreNamed(env: Env, log: seq<LedgerEntry>, e: LedgerEntry)
    requires EntriesOk(env, log) && e in log && e.eventType == "request.created"
    ensures e.requestId.Some? && e.requestId.value != ""
  {
    hide EntriesOk, RequestId, LoadRequest, RequestFromJson, Pinned;
    CreatedHere(env, log, e);
    FalseAlarms.IdIsNotEmpty(env.gate.H, RequestFromJson(e.payload).value);
  }

  lemma ViewIsTrue(env: Env, log: seq<LedgerEntry>, id: string, now: string)
    requires Sound(env, log) && LoadRequest(log, id).Found? && ViewNow(env, log, id, now).Some?
    ensures TrueView(env, log, id, now, ViewNow(env, log, id, now).value)
  {
    hide EntriesOk, Linked, LoadRequest, Recompute, MaxSeq, Tellable, RecordedUnder, BuildView, Shows, Numbered, EventsFor;
    DerivesTruth(env, log, id, now);
    LinkedIsNumbered(env.gate.H, log);
    HighestIsLast(log, id);
    var r := LoadRequest(log, id).request;
    var record := Recompute(env, log, r, now).record;
    var e := LoadedFromEntry(log, id);
    EventsForOnly(log, id);
    DerivedFor(env, log, r, now);
    BuiltShows(env, record, MaxSeq(EventsFor(log, id)), now);
    BuiltIsFiled(env, record, MaxSeq(EventsFor(log, id)), now);
  }

  lemma RebuildIsTold(s: Service, st: Stores, now: string)
    requires s.projects && Sound(s.env, st.log)
    ensures RebuildTold(s, st, now, Rebuild(s, st, now).0, Rebuild(s, st, now).1)
  {
    hide EntriesOk, Linked, LoadRequest, CanTell, RebuildAll, CreatedIds, OpenedUnder, TrueView, ViewNow, Openings;
    var ids := CreatedIds(st.log);
    HealthyLoads(s.env, st.log);
    forall id
      ensures (id in ids <==> LoadRequest(st.log, id).Found?) && (LoadRequest(st.log, id).Found? <==> OpenedUnder(st.log, id))
    {
      CreatedIdsLoad(s.env, st.log, id);
      LoadsIfOpened(s.env, st.log, id);
    }
    RebuildReturnsExactly(s, st.log, ids, now);
    forall e | e in st.log && e.eventType == "request.created"
      ensures e.requestId.Some? && e.requestId.value != ""
    {
      OpenedAreNamed(s.env, st.log, e);
    }
    AsManyAsOpened(st.log);
    var n := RebuiltBefore(s, st.log, now);
    RebuiltAreTrue(s, st.log, now, n);
    assert st.log[..|st.log|] == st.log;
  }

  /** How far a rebuild gets. */
  lemma RebuiltBefore(s: Service, log: seq<LedgerEntry>, now: string) returns (n: nat)
    requires s.projects && EntriesOk(s.env, log)
    requires forall e :: e in log && e.eventType == "request.created" ==> e.requestId.Some? && e.requestId.value != ""
    ensures n <= |log| && RebuildAll(s, log, CreatedIds(log[..n]), now).rebuilt.Some?
    ensures RebuildAll(s, log, CreatedIds(log), now).views == RebuildAll(s, log, CreatedIds(log[..n]), now).views
    ensures if RebuildAll(s, log, CreatedIds(log), now).rebuilt.Some? then n == |log| else StopsAt(s.env, log, now, n)
  {
    hide EntriesOk, RebuildAll, CreatedIds, CanTell;
    n := 0;
    NothingRebuilt(s, log, now);
    while n < |log|
      invariant n <= |log| && RebuildAll(s, log, CreatedIds(log[..n]), now).rebuilt.Some?
      invariant forall j :: 0 <= j < n && log[j].eventType == "request.created" && log[j].requestId.Some? ==>
                  CanTell(s.env, log, log[j].requestId.value, now)
    {
      OneMoreCreated(s, log, now, n);
      if RebuildAll(s, log, CreatedIds(log[..n + 1]), now).rebuilt.None? {
        StoppedStays(s, log, now, n + 1);
        return;
      }
      n := n + 1;
    }
    assert log[..n] == log;
  }

  lemma NothingRebuilt(s: Service, log: seq<LedgerEntry>, now: string)
    ensures RebuildAll(s, log, CreatedIds(log[..0]), now).rebuilt.Some?
  {
  }

  lemma OneMoreCreated(s: Service, log: seq<LedgerEntry>, now: string, n: nat)
    requires s.projects && EntriesOk(s.env, log) && n < |log| && RebuildAll(s, log, CreatedIds(log[..n]), now).rebuilt.Some?
    requires forall e :: e in log && e.eventType == "request.created" ==> e.requestId.Some? && e.requestId.value != ""
    ensures var before, after := RebuildAll(s, log, CreatedIds(log[..n]), now), RebuildAll(s, log, CreatedIds(log[..n + 1]), now);
            var opens := log[n].eventType == "request.created" && log[n].requestId.Some?;
            && (after.rebuilt.Some? <==> (opens ==> CanTell(s.env, log, log[n].requestId.value, now)))
            && (after.rebuilt.None? ==> after.views == before.views)
  {
    hide EntriesOk, RebuildOne, CanTell;
    assert log[..n + 1][..n] == log[..n];
    var ids := CreatedIds(log[..n]);
    if log[n].eventType == "request.created" && log[n].requestId.Some? {
      var id := log[n].requestId.value;
      assert log[n] in log;
      assert CreatedIds(log[..n + 1]) == ids + [id];
      assert (ids + [id])[..|ids|] == ids;
      OpenedLoads(s.env, log, log[n]);
      OneIsTold(s, log, RebuildAll(s, log, ids, now), id, now);
      RaisingKeepsViews(s, log, RebuildAll(s, log, ids, now), id, now);
    } else {
      assert CreatedIds(log[..n + 1]) == ids;
    }
  }

  lemma OpenedLoads(env: Env, log: seq<LedgerEntry>, e: LedgerEntry)
    requires EntriesOk(env, log) && e in log && e.eventType == "request.created" && e.requestId.Some?
    ensures LoadRequest(log, e.requestId.value).Found?
  {
    hide EntriesOk, LoadRequest;
    LoadsIfOpened(env, log, e.requestId.value);
    assert OpenedUnder(log, e.requestId.value);
  }

  lemma RaisingKeepsViews(s: Service, log: seq<LedgerEntry>, so: Rebuilding, id: string, now: string)
    requires so.rebuilt.Some?
    ensures RebuildOne(s, log, so, id, now).rebuilt.None? ==> RebuildOne(s, log, so, id, now).views == so.views
  {
    hide LoadRequest, Project, EventsFor, MaxSeq;
  }

  /** Once a rebuild has raised, nothing more is stored. */
  lemma {:induction false} StoppedStays(s: Service, log: seq<LedgerEntry>, now: string, n: nat)
    requires n <= |log| && RebuildAll(s, log, CreatedIds(log[..n]), now).rebuilt.None?
    ensures RebuildAll(s, log, CreatedIds(log), now) == RebuildAll(s, log, CreatedIds(log[..n]), now)
    decreases |log| - n
  {
    hide RebuildOne;
    if n < |log| {
      assert log[..n + 1][..n] == log[..n];
      var ids, more := CreatedIds(log[..n]), CreatedIds(log[..n + 1]);
      assert more == ids || (|more| == |ids| + 1 && more[..|ids|] == ids);
      StoppedStays(s, log, now, n + 1);
    } else {
      assert log[..n] == log;
    }
  }

  lemma RebuiltAreTrue(s: Service, log: seq<LedgerEntry>, now: string, n: nat)
    requires s.projects && Sound(s.env, log) && n <= |log| && RebuildAll(s, log, CreatedIds(log[..n]), now).rebuilt.Some?
    requires forall e :: e in log && e.eventType == "request.created" ==> e.requestId.Some? && e.requestId.value != ""
    ensures var views := RebuildAll(s, log, CreatedIds(log[..n]), now).views;
            && (forall id :: id in views <==> OpenedUnder(log[..n], id))
            && forall id :: id in views ==> TrueView(s.env, log, id, now, views[id])
  {
    hide EntriesOk, Linked, LoadRequest, RebuildAll, CreatedIds, TrueView, ViewNow;
    var ids, views := CreatedIds(log[..n]), RebuildAll(s, log, CreatedIds(log[..n]), now).views;
    HealthyLoads(s.env, log);
    RebuildIsTruth(s, log, ids, now);
    forall id
      ensures id in views <==> OpenedUnder(log[..n], id)
      ensures id in views ==> TrueView(s.env, log, id, now, views[id])
    {
      CreatedIdsAre(log[..n], id);
      if OpenedUnder(log[..n], id) {
        var e :| e in log[..n] && e.eventType == "request.created" && e.requestId == Some(id);
        assert e in log;
        OpenedLoads(s.env, log, e);
      }
      if id in views {
        ViewIsTrue(s.env, log, id, now);
      }
    }
  }

  /** In every run, whatever the clock reads, a rebuild answers and leaves what it should. */
  lemma RebuildAnswers(s: Service, ops: seq<Op>, now: string)
    requires s.projects
    ensures RebuildTold(s, RunAll(s, ops), now, Rebuild(s, RunAll(s, ops), now).0, Rebuild(s, RunAll(s, ops), now).1)
  {
    hide RunAll, Rebuild, RebuildTold, Sound;
    EveryRunIsSound(s, ops);
    RebuildIsTold(s, RunAll(s, ops), now);
  }
}
