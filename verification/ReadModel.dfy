/** The read model against the truth: what a rebuild leaves, and that the views kept up to date call
    by call are the same up to their time stamp and expiry. */
module ReadModel {
  import opened ByteStrings
  import opened JsonText
  import opened Canonical
  import opened Models
  import opened Datetime
  import opened Chain
  import opened PolicyEngine
  import opened PolicyTheorems
  import opened Verifier
  import opened Envelope
  import opened SignedCheckpoints
  import opened Ceremony
  import opened Reads
  import opened Records
  import opened Operations
  import opened LedgerHealth
  import opened SequentialRuns
  import opened FalseAlarms

  // ------------------------------------------------------------------ rebuild

  /** The view of a request's present record. */
  function ViewNow(env: Env, log: seq<LedgerEntry>, id: string, now: string): Option<View> {
    match LoadRequest(log, id)
    case Found(r) =>
      (match Recompute(env, log, r, now)
       case Derived(record) =>
         Some(BuildView(env.gate.H, record, env.policies[r.policyId], env.gate.identities, MaxSeq(EventsFor(log, id)), now))
       case _ => None)
    case _ => None
  }

  ghost predicate LoadsByItsId(H: Hash, log: seq<LedgerEntry>) {
    forall id :: LoadRequest(log, id).Found? ==> RequestId(H, LoadRequest(log, id).request) == id
  }

  /** When a rebuild finishes, the store holds exactly one view for each id that loads, and it is
      the view of that request's present record, at the request's highest position. */
  lemma {:induction false} RebuildIsTruth(s: Service, log: seq<LedgerEntry>, ids: seq<string>, now: string)
    requires s.projects && LoadsByItsId(s.env.gate.H, log)
    requires RebuildAll(s, log, ids, now).rebuilt.Some?
    ensures forall id :: id in RebuildAll(s, log, ids, now).views <==> id in ids && LoadRequest(log, id).Found?
    ensures forall id :: id in RebuildAll(s, log, ids, now).views ==>
              ViewNow(s.env, log, id, now) == Some(RebuildAll(s, log, ids, now).views[id])
    decreases |ids|
  {
    hide LoadRequest, Recompute, RequestId, EventsFor, MaxSeq, LoadsByItsId, ViewNow, BuildView, RebuildOne;
    if ids != [] {
      var init, last := ids[..|ids| - 1], ids[|ids| - 1];
      assert ids == init + [last];
      var so := RebuildAll(s, log, init, now);
      RebuildIsTruth(s, log, init, now);
      RebuiltOne(s, log, so, last, now);
    }
  }

  lemma RebuiltOne(s: Service, log: seq<LedgerEntry>, so: Rebuilding, id: string, now: string)
    requires s.projects && LoadsByItsId(s.env.gate.H, log) && so.rebuilt.Some?
    requires RebuildOne(s, log, so, id, now).rebuilt.Some?
    requires id in so.views ==> ViewNow(s.env, log, id, now) == Some(so.views[id])
    ensures var after := RebuildOne(s, log, so, id, now).views;
            if LoadRequest(log, id).Found? then
              ViewNow(s.env, log, id, now).Some? && after == so.views[id := ViewNow(s.env, log, id, now).value]
            else after == so.views
    ensures RebuildOne(s, log, so, id, now).rebuilt.value == so.rebuilt.value + if LoadRequest(log, id).Found? then 1 else 0
  {
    hide LoadRequest, Recompute, RequestId, EventsFor, MaxSeq, SortedKeys, Undecided;
    if LoadRequest(log, id).Found? {
      var r := LoadRequest(log, id).request;
      if Recompute(s.env, log, r, now).Derived? {
        DerivedFor(s.env, log, r, now);
      }
      PolicyKnown(s.env, log, r, now);
    }
  }

  lemma PolicyKnown(env: Env, log: seq<LedgerEntry>, r: Request, at: string)
    requires Recompute(env, log, r, at).Derived?
    ensures r.policyId in env.policies
  {
  }

  /** The ledger is sound, and its requests were created at clock readings. */
  ghost predicate Dated(env: Env, log: seq<LedgerEntry>) {
    Sound(env, log) && CreatedByClock(env.gate.trust.parse, log)
  }

  // ------------------------------------------------- what a rebuild needs to finish

  lemma {:induction false} CreatedIdsAre(log: seq<LedgerEntry>, id: string)
    ensures id in CreatedIds(log) <==> id != "" && exists e :: e in log && e.eventType == CREATED && e.requestId == Some(id)
  {
    if log != [] {
      var init, last := log[..|log| - 1], log[|log| - 1];
      assert log == init + [last];
      assert forall e :: e in log <==> e in init || e == last;
      CreatedIdsAre(init, id);
    }
  }

  /** On a healthy ledger the created ids are exactly those that load. */
  lemma CreatedIdsLoad(env: Env, log: seq<LedgerEntry>, id: string)
    requires EntriesOk(env, log)
    ensures id in CreatedIds(log) <==> LoadRequest(log, id).Found?
  {
    hide EntriesOk, LoadRequest, RequestFromJson, RequestId, CreatedIds, Pinned;
    CreatedIdsAre(log, id);
    forall e | e in log && e.eventType == CREATED && e.requestId == Some(id)
      ensures LoadRequest(log, id).Found?
    {
      CreatedHere(env, log, e);
    }
    if LoadRequest(log, id).Found? {
      var e := LoadedFromEntry(log, id);
      CreatedHere(env, log, e);
      IdIsNotEmpty(env.gate.H, RequestFromJson(e.payload).value);
    }
  }

  /** What loads has a deadline that can be told, when every opened request has. */
  lemma LoadedWindowOpens(env: Env, log: seq<LedgerEntry>, id: string)
    requires WindowsOpen(env, log) && LoadRequest(log, id).Found?
    ensures WindowOpens(env, LoadRequest(log, id).request)
  {
    hide LoadRequest, RequestFromJson;
    var e := LoadedFromEntry(log, id);
  }

  lemma HealthyLoads(env: Env, log: seq<LedgerEntry>)
    requires EntriesOk(env, log)
    ensures LoadsByItsId(env.gate.H, log)
  {
    hide EntriesOk, LoadRequest, RequestId;
    forall id | LoadRequest(log, id).Found?
      ensures RequestId(env.gate.H, LoadRequest(log, id).request) == id
    {
      LoadedHasItsId(env, log, id);
    }
  }

  /** A rebuild finishes exactly when the deadline of every request can be told. */
  lemma {:induction false} RebuildFinishes(s: Service, log: seq<LedgerEntry>, ids: seq<string>, now: string)
    requires s.projects && EntriesOk(s.env, log) && CreatedByClock(s.env.gate.trust.parse, log)
    requires ClockReading(s.env.gate.trust.parse, now).Some? && forall id :: id in ids ==> LoadRequest(log, id).Found?
    ensures RebuildAll(s, log, ids, now).rebuilt
         == if forall id :: id in ids ==> WindowOpens(s.env, LoadRequest(log, id).request) then Some(|ids|) else None
    decreases |ids|
  {
    hide EntriesOk, CreatedByClock, ClockReading, LoadRequest, WindowOpens, RebuildOne;
    if ids != [] {
      var init, last := ids[..|ids| - 1], ids[|ids| - 1];
      assert ids == init + [last];
      RebuildFinishes(s, log, init, now);
      if RebuildAll(s, log, init, now).rebuilt.Some? {
        RebuildsThis(s, log, RebuildAll(s, log, init, now), last, now);
      }
    }
  }

  lemma RebuildsThis(s: Service, log: seq<LedgerEntry>, so: Rebuilding, id: string, now: string)
    requires s.projects && EntriesOk(s.env, log) && CreatedByClock(s.env.gate.trust.parse, log)
    requires ClockReading(s.env.gate.trust.parse, now).Some? && so.rebuilt.Some? && LoadRequest(log, id).Found?
    ensures RebuildOne(s, log, so, id, now).rebuilt
         == if WindowOpens(s.env, LoadRequest(log, id).request) then Some(so.rebuilt.value + 1) else None
  {
    hide EntriesOk, CreatedByClock, ClockReading, LoadRequest, Recompute, WindowOpens, EventsFor, MaxSeq, ProjectRecord, StatusAt;
    hide CaseFor, Judge, Voices, DecisionsIn, Clock;
    DerivesNow(s.env, log, id, now);
  }

  // -------------------------------------------------------- views kept up to date

  /** The view a request had when its status was derived at time `t` and stored at `u`, over the
      events it has now. */
  function ViewAt(env: Env, events: seq<LedgerEntry>, r: Request, t: int, u: string): Option<View> {
    var c :- CaseFor(env, r);
    var ds := DecisionsIn(events);
    Some(BuildView(env.gate.H, Record(r, ds, Judge(c, Voices(c, ds), t)), env.policies[r.policyId], env.gate.identities,
                   MaxSeq(events), u))
  }

  ghost predicate RenderedOk(env: Env, views: map<string, View>, events: seq<LedgerEntry>, id: string, clock: int) {
    && (id in views <==> FirstCreated(events).Found?)
    && (id in views ==>
         exists t, u :: t <= clock && ViewAt(env, events, FirstCreated(events).request, t, u) == Some(views[id]))
  }

  ghost predicate Rendered(env: Env, views: map<string, View>, log: seq<LedgerEntry>, clock: int) {
    forall id :: RenderedOk(env, views, EventsFor(log, id), id, clock)
  }

  lemma RenderedLater(env: Env, views: map<string, View>, log: seq<LedgerEntry>, clock: int, later: int)
    requires Rendered(env, views, log, clock) && clock <= later
    ensures Rendered(env, views, log, later)
  {
    hide EventsFor, FirstCreated, ViewAt;
    forall id
      ensures RenderedOk(env, views, EventsFor(log, id), id, later)
    {
      assert RenderedOk(env, views, EventsFor(log, id), id, clock);
    }
  }

  lemma RenderedAt(env: Env, views: map<string, View>, log: seq<LedgerEntry>, id: string, clock: int)
    requires Rendered(env, views, log, clock)
    ensures RenderedOk(env, views, EventsFor(log, id), id, clock)
  {
    hide RenderedOk, EventsFor;
  }

  /** One request's view is renewed, all others and their events stay. */
  lemma RenderedAround(env: Env, views: map<string, View>, log: seq<LedgerEntry>, after: seq<LedgerEntry>, id: string, v: View,
                       clock: int, later: int)
    requires Rendered(env, views, log, clock) && clock <= later && OthersAlike(log, after, id)
    requires RenderedOk(env, views[id := v], EventsFor(after, id), id, later)
    ensures Rendered(env, views[id := v], after, later)
  {
    hide ViewAt, FirstCreated, EventsFor;
    RenderedLater(env, views, log, clock, later);
    forall other
      ensures RenderedOk(env, views[id := v], EventsFor(after, other), other, later)
    {
      if other != id {
        assert RenderedOk(env, views, EventsFor(log, other), other, later);
      }
    }
  }

  lemma MaxSeqLast(events: seq<LedgerEntry>, e: LedgerEntry)
    requires forall x :: x in events ==> x.seqNo < e.seqNo
    ensures MaxSeq(events + [e]) == e.seqNo
  {
    assert (events + [e])[..|events|] == events;
    if events != [] {
      MaxSeqIsOne(events);
    }
  }

  lemma {:induction false} MaxSeqIsOne(events: seq<LedgerEntry>)
    requires events != []
    ensures exists x :: x in events && x.seqNo == MaxSeq(events)
  {
    if |events| > 1 {
      MaxSeqIsOne(events[..|events| - 1]);
    }
    assert events[|events| - 1] in events;
  }

  /** A new entry of a request is at its highest position. */
  lemma NewestIsHighest(H: Hash, log: seq<LedgerEntry>, d: Draft, id: string)
    requires Linked(H, log, 0, ZERO_HASH) && d.requestId == Some(id)
    ensures var e := EntryFor(H, log, d);
            && EventsFor(Appended(H, log, d), id) == EventsFor(log, id) + [e]
            && MaxSeq(EventsFor(Appended(H, log, d), id)) == e.seqNo == |log|
            && (EventsFor(log, id) != [] ==> MaxSeq(EventsFor(log, id)) < e.seqNo)
  {
    hide EventsFor, MaxSeq, CoreHash;
    var e := EntryFor(H, log, d);
    AppendedIsLinked(H, log, d);
    EventsForOneMore(log, e, id);
    EventsForOnly(log, id);
    forall x | x in EventsFor(log, id)
      ensures x.seqNo < e.seqNo
    {
      var i :| 0 <= i < |log| && log[i] == x;
      assert LinkedAt(H, log, i, 0, ZERO_HASH);
    }
    MaxSeqLast(EventsFor(log, id), e);
    if EventsFor(log, id) != [] {
      MaxSeqIsOne(EventsFor(log, id));
    }
  }

  lemma DerivesView(env: Env, log: seq<LedgerEntry>, id: string, at: string, u: string)
    requires Dated(env, log) && LoadRequest(log, id).Found? && ClockReading(env.gate.trust.parse, at).Some?
    requires WindowOpens(env, LoadRequest(log, id).request)
    ensures var r := LoadRequest(log, id).request;
            && Recompute(env, log, r, at).Derived? && Recompute(env, log, r, at).record.request == r
            && r.policyId in env.policies && RequestId(env.gate.H, r) == id
            && ViewAt(env, EventsFor(log, id), r, Clock(env.gate.trust.parse, at), u)
               == Some(BuildView(env.gate.H, Recompute(env, log, r, at).record, env.policies[r.policyId], env.gate.identities,
                                 MaxSeq(EventsFor(log, id)), u))
            && Recompute(env, log, r, at).record.decisions == DecisionsIn(EventsFor(log, id))
  {
    hide EntriesOk, Linked, CreatedByClock, ClockReading, LoadRequest, Recompute, DecisionsIn, EventsFor, Judge, Voices, BuildView, MaxSeq;
    hide RequestId, CaseFor;
    DerivesNow(env, log, id, at);
    LoadedHasItsId(env, log, id);
    RecordIs(Recompute(env, log, LoadRequest(log, id).request, at).record);
  }

  lemma RecordIs(record: Record)
    ensures record == Record(record.request, record.decisions, record.result)
  {
  }

  lemma BuiltHasId(H: Hash, record: Record, p: Policy, identities: map<string, Identity>, lastSeq: int, updatedAt: string)
    ensures var v := BuildView(H, record, p, identities, lastSeq, updatedAt);
            v.requestId == RequestId(H, record.request) && v.lastSeq == lastSeq
  {
    hide RequestId;
  }

  lemma CreateRenders(s: Service, st: Stores, r: Request, clock: int)
    requires s.projects && Dated(s.env, st.log) && Rendered(s.env, st.views, st.log, clock)
    requires Pinned(s.env, r) && NotBefore(s.env.gate.trust.parse, clock, r.createdAt)
    requires WindowOpens(s.env, r)
    requires LoadRequest(st.log, RequestId(s.env.gate.H, r)).NotFound?
    ensures var log := Appended(s.env.gate.H, st.log, CreatedDraft(s.env.gate.H, r));
            var views := Project(s, log, st.views, r, r.createdAt, log[|st.log|].seqNo);
            views.Some? && Rendered(s.env, views.value, log, Clock(s.env.gate.trust.parse, r.createdAt))
  {
    hide Linked, EntriesOk, CreatedByClock, Pinned, LoadRequest, RequestId, Recompute, EventsFor, BuildView, ViewAt, MaxSeq, Rendered;
    hide RequestJson;
    var env, H := s.env, s.env.gate.H;
    var d := CreatedDraft(H, r);
    var id := RequestId(H, r);
    var log := Appended(H, st.log, d);
    var e := EntryFor(H, st.log, d);
    var now := Clock(env.gate.trust.parse, r.createdAt);
    CreateStep(env, st.log, r);
    OpenedByClock(env, st.log, r);
    NewestIsHighest(H, st.log, d, id);
    OnlyThisRequest(st.log, e, id);
    RenderedAt(env, st.views, st.log, id, clock);
    FoundIsFirst(st.log, id);
    CreatedLoads(env, log, e, r);
    DerivesView(env, log, id, r.createdAt, r.createdAt);
    var v := BuildView(H, Recompute(env, log, r, r.createdAt).record, env.policies[r.policyId], env.gate.identities, e.seqNo, r.createdAt);
    BuiltHasId(H, Recompute(env, log, r, r.createdAt).record, env.policies[r.policyId], env.gate.identities, e.seqNo, r.createdAt);
    FoundIsFirst(log, id);
    RenderedAround(env, st.views, st.log, log, id, v, clock, now);
  }

  lemma CreatedLoads(env: Env, log: seq<LedgerEntry>, e: LedgerEntry, r: Request)
    requires EntriesOk(env, log) && e in log && e.eventType == CREATED && e.payload == RequestJson(env.gate.H, r)
    ensures LoadRequest(log, RequestId(env.gate.H, r)) == Found(r)
  {
    hide EntriesOk, RequestId, RequestJson, LoadRequest, Pinned, RequestFromJson;
    CreatedHere(env, log, e);
    RequestRoundTrip(env.gate.H, r);
  }

  /** The ledger with the decision on it, and the record derived from that. */
  lemma AfterDecision(s: Service, st: Stores, r: Request, d: Decision, envelope: Json, t: Times, clock: int)
      returns (log: seq<LedgerEntry>, record: Record)
    requires Dated(s.env, st.log) && Rendered(s.env, st.views, st.log, clock)
    requires Ascending(s.env.gate.trust.parse, clock, SubmitOp(envelope, t))
    requires DecodeDecision(envelope) == Some(d) && LoadRequest(st.log, d.requestId) == Found(r)
    requires Screen(s.env.gate, envelope, d, r, t.screened).Passed? && WindowOpens(s.env, r)
    ensures log == Appended(s.env.gate.H, st.log, RecordedDraft(envelope, d)) && Linked(s.env.gate.H, log, 0, ZERO_HASH)
    ensures Recompute(s.env, log, r, t.evaluated) == Derived(record) && record.request == r
    ensures r.policyId in s.env.policies && RequestId(s.env.gate.H, r) == d.requestId
    ensures FirstCreated(EventsFor(log, d.requestId)) == Found(r) && OthersAlike(st.log, log, d.requestId)
    ensures MaxSeq(EventsFor(log, d.requestId)) == |st.log| == log[|log| - 1].seqNo
    ensures ViewAt(s.env, EventsFor(log, d.requestId), r, Clock(s.env.gate.trust.parse, t.evaluated), t.projected)
         == Some(BuildView(s.env.gate.H, record, s.env.policies[r.policyId], s.env.gate.identities, |st.log|, t.projected))
    ensures d.requestId in st.views ==> st.views[d.requestId].lastSeq < |st.log|
  {
    hide Linked, EntriesOk, CreatedByClock, WindowOpens, LoadRequest, RequestId, Recompute, EventsFor, BuildView, MaxSeq, Rendered, ViewAt;
    hide DecodeDecision, Screen, DecisionsIn, FirstCreated;
    var env, H := s.env, s.env.gate.H;
    var id := d.requestId;
    log := Appended(H, st.log, RecordedDraft(envelope, d));
    var e := EntryFor(H, st.log, RecordedDraft(envelope, d));
    AscendingBounds(env.gate.trust.parse, clock, envelope, t);
    RecordedStep(env, st.log, envelope, d, r, t.screened);
    ByClockLonger(env.gate.trust.parse, st.log, e);
    LoadRequestIsStable(st.log, [e], id);
    NewestIsHighest(H, st.log, RecordedDraft(envelope, d), id);
    OnlyThisRequest(st.log, e, id);
    DerivesView(env, log, id, t.evaluated, t.projected);
    record := Recompute(env, log, r, t.evaluated).record;
    FoundIsFirst(log, id);
    if id in st.views {
      StoredLower(env, st.views, st.log, id, clock);
    }
  }

  /** What recording does to the stores, once its record is known. */
  lemma RecordedStores(s: Service, st: Stores, r: Request, d: Decision, envelope: Json, t: Times, log: seq<LedgerEntry>, record: Record)
    requires s.projects && log == Appended(s.env.gate.H, st.log, RecordedDraft(envelope, d))
    requires Recompute(s.env, log, r, t.evaluated) == Derived(record) && record.request == r
    requires r.policyId in s.env.policies && RequestId(s.env.gate.H, r) == d.requestId
    requires d.requestId in st.views ==> st.views[d.requestId].lastSeq < |st.log|
    requires log[|log| - 1].seqNo == |st.log|
    ensures var after := RecordDecision(s, st, r, d, envelope, t).0;
            && after.log == (if record.result.status.Pending? then log
                             else Appended(s.env.gate.H, log, StatusDraft(s.env, record, t.evaluated, t.changed)))
            && after.views == st.views[d.requestId := BuildView(s.env.gate.H, record, s.env.policies[r.policyId],
                 s.env.gate.identities, after.log[|after.log| - 1].seqNo, t.projected)]
  {
    hide RequestId, Recompute, BuildView, StatusPayload, CanonicalHash;
    var after := RecordDecision(s, st, r, d, envelope, t).0;
    BuiltHasId(s.env.gate.H, record, s.env.policies[r.policyId], s.env.gate.identities, after.log[|after.log| - 1].seqNo, t.projected);
  }

  lemma FreshView(env: Env, views: map<string, View>, events: seq<LedgerEntry>, id: string, r: Request, t: int, u: string, v: View,
                  clock: int)
    requires FirstCreated(events) == Found(r) && ViewAt(env, events, r, t, u) == Some(v) && t <= clock
    ensures RenderedOk(env, views[id := v], events, id, clock)
  {
    hide ViewAt, FirstCreated;
  }

  /** Recording renews the view of the decision's request. */
  lemma RecordRenders(s: Service, st: Stores, r: Request, d: Decision, envelope: Json, t: Times, clock: int)
    requires s.projects && Dated(s.env, st.log) && Rendered(s.env, st.views, st.log, clock)
    requires Ascending(s.env.gate.trust.parse, clock, SubmitOp(envelope, t))
    requires DecodeDecision(envelope) == Some(d) && LoadRequest(st.log, d.requestId) == Found(r)
    requires Screen(s.env.gate, envelope, d, r, t.screened).Passed? && WindowOpens(s.env, r)
    ensures var after := RecordDecision(s, st, r, d, envelope, t).0;
            Rendered(s.env, after.views, after.log, Clock(s.env.gate.trust.parse, t.projected))
  {
    hide Dated, LoadRequest, RequestId, Recompute, EventsFor, BuildView, MaxSeq, Rendered, RenderedOk, ViewAt, RecordDecision, Linked;
    hide DecodeDecision, Screen, StatusPayload, FirstCreated, OthersAlike;
    var log, record := AfterDecision(s, st, r, d, envelope, t, clock);
    RecordedStores(s, st, r, d, envelope, t, log, record);
    AscendingBounds(s.env.gate.trust.parse, clock, envelope, t);
    var after := RecordDecision(s, st, r, d, envelope, t).0;
    var v := after.views[d.requestId];
    var evaluated, projected := Clock(s.env.gate.trust.parse, t.evaluated), Clock(s.env.gate.trust.parse, t.projected);
    if !record.result.status.Pending? {
      ChangeRenders(s.env, log, d.requestId, r, record, StatusDraft(s.env, record, t.evaluated, t.changed), evaluated, t.projected);
      TwiceAlike(st.log, log, after.log, d.requestId);
    }
    FreshView(s.env, st.views, EventsFor(after.log, d.requestId), d.requestId, r, evaluated, t.projected, v, projected);
    RenderedAround(s.env, st.views, st.log, after.log, d.requestId, v, clock, projected);
  }

  /** A status entry on top: the same record, one position higher. */
  lemma ChangeRenders(env: Env, log: seq<LedgerEntry>, id: string, r: Request, record: Record, draft: Draft, t: int, u: string)
    requires Linked(env.gate.H, log, 0, ZERO_HASH) && draft.eventType == STATUS_CHANGED && draft.requestId == Some(id)
    requires FirstCreated(EventsFor(log, id)) == Found(r) && r.policyId in env.policies
    requires ViewAt(env, EventsFor(log, id), r, t, u)
          == Some(BuildView(env.gate.H, record, env.policies[r.policyId], env.gate.identities, MaxSeq(EventsFor(log, id)), u))
    ensures var after := Appended(env.gate.H, log, draft);
            && OthersAlike(log, after, id)
            && FirstCreated(EventsFor(after, id)) == Found(r)
            && ViewAt(env, EventsFor(after, id), r, t, u)
               == Some(BuildView(env.gate.H, record, env.policies[r.policyId], env.gate.identities, after[|after| - 1].seqNo, u))
  {
    hide Linked, EventsFor, FirstCreated, MaxSeq, ViewAt, DecisionsIn;
    var events := EventsFor(log, id);
    var change := EntryFor(env.gate.H, log, draft);
    NewestIsHighest(env.gate.H, log, draft, id);
    OnlyThisRequest(log, change, id);
    FirstCreatedAppends(events, [change]);
    DecisionsInAppend(events, change);
    assert DecisionsIn(events) + [] == DecisionsIn(events);
    MovedView(env, events, events + [change], r, t, u);
    HigherView(env.gate.H, record, env.policies[r.policyId], env.gate.identities, MaxSeq(events), change.seqNo, u);
  }

  lemma HigherView(H: Hash, record: Record, p: Policy, identities: map<string, Identity>, n: int, m: int, u: string)
    ensures BuildView(H, record, p, identities, m, u) == BuildView(H, record, p, identities, n, u).(lastSeq := m)
  {
  }

  /** The stored view is not ahead of the events it was made from. */
  lemma StoredLower(env: Env, views: map<string, View>, log: seq<LedgerEntry>, id: string, clock: int)
    requires Rendered(env, views, log, clock) && id in views
    ensures views[id].lastSeq == MaxSeq(EventsFor(log, id)) && EventsFor(log, id) != []
  {
    hide RequestId, SortedKeys, Undecided, Judge, Voices, CaseFor, MaxSeq, EventsFor, DecisionsIn;
    RenderedAt(env, views, log, id, clock);
  }

  /** The same decisions at a higher position. */
  lemma MovedView(env: Env, events: seq<LedgerEntry>, longer: seq<LedgerEntry>, r: Request, t: int, u: string)
    requires DecisionsIn(longer) == DecisionsIn(events) && ViewAt(env, events, r, t, u).Some?
    ensures ViewAt(env, longer, r, t, u) == Some(ViewAt(env, events, r, t, u).value.(lastSeq := MaxSeq(longer)))
  {
    hide Judge, Voices, DecisionsIn, MaxSeq, RequestId, CaseFor, EligibleApprovers;
  }

  // -------------------------------------------------------------- whole runs

  lemma CreateOpRenders(s: Service, st: Stores, o: Opening, now: string, clock: int)
    requires s.projects && Dated(s.env, st.log) && Rendered(s.env, st.views, st.log, clock)
    requires NotBefore(s.env.gate.trust.parse, clock, now)
    requires WindowsOpen(s.env, Create(s, st, o, now).0.log)
    ensures var after := Create(s, st, o, now).0;
            Rendered(s.env, after.views, after.log, Clock(s.env.gate.trust.parse, now))
  {
    hide Dated, LoadRequest, Project, PolicyDigest, RequestId, Rendered, RequestJson, WindowsOpen, WindowOpens, ClockReading;
    RenderedLater(s.env, st.views, st.log, clock, Clock(s.env.gate.trust.parse, now));
    if o.policyId in s.env.policies {
      var H := s.env.gate.H;
      var r := RequestFor(H, o, s.env.policies[o.policyId], now);
      if LoadRequest(st.log, RequestId(H, r)).NotFound? {
        var log := Appended(H, st.log, CreatedDraft(H, r));
        if Create(s, st, o, now).0.log == log {
          OpenedWindowOpens(s, st.log, r);
          CreateRenders(s, st, r, clock);
        }
      }
    }
  }

  lemma OpenedWindowOpens(s: Service, log: seq<LedgerEntry>, r: Request)
    requires WindowsOpen(s.env, Appended(s.env.gate.H, log, CreatedDraft(s.env.gate.H, r)))
    ensures WindowOpens(s.env, r)
  {
    hide RequestFromJson, RequestJson, CanonicalHash, RequestId, WindowOpens;
    RequestRoundTrip(s.env.gate.H, r);
    var e := EntryFor(s.env.gate.H, log, CreatedDraft(s.env.gate.H, r));
    assert e in log + [e];
  }

  lemma SubmitOpRenders(s: Service, st: Stores, envelope: Json, t: Times, clock: int)
    requires s.projects && Dated(s.env, st.log) && Rendered(s.env, st.views, st.log, clock) && WindowsOpen(s.env, st.log)
    requires Ascending(s.env.gate.trust.parse, clock, SubmitOp(envelope, t))
    ensures var after := Submit(s, st, envelope, t).0;
            Rendered(s.env, after.views, after.log, Clock(s.env.gate.trust.parse, t.projected))
  {
    hide Dated, RecordDecision, LoadRequest, DecodeDecision, Screen, StatusOf, Fingerprint, Ascending, Rendered, WindowsOpen, WindowOpens;
    AscendingBounds(s.env.gate.trust.parse, clock, envelope, t);
    RenderedLater(s.env, st.views, st.log, clock, Clock(s.env.gate.trust.parse, t.projected));
    var d := DecodeDecision(envelope);
    if d.Some? && LoadRequest(st.log, d.value.requestId).Found? {
      var r := LoadRequest(st.log, d.value.requestId).request;
      LoadedWindowOpens(s.env, st.log, d.value.requestId);
      if Screen(s.env.gate, envelope, d.value, r, t.screened).Passed? {
        RecordRenders(s, st, r, d.value, envelope, t, clock);
      }
    }
  }

  lemma PublishOpRenders(s: Service, st: Stores, signer: Signer, now: string, clock: int)
    requires Rendered(s.env, st.views, st.log, clock) && NotBefore(s.env.gate.trust.parse, clock, now)
    ensures var after := Publish(s, st, signer, now).0;
            Rendered(s.env, after.views, after.log, Clock(s.env.gate.trust.parse, now))
  {
    hide RenderedOk, SignCheckpoint, BuildCheckpoint, LatestCheckpoint, CanonicalHash, EventsFor;
    var after := Publish(s, st, signer, now).0;
    RenderedLater(s.env, st.views, st.log, clock, Clock(s.env.gate.trust.parse, now));
    forall id
      ensures EventsFor(after.log, id) == EventsFor(st.log, id)
    {
      if after.log != st.log {
        EventsForOneMore(st.log, after.log[|st.log|], id);
        assert EventsFor(st.log, id) + [] == EventsFor(st.log, id);
      }
    }
  }

  lemma RebuildOpRenders(s: Service, st: Stores, now: string, clock: int)
    requires s.projects && Dated(s.env, st.log) && WindowsOpen(s.env, st.log)
    requires NotBefore(s.env.gate.trust.parse, clock, now)
    ensures Rebuild(s, st, now).1 == Some(|CreatedIds(st.log)|)
    ensures Rendered(s.env, Rebuild(s, st, now).0.views, st.log, Clock(s.env.gate.trust.parse, now))
    ensures forall id :: id in Rebuild(s, st, now).0.views ==>
              ViewAt(s.env, EventsFor(st.log, id), FirstCreated(EventsFor(st.log, id)).request,
                     Clock(s.env.gate.trust.parse, now), now) == Some(Rebuild(s, st, now).0.views[id])
  {
    hide EntriesOk, Linked, CreatedByClock, LoadRequest, WindowsOpen, WindowOpens, RebuildAll, CreatedIds, ViewAt, EventsFor, FirstCreated;
    hide ViewNow, ClockReading;
    var ids, views := CreatedIds(st.log), Rebuild(s, st, now).0.views;
    forall id
      ensures id in ids <==> LoadRequest(st.log, id).Found?
    {
      CreatedIdsLoad(s.env, st.log, id);
    }
    forall id | id in ids
      ensures WindowOpens(s.env, LoadRequest(st.log, id).request)
    {
      LoadedWindowOpens(s.env, st.log, id);
    }
    RebuildFinishes(s, st.log, ids, now);
    HealthyLoads(s.env, st.log);
    RebuildIsTruth(s, st.log, ids, now);
    forall id
      ensures RenderedOk(s.env, views, EventsFor(st.log, id), id, Clock(s.env.gate.trust.parse, now))
      ensures id in views ==>
                ViewAt(s.env, EventsFor(st.log, id), FirstCreated(EventsFor(st.log, id)).request,
                       Clock(s.env.gate.trust.parse, now), now) == Some(views[id])
    {
      FoundIsFirst(st.log, id);
      if id in views {
        NowIsAt(s.env, st.log, id, now);
      }
    }
  }

  lemma NowIsAt(env: Env, log: seq<LedgerEntry>, id: string, now: string)
    requires Dated(env, log) && LoadRequest(log, id).Found? && ClockReading(env.gate.trust.parse, now).Some?
    requires WindowsOpen(env, log)
    ensures ViewNow(env, log, id, now) == ViewAt(env, EventsFor(log, id), LoadRequest(log, id).request, Clock(env.gate.trust.parse, now), now)
  {
    hide Dated, LoadRequest, Recompute, EventsFor, BuildView, MaxSeq, ViewAt, WindowsOpen, WindowOpens, ClockReading;
    LoadedWindowOpens(env, log, id);
    DerivesView(env, log, id, now, now);
  }

  lemma OpRenders(s: Service, st: Stores, op: Op, clock: int)
    requires s.projects && Dated(s.env, st.log) && Rendered(s.env, st.views, st.log, clock)
    requires Ascending(s.env.gate.trust.parse, clock, op)
    requires WindowsOpen(s.env, Perform(s, st, op).log)
    ensures ClockReading(s.env.gate.trust.parse, LastReading(op)).Some?
    ensures var after := Perform(s, st, op);
            Rendered(s.env, after.views, after.log, Clock(s.env.gate.trust.parse, LastReading(op)))
  {
    hide Dated, Rendered, WindowsOpen, Create, Submit, Publish, RebuildAll, CreatedIds, ViewAt;
    match op
    case CreateOp(opening, now) =>
      CreateOpRenders(s, st, opening, now, clock);
    case SubmitOp(envelope, times) =>
      PerformExtends(s, st, op);
      WindowsOpenBefore(s.env, st.log, Perform(s, st, op).log);
      SubmitOpRenders(s, st, envelope, times, clock);
    case PublishOp(signer, at) =>
      PublishOpRenders(s, st, signer, at, clock);
    case RebuildOp(asOf) =>
      RebuildOpRenders(s, st, asOf, clock);
  }

  lemma WindowsOpenBefore(env: Env, log: seq<LedgerEntry>, after: seq<LedgerEntry>)
    requires log <= after && WindowsOpen(env, after)
    ensures WindowsOpen(env, log)
  {
    hide RequestFromJson;
    assert forall e :: e in log ==> e in after;
  }

  lemma {:induction false} RunIsRendered(s: Service, ops: seq<Op>, start: int)
    requires s.projects && Orderly(s.env.gate.trust.parse, ops, start)
    requires WindowsOpen(s.env, RunAll(s, ops).log)
    ensures Rendered(s.env, RunAll(s, ops).views, RunAll(s, ops).log, ClockAfter(s.env.gate.trust.parse, ops, start))
  {
    hide Dated, Ascending, TrustedOp, Perform, Rendered, WindowsOpen;
    if ops == [] {
      NothingRendered(s.env, start);
    } else {
      var init, op := ops[..|ops| - 1], ops[|ops| - 1];
      var before := RunAll(s, init);
      PerformExtends(s, before, op);
      WindowsOpenBefore(s.env, before.log, Perform(s, before, op).log);
      RunIsRendered(s, init, start);
      RunIsDated(s, init, start);
      OpRenders(s, before, op, ClockAfter(s.env.gate.trust.parse, init, start));
    }
  }

  lemma RunIsDated(s: Service, ops: seq<Op>, start: int)
    requires Orderly(s.env.gate.trust.parse, ops, start)
    ensures Dated(s.env, RunAll(s, ops).log)
  {
    hide Orderly, RunAll, Sound, CreatedByClock;
    EveryRunIsSound(s, ops);
    OrderlyStatuses(s, ops, start, false);
  }

  lemma NothingRendered(env: Env, clock: int)
    ensures Rendered(env, map[], [], clock)
  {
  }

  // --------------------------------------------- incremental views agree with truth

  /** Equal up to the time stamp, except that the window may have closed since. */
  predicate SameUpToExpiry(stored: View, rebuilt: View) {
    || stored.(updatedAt := rebuilt.updatedAt) == rebuilt
    || (stored.status.Pending? && stored.(updatedAt := rebuilt.updatedAt, status := Expired, pendingFor := []) == rebuilt)
  }

  /** In every sequential run with a clock that does not go back, in which the deadline of every
      request can be told, rebuilding finishes, keeps exactly the same requests, and gives each the
      view it already had up to time stamp and expiry; verdicts may change as they like. */
  lemma ReadModelAgrees(s: Service, ops: seq<Op>, start: int, now: string)
    requires s.projects && Orderly(s.env.gate.trust.parse, ops, start)
    requires WindowsOpen(s.env, RunAll(s, ops).log)
    requires NotBefore(s.env.gate.trust.parse, ClockAfter(s.env.gate.trust.parse, ops, start), now)
    ensures var st := RunAll(s, ops);
            var views := Rebuild(s, st, now).0.views;
            && Rebuild(s, st, now).1 == Some(|CreatedIds(st.log)|)
            && (forall id :: id in views <==> id in st.views)
            && (forall id :: id in views ==> SameUpToExpiry(st.views[id], views[id]))
  {
    hide RunAll, Orderly, Clock, NotBefore, ClockAfter, WindowsOpen, Dated, ViewAt, SameUpToExpiry, EventsFor;
    hide FirstCreated, Rebuild, CreatedIds;
    var st, clock := RunAll(s, ops), ClockAfter(s.env.gate.trust.parse, ops, start);
    RunIsDated(s, ops, start);
    RunIsRendered(s, ops, start);
    RebuildOpRenders(s, st, now, clock);
    NotBeforeNow(s.env.gate.trust.parse, clock, now);
    var views := Rebuild(s, st, now).0.views;
    forall id
      ensures id in views <==> id in st.views
      ensures id in views ==> SameUpToExpiry(st.views[id], views[id])
    {
      assert RenderedOk(s.env, views, EventsFor(st.log, id), id, Clock(s.env.gate.trust.parse, now));
      assert RenderedOk(s.env, st.views, EventsFor(st.log, id), id, clock);
      if id in views {
        var events := EventsFor(st.log, id);
        var r := FirstCreated(events).request;
        var t, u :| t <= clock && ViewAt(s.env, events, r, t, u) == Some(st.views[id]);
        ViewsMove(s.env, events, r, t, u, Clock(s.env.gate.trust.parse, now), now);
      }
    }
  }

  lemma NotBeforeNow(parse: Parse, clock: int, now: string)
    requires NotBefore(parse, clock, now)
    ensures clock <= Clock(parse, now)
  {
  }

  /** After every run with a clock that does not go back, a rebuild returns a count exactly when the
      deadline of every request ever opened can be told; otherwise it raises half way. */
  lemma RebuildReturns(s: Service, ops: seq<Op>, start: int, now: string)
    requires s.projects && Orderly(s.env.gate.trust.parse, ops, start) && ClockReading(s.env.gate.trust.parse, now).Some?
    ensures Rebuild(s, RunAll(s, ops), now).1.Some? <==> WindowsOpen(s.env, RunAll(s, ops).log)
  {
    hide RunAll, Orderly, CreatedIds, ClockReading, LoadRequest, EntriesOk, Linked, CreatedByClock, RebuildAll, WindowOpens;
    var log := RunAll(s, ops).log;
    RunIsDated(s, ops, start);
    forall id
      ensures id in CreatedIds(log) <==> LoadRequest(log, id).Found?
    {
      CreatedIdsLoad(s.env, log, id);
    }
    RebuildFinishes(s, log, CreatedIds(log), now);
    AllOpened(s.env, log);
  }

  /** Every opening loads, and what loads was opened. */
  lemma AllOpened(env: Env, log: seq<LedgerEntry>)
    requires EntriesOk(env, log)
    ensures (forall id :: id in CreatedIds(log) ==> LoadRequest(log, id).Found? && WindowOpens(env, LoadRequest(log, id).request))
       <==> WindowsOpen(env, log)
  {
    hide CreatedIds, LoadRequest, EntriesOk, WindowOpens, RequestFromJson, RequestId, Pinned;
    forall id
      ensures id in CreatedIds(log) <==> LoadRequest(log, id).Found?
    {
      CreatedIdsLoad(env, log, id);
    }
    if WindowsOpen(env, log) {
      forall id | id in CreatedIds(log)
        ensures WindowOpens(env, LoadRequest(log, id).request)
      {
        LoadedWindowOpens(env, log, id);
      }
    }
    forall e | e in log && e.eventType == CREATED
      ensures CreatedOk(env, log, e)
    {
      CreatedHere(env, log, e);
    }
  }

  lemma ViewsMove(env: Env, events: seq<LedgerEntry>, r: Request, t: int, u: string, later: int, now: string)
    requires t <= later && ViewAt(env, events, r, t, u).Some? && ViewAt(env, events, r, later, now).Some?
    ensures SameUpToExpiry(ViewAt(env, events, r, t, u).value, ViewAt(env, events, r, later, now).value)
  {
    hide Voices, DecisionsIn, MaxSeq, RequestId, CaseFor, EligibleApprovers, SortedKeys, Voters, RolesSatisfied, Undecided;
  }
}
