/** The queries an event store answers, over the ledger as a sequence, and how an append-only
    ledger keeps their answers. */
module Reads {
  import opened ByteStrings
  import opened JsonText
  import opened Models

  /** `events_for_request`: one request's entries in ledger order. */
  function EventsFor(log: seq<LedgerEntry>, requestId: string): seq<LedgerEntry> {
    if log == [] then []
    else
      var init, last := log[..|log| - 1], log[|log| - 1];
      EventsFor(init, requestId) + if last.requestId == Some(requestId) then [last] else []
  }

  datatype Loaded = NotFound | Found(request: Request) | Malformed

  /** The first `request.created` among a request's events. */
  function FirstCreated(events: seq<LedgerEntry>): Loaded {
    if events == [] then NotFound
    else if events[0].eventType == CREATED then
      match RequestFromJson(events[0].payload)
      case None => Malformed
      case Some(r) => Found(r)
    else FirstCreated(events[1..])
  }

  /** `_load_request` */
  function LoadRequest(log: seq<LedgerEntry>, requestId: string): Loaded {
    FirstCreated(EventsFor(log, requestId))
  }

  /** `latest_checkpoint`: the outer `None` is a payload `Checkpoint.from_dict` refuses. */
  function LatestCheckpoint(log: seq<LedgerEntry>): Option<Option<Checkpoint>> {
    if log == [] then Some(None)
    else
      var last := log[|log| - 1];
      if last.eventType == PUBLISHED then
        var cp :- CheckpointFromJson(last.payload);
        Some(Some(cp))
      else LatestCheckpoint(log[..|log| - 1])
  }

  lemma EventsForOneMore(log: seq<LedgerEntry>, e: LedgerEntry, id: string)
    ensures EventsFor(log + [e], id) == EventsFor(log, id) + if e.requestId == Some(id) then [e] else []
  {
    assert (log + [e])[..|log|] == log;
  }

  lemma {:induction false} EventsForAppends(a: seq<LedgerEntry>, b: seq<LedgerEntry>, requestId: string)
    ensures EventsFor(a + b, requestId) == EventsFor(a, requestId) + EventsFor(b, requestId)
  {
    if b == [] {
      assert a + b == a;
    } else {
      var n := |b| - 1;
      assert (a + b)[..|a| + n] == a + b[..n] && (a + b)[|a| + n] == b[n];
      EventsForAppends(a, b[..n], requestId);
    }
  }

  lemma {:induction false} EventsForOnly(log: seq<LedgerEntry>, requestId: string)
    ensures forall e :: e in EventsFor(log, requestId) <==> e in log && e.requestId == Some(requestId)
  {
    if log != [] {
      var init, last := log[..|log| - 1], log[|log| - 1];
      EventsForOnly(init, requestId);
      assert log == init + [last];
    }
  }

  lemma {:induction false} FirstCreatedAppends(a: seq<LedgerEntry>, b: seq<LedgerEntry>)
    ensures FirstCreated(a + b) == if FirstCreated(a).NotFound? then FirstCreated(b) else FirstCreated(a)
  {
    hide RequestFromJson;
    if a == [] {
      assert a + b == b;
    } else {
      assert (a + b)[0] == a[0] && (a + b)[1..] == a[1..] + b;
      FirstCreatedAppends(a[1..], b);
    }
  }

  lemma {:induction false} NeverMalformedAmong(events: seq<LedgerEntry>)
    requires forall e :: e in events && e.eventType == CREATED ==> RequestFromJson(e.payload).Some?
    ensures !FirstCreated(events).Malformed?
  {
    hide RequestFromJson;
    if events != [] {
      NeverMalformedAmong(events[1..]);
    }
  }

  /** Once a request is found for an id, that same request is found forever, even when racing
      creators append a second `request.created` for it. */
  lemma LoadRequestIsStable(log: seq<LedgerEntry>, more: seq<LedgerEntry>, requestId: string)
    requires !LoadRequest(log, requestId).NotFound?
    ensures LoadRequest(log + more, requestId) == LoadRequest(log, requestId)
  {
    EventsForAppends(log, more, requestId);
    FirstCreatedAppends(EventsFor(log, requestId), EventsFor(more, requestId));
  }

  /** What `_load_request` returns comes from some entry of the ledger filed under that id. */
  lemma LoadedFromEntry(log: seq<LedgerEntry>, requestId: string) returns (e: LedgerEntry)
    requires LoadRequest(log, requestId).Found?
    ensures e in log && e.requestId == Some(requestId) && e.eventType == CREATED
    ensures RequestFromJson(e.payload) == Some(LoadRequest(log, requestId).request)
  {
    hide RequestFromJson;
    e := FirstCreatedEntry(EventsFor(log, requestId));
    EventsForOnly(log, requestId);
  }

  lemma {:induction false} FirstCreatedEntry(events: seq<LedgerEntry>) returns (e: LedgerEntry)
    requires FirstCreated(events).Found?
    ensures e in events && e.eventType == CREATED
    ensures RequestFromJson(e.payload) == Some(FirstCreated(events).request)
  {
    hide RequestFromJson;
    if events[0].eventType == CREATED {
      e := events[0];
    } else {
      e := FirstCreatedEntry(events[1..]);
    }
  }
}
