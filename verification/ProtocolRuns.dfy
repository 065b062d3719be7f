/** What holds in every state of every run of the ledger protocol. */
module ProtocolRuns {
  import opened ByteStrings
  import opened JsonText
  import opened Canonical
  import opened Models
  import opened Merkle
  import opened Chain
  import opened Reads
  import opened Protocol
  import opened ProtocolSafety

  lemma {:induction false} RunInv(cfg: Config, run: seq<Action>)
    ensures Inv(cfg, Run(cfg, run))
  {
    hide Inv, Apply;
    if run == [] {
      StartInv(cfg);
    } else {
      RunInv(cfg, run[..|run| - 1]);
      ApplyInv(cfg, Run(cfg, run[..|run| - 1]), run[|run| - 1]);
    }
  }

  /** The rows of a run's state, in seq order. */
  function LogAfter(cfg: Config, run: seq<Action>): seq<LedgerEntry> {
    Log(Run(cfg, run).rows)
  }

  lemma InvRows(cfg: Config, run: seq<Action>)
    ensures Chained(cfg.H, Run(cfg, run).rows)
    ensures LogAfter(cfg, run) == Entries(Run(cfg, run).rows, |Run(cfg, run).rows|)
  {
    RunInv(cfg, run);
    LogIsEntries(Run(cfg, run).rows);
  }

  /** Uniqueness of `seq` is the entire concurrency control: every reachable ledger has exactly the
      seqs 0 .. n-1 and passes `verify_segment` from genesis. */
  lemma EveryLedgerIsIntact(cfg: Config, run: seq<Action>)
    ensures var rows, log := Run(cfg, run).rows, LogAfter(cfg, run);
            && (forall i: nat :: i in rows <==> i < |log|)
            && (forall i :: 0 <= i < |log| ==> log[i] == rows[i] && log[i].seqNo == i)
            && Segment(cfg.H, log, 0, ZERO_HASH).Intact?
  {
    hide Run, Segment, CoreHash;
    InvRows(cfg, run);
    var rows := Run(cfg, run).rows;
    EntriesLinked(cfg.H, rows, |rows|);
    SegmentIsLinked(cfg.H, LogAfter(cfg, run), 0, ZERO_HASH);
    forall i | 0 <= i < |rows|
      ensures Entries(rows, |rows|)[i].seqNo == i
    {
      assert Fits(cfg.H, rows, i, rows[i]);
    }
  }

  lemma {:induction false} LaterRowsExtend(cfg: Config, run: seq<Action>, more: seq<Action>)
    ensures Extends(Run(cfg, run).rows, Run(cfg, run + more).rows)
  {
    hide Inv, Apply;
    if more == [] {
      assert run + more == run;
    } else {
      var n := |more| - 1;
      assert (run + more)[..|run| + n] == run + more[..n] && (run + more)[|run| + n] == more[n];
      LaterRowsExtend(cfg, run, more[..n]);
      RunInv(cfg, run + more[..n]);
      ApplyInv(cfg, Run(cfg, run + more[..n]), more[n]);
    }
  }

  /** No step ever alters or removes an entry: the ledger of a run is a prefix of the ledger of
      every continuation. */
  lemma NothingIsRewritten(cfg: Config, run: seq<Action>, more: seq<Action>)
    ensures LogAfter(cfg, run) <= LogAfter(cfg, run + more)
  {
    hide Run, Chained, LogAfter;
    InvRows(cfg, run);
    InvRows(cfg, run + more);
    LaterRowsExtend(cfg, run, more);
    var rows, later := Run(cfg, run).rows, Run(cfg, run + more).rows;
    RowsPrefix(cfg.H, rows, later);
  }

  lemma RowsPrefix(H: Hash, rows: Rows, later: Rows)
    requires Chained(H, rows) && Chained(H, later) && Extends(rows, later)
    ensures |rows| <= |later| && Entries(rows, |rows|) <= Entries(later, |later|)
  {
    hide Fits;
    if |rows| > 0 {
      assert |rows| - 1 in later;
    }
    EntriesAgree(rows, later, |rows|);
    EntriesPrefix(later, |rows|, |later|);
  }

  // --------------------------------------------------- exactly one entry a call

  /** The rows written by one append of one call. */
  function Written(s: State, c: nat, stage: Stage): set<nat> {
    set i | i in s.rows && i in s.author && s.author[i] == (c, stage)
  }

  lemma WrittenIsSlot(cfg: Config, s: State, c: nat, stage: Stage)
    requires Inv(cfg, s) && c in s.calls
    ensures Written(s, c, stage) == if stage in s.calls[c].slots then {s.calls[c].slots[stage]} else {}
  {
    hide Chained, CallsOk, KeysOk, CountsOk, WinnersOk, JobFits, CommitsWithin;
    assert SlotsOk(s, c);
    forall i | i in Written(s, c, stage)
      ensures stage in s.calls[c].slots && s.calls[c].slots[stage] == i
    {
      assert RowOk(cfg, s, i);
    }
  }

  /** Every entry was written by one append of one call, and is what that append was given. */
  lemma EntriesAreAsAppended(cfg: Config, run: seq<Action>, i: nat)
    requires i < |LogAfter(cfg, run)|
    ensures var s := Run(cfg, run);
            && i in s.author && s.author[i].0 in s.calls
            && JobFits(cfg, s.calls[s.author[i].0].call, JobOf(s.author[i].1, LogAfter(cfg, run)[i]))
  {
    hide Run, Inv, JobFits, CommitsWithin;
    InvRows(cfg, run);
    RunInv(cfg, run);
    RowHasAuthor(cfg, Run(cfg, run), i);
  }

  /** How many entries a call has contributed, by how it ended: each append that returned
      contributed one, an append that raised or gave up contributed none. */
  predicate Contributed(call: Call, outcome: Outcome, main: nat, status: nat) {
    match outcome
    case Created => main == 1 && status == 0
    case Published => main == 1 && status == 0
    case Decided => main == 1 && status <= 1
    case Exhausted(job, _) => Unfinished(job, main, status)
    case Failed(step) => (
      match step
      case WhileLooking => main == 0 && status == 0
      case WhileAppending(job) => Unfinished(job, main, status)
      case WhileDeriving => main == 1 && status == 0
      case WhileStoring => main == 1 && status <= 1 && (!call.DecideCall? ==> status == 0)
      case WhileCompleting => main == 1 && status <= 1)
    case _ => main == 0 && status == 0
  }

  /** The appends before this one returned, and this one contributed nothing. */
  predicate Unfinished(job: Job, main: nat, status: nat) {
    status == 0 && main == if job.stage.Main? then 0 else 1
  }

  lemma ReturnedAppendsOnce(cfg: Config, run: seq<Action>, c: nat)
    requires c in Run(cfg, run).calls && Run(cfg, run).calls[c].phase.Done?
    ensures var s := Run(cfg, run);
            Contributed(s.calls[c].call, s.calls[c].phase.outcome, |Written(s, c, Main)|, |Written(s, c, Status)|)
  {
    hide Run, Inv, CallOk, Written, Contributed;
    var s := Run(cfg, run);
    RunInv(cfg, run);
    CallOkAt(cfg, s, c);
    OutcomeSlots(cfg, s.rows, s.calls[c]);
    forall stage: Stage
      ensures |Written(s, c, stage)| == SlotCount(s.calls[c], stage)
    {
      WrittenIsSlot(cfg, s, c, stage);
    }
  }

  function SlotCount(cs: CallState, stage: Stage): nat {
    if stage in cs.slots then 1 else 0
  }

  lemma OutcomeSlots(cfg: Config, rows: Rows, cs: CallState)
    requires CallOk(cfg, rows, cs) && cs.phase.Done?
    ensures Contributed(cs.call, cs.phase.outcome, SlotCount(cs, Main), SlotCount(cs, Status))
  {
    hide RequestId, Fingerprint, NotLanded, StepOk;
    match cs.phase.outcome
    case Exhausted(job, _) => JobSlots(cs, job);
    case Failed(step) => StepSlots(cs, step);
    case _ =>
  }

  lemma JobSlots(cs: CallState, job: Job)
    requires NotLanded(cs, job)
    ensures Unfinished(job, SlotCount(cs, Main), SlotCount(cs, Status))
  {
  }

  lemma StepSlots(cs: CallState, step: Step)
    requires StepOk(cs, step) && (Status in cs.slots ==> Main in cs.slots)
    ensures Contributed(cs.call, Failed(step), SlotCount(cs, Main), SlotCount(cs, Status))
  {
    hide NotLanded;
    if step.WhileAppending? {
      JobSlots(cs, step.job);
    }
  }

  // ------------------------------------------------------------- contention

  /** Retries are exhausted only when at least `append_attempts` entries of others landed between
      the first head read of the append and its last insert. */
  lemma ExhaustedUnderContention(cfg: Config, run: seq<Action>, c: nat)
    requires c in Run(cfg, run).calls && Run(cfg, run).calls[c].phase.Done?
    requires Run(cfg, run).calls[c].phase.outcome.Exhausted?
    ensures var s, o := Run(cfg, run), Run(cfg, run).calls[c].phase.outcome;
            && o.since + cfg.attempts <= |s.rows|
            && forall i :: o.since <= i < o.since + cfg.attempts ==>
                 i in s.rows && i in s.author && s.author[i] != (c, o.job.stage)
  {
    hide Run, Inv, CallOk, RowOk, Written;
    var s := Run(cfg, run);
    RunInv(cfg, run);
    CallOkAt(cfg, s, c);
    var o := s.calls[c].phase.outcome;
    ExhaustedOutcome(cfg, s.rows, s.calls[c]);
    WrittenIsSlot(cfg, s, c, o.job.stage);
    forall i | o.since <= i < o.since + cfg.attempts
      ensures i in s.rows && i in s.author && s.author[i] != (c, o.job.stage)
    {
      RowHasAuthor(cfg, s, i);
      InWritten(s, c, o.job.stage, i);
    }
  }

  lemma InWritten(s: State, c: nat, stage: Stage, i: nat)
    requires i in s.rows && i in s.author
    ensures i in Written(s, c, stage) <==> s.author[i] == (c, stage)
  {
  }

  lemma ExhaustedOutcome(cfg: Config, rows: Rows, cs: CallState)
    requires CallOk(cfg, rows, cs) && cs.phase.Done? && cs.phase.outcome.Exhausted?
    ensures cs.phase.outcome.since + cfg.attempts <= |rows| && cs.phase.outcome.job.stage !in cs.slots
  {
    hide RequestId, Fingerprint, CommitsWithin, JobFits;
  }

  lemma RowHasAuthor(cfg: Config, s: State, i: nat)
    requires Inv(cfg, s) && i < |s.rows|
    ensures i in s.rows && i in s.author && RowOk(cfg, s, i)
  {
    hide CallsOk, KeysOk, CountsOk, WinnersOk, AllSlotsOk, JobFits, CommitsWithin, Fits;
  }

  /** With fewer entries of others, the insert does not exhaust: on its last attempt it lands. */
  lemma FewerConflictsSucceed(cfg: Config, run: seq<Action>, c: nat)
    requires c in Run(cfg, run).calls && Run(cfg, run).calls[c].phase.Inserting?
    requires |Run(cfg, run).rows| < Run(cfg, run).calls[c].phase.since + cfg.attempts
    ensures var s, p := Run(cfg, run), Run(cfg, run).calls[c].phase;
            var t := Run(cfg, run + [Insert(c)]);
            if p.attempt + 1 == cfg.attempts then t.rows == s.rows[|s.rows| := p.entry]
            else t.rows == s.rows[|s.rows| := p.entry]
                 || (c in t.calls && t.calls[c].phase == ReadingHead(p.job, p.attempt + 1, p.since))
  {
    hide Inv, Run, CallOk, Apply;
    var s := Run(cfg, run);
    RunInv(cfg, run);
    CallOkAt(cfg, s, c);
    InsertStepOutcome(cfg, s, c);
    RunOneMore(cfg, run, Insert(c));
    InsertApplies(cfg, s, c);
  }

  lemma InsertApplies(cfg: Config, s: State, c: nat)
    requires c in s.calls && s.calls[c].phase.Inserting?
    ensures Apply(cfg, s, Insert(c)) == InsertStep(cfg, s, c)
  {
    hide InsertStep;
  }

  lemma RunOneMore(cfg: Config, run: seq<Action>, a: Action)
    ensures Run(cfg, run + [a]) == Apply(cfg, Run(cfg, run), a)
  {
    hide Apply;
    assert (run + [a])[..|run|] == run;
  }

  lemma InsertStepOutcome(cfg: Config, s: State, c: nat)
    requires c in s.calls && s.calls[c].phase.Inserting? && CallOk(cfg, s.rows, s.calls[c]) && Dense(s.rows)
    requires |s.rows| < s.calls[c].phase.since + cfg.attempts
    ensures var p, t := s.calls[c].phase, InsertStep(cfg, s, c);
            if p.attempt + 1 == cfg.attempts then t.rows == s.rows[|s.rows| := p.entry]
            else t.rows == s.rows[|s.rows| := p.entry]
                 || (c in t.calls && t.calls[c].phase == ReadingHead(p.job, p.attempt + 1, p.since))
  {
    hide CommitsWithin, JobFits, CoreHash;
  }

  // --------------------------------------------------------- append-only reads

  /** Every published checkpoint commits to entries before its own, and its root stays the root of
      those entries in every continuation. */
  lemma CheckpointsStayTrue(cfg: Config, run: seq<Action>, more: seq<Action>, i: nat)
    requires i < |LogAfter(cfg, run)| && LogAfter(cfg, run)[i].eventType == PUBLISHED
    ensures var cp := CheckpointFromJson(LogAfter(cfg, run)[i].payload);
            && cp.Some? && 0 <= cp.value.treeSize <= i
            && CommitsTo(cfg.H, cp.value, LogAfter(cfg, run + more))
  {
    hide Run, Inv, CheckpointFromJson, JobFits, LogAfter, CommitsTo, RowOk;
    NothingIsRewritten(cfg, run, more);
    InvRows(cfg, run);
    RunInv(cfg, run);
    var rows := Run(cfg, run).rows;
    RowHasAuthor(cfg, Run(cfg, run), i);
    RowCommits(cfg, Run(cfg, run), i);
    CommitsInLog(cfg.H, rows, LogAfter(cfg, run + more), rows[i].payload, i);
  }

  lemma RowCommits(cfg: Config, s: State, i: nat)
    requires i in s.rows && RowOk(cfg, s, i) && s.rows[i].eventType == PUBLISHED
    ensures CommitsWithin(cfg.H, s.rows, s.rows[i].payload, i)
  {
    hide CommitsWithin, JobFits;
  }

  lemma CommitsInLog(H: Hash, rows: Rows, later: seq<LedgerEntry>, payload: Json, n: nat)
    requires CommitsWithin(H, rows, payload, n) && Dense(rows)
    requires Entries(rows, |rows|) <= later
    ensures var cp := CheckpointFromJson(payload);
            cp.Some? && 0 <= cp.value.treeSize <= n && CommitsTo(H, cp.value, later)
  {
    hide CheckpointFromJson, MerkleRoot, Leaves;
    var size := CheckpointFromJson(payload).value.treeSize;
    EntriesPrefix(rows, size, |rows|);
    assert later[..|rows|] == Entries(rows, |rows|);
    assert later[..size] == later[..|rows|][..size];
  }

  /** Every `request.created` in a reachable ledger decodes, so loading never fails. */
  lemma CreatedEntriesDecode(cfg: Config, run: seq<Action>, e: LedgerEntry)
    requires e in LogAfter(cfg, run) && e.eventType == CREATED
    ensures RequestFromJson(e.payload).Some?
    ensures e.requestId == Some(RequestId(cfg.H, RequestFromJson(e.payload).value))
  {
    hide Run, Inv, RequestFromJson, RequestId, RequestJson, CommitsWithin;
    InvRows(cfg, run);
    RunInv(cfg, run);
    var s := Run(cfg, run);
    var i :| 0 <= i < |LogAfter(cfg, run)| && LogAfter(cfg, run)[i] == e;
    RowHasAuthor(cfg, s, i);
    var call := s.calls[s.author[i].0].call;
    CreatedByCreator(cfg, call, JobOf(s.author[i].1, e));
    RequestRoundTrip(cfg.H, call.request);
  }

  /** Once a request can be loaded by an id it is that same request, with the same id and context
      digest, in every continuation, however many creators raced. */
  lemma LoadedRequestsStay(cfg: Config, run: seq<Action>, more: seq<Action>, id: string)
    ensures !LoadRequest(LogAfter(cfg, run), id).Malformed?
    ensures LoadRequest(LogAfter(cfg, run), id).Found? ==>
              && LoadRequest(LogAfter(cfg, run + more), id) == LoadRequest(LogAfter(cfg, run), id)
              && RequestId(cfg.H, LoadRequest(LogAfter(cfg, run), id).request) == id
  {
    hide Run, Inv, LogAfter, RequestFromJson, RequestId;
    var log := LogAfter(cfg, run);
    EventsForOnly(log, id);
    forall e | e in EventsFor(log, id) && e.eventType == CREATED
      ensures RequestFromJson(e.payload).Some?
    {
      CreatedEntriesDecode(cfg, run, e);
    }
    NeverMalformedAmong(EventsFor(log, id));
    if LoadRequest(log, id).Found? {
      NothingIsRewritten(cfg, run, more);
      var later := LogAfter(cfg, run + more);
      assert later == log + later[|log|..];
      LoadRequestIsStable(log, later[|log|..], id);
      var e := LoadedFromEntry(log, id);
      CreatedEntriesDecode(cfg, run, e);
    }
  }

  // ------------------------------------------------------------- idempotency

  /** No two callers work under one key at a time. */
  lemma OneWinnerPerKey(cfg: Config, run: seq<Action>, c: nat, d: nat)
    requires c in Run(cfg, run).calls && d in Run(cfg, run).calls
    requires Winning(cfg, Run(cfg, run).calls[c]) && Winning(cfg, Run(cfg, run).calls[d])
    requires KeyOf(Run(cfg, run).calls[c].call.decision) == KeyOf(Run(cfg, run).calls[d].call.decision)
    ensures c == d
  {
    hide Run, KeyOf, Winning;
    RunInv(cfg, run);
    assert WinnerOk(cfg, Run(cfg, run), c) && WinnerOk(cfg, Run(cfg, run), d);
  }

  /** With an idempotency store, the decisions recorded under a key number one for each release that followed a landed
      decision, and one more while the current holder's decision has landed. */
  lemma DecisionsPerKey(cfg: Config, run: seq<Action>, key: string)
    requires cfg.keyed
    ensures var s := Run(cfg, run);
            && |RowsUnder(cfg, s.rows, key)| == Count(s.released, key) + (if HolderLanded(s, key) then 1 else 0)
            && |RowsUnder(cfg, s.rows, key)| <= Count(s.released, key) + 1
  {
    hide Run;
    RunInv(cfg, run);
    assert CountOk(cfg, Run(cfg, run), key);
  }

  /** A completed key means its decision, with that very fingerprint, is in the ledger. */
  lemma CompletedKeysAreRecorded(cfg: Config, run: seq<Action>, key: string)
    requires key in Run(cfg, run).keys && Run(cfg, run).keys[key].response.Some?
    ensures exists e :: e in LogAfter(cfg, run) && UnderKey(cfg, e, key)
                     && Fingerprint(cfg.H, cfg.decode(e.payload).value) == Run(cfg, run).keys[key].fingerprint
                     && Run(cfg, run).keys[key].response == Some(cfg.decode(e.payload).value.requestId)
  {
    hide Run, Inv, Fingerprint, LogAfter, UnderKey, Entries;
    var s := Run(cfg, run);
    RunInv(cfg, run);
    InvRows(cfg, run);
    var i := CompletedRow(cfg, s, key);
    RowHasAuthor(cfg, s, i);
    assert s.rows[i] == LogAfter(cfg, run)[i];
  }

  lemma CompletedRow(cfg: Config, s: State, key: string) returns (i: nat)
    requires Inv(cfg, s) && key in s.keys && s.keys[key].response.Some?
    ensures i in s.rows && i < |s.rows| && UnderKey(cfg, s.rows[i], key)
    ensures var d := cfg.decode(s.rows[i].payload).value;
            Fingerprint(cfg.H, d) == s.keys[key].fingerprint && s.keys[key].response == Some(d.requestId)
  {
    hide Fingerprint, KeyOf, CommitsWithin, RowsOk, CountsOk, WinnersOk, Fits, PhaseOk;
    assert KeyOk(cfg, s, key);
    var h := s.holder[key];
    assert SlotsOk(s, h);
    i := s.calls[h].slots[Main];
    assert RowOk(cfg, s, i) by {
      RowAt(cfg, s, i);
    }
    assert CallOk(cfg, s.rows, s.calls[h]);
  }

  lemma RowAt(cfg: Config, s: State, i: nat)
    requires RowsOk(cfg, s) && i in s.rows
    ensures RowOk(cfg, s, i)
  {
    hide RowOk;
  }

  /** What a replay returns is the caller's own request id, unless two decisions collide. */
  lemma ReplaysAreOwn(cfg: Config, run: seq<Action>, c: nat)
    requires c in Run(cfg, run).calls && Run(cfg, run).calls[c].phase.Done?
    requires Run(cfg, run).calls[c].phase.outcome.Replayed?
    ensures var cs := Run(cfg, run).calls[c];
            && cs.call.DecideCall?
            && (cs.phase.outcome.requestId == cs.call.decision.requestId
                || Collides(cfg.H, HashClash(DecisionJson(cs.phase.outcome.winner), DecisionJson(cs.call.decision))))
  {
    hide Run, Inv, Fingerprint, Collides;
    RunInv(cfg, run);
    CallOkAt(cfg, Run(cfg, run), c);
    var cs := Run(cfg, run).calls[c];
    FingerprintBinds(cfg.H, cs.phase.outcome.winner, cs.call.decision);
  }
}
