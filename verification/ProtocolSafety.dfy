/** What every step of the ledger protocol keeps, and what follows for every run. */
module ProtocolSafety {
  import opened ByteStrings
  import opened JsonText
  import opened Canonical
  import opened Models
  import opened Merkle
  import opened Chain
  import opened Reads
  import opened Protocol

  type Rows = map<nat, LedgerEntry>

  // ------------------------------------------------------- the rows are a chain

  /** No gaps: the seqs are 0 .. n-1. */
  ghost predicate Dense(rows: Rows) {
    forall i: nat :: i in rows <==> i < |rows|
  }

  function PrevHash(rows: Rows, i: nat): string {
    if i > 0 && i - 1 in rows then rows[i - 1].entryHash else ZERO_HASH
  }

  ghost predicate Fits(H: Hash, rows: Rows, i: nat, e: LedgerEntry) {
    e.seqNo == i && e.prevHash == PrevHash(rows, i) && e.entryHash == CoreHash(H, e)
  }

  ghost predicate Chained(H: Hash, rows: Rows) {
    Dense(rows) && forall i :: i in rows ==> Fits(H, rows, i, rows[i])
  }

  /** The first `n` rows. */
  function Entries(rows: Rows, n: nat): (log: seq<LedgerEntry>)
    requires forall i :: 0 <= i < n ==> i in rows
    ensures |log| == n && forall i :: 0 <= i < n ==> log[i] == rows[i]
  {
    if n == 0 then [] else Entries(rows, n - 1) + [rows[n - 1]]
  }

  ghost predicate Extends(rows: Rows, more: Rows) {
    forall i :: i in rows ==> i in more && more[i] == rows[i]
  }

  // --------------------------------------------- what one call has pending or done

  ghost predicate JobFits(cfg: Config, call: Call, job: Job) {
    match call
    case CreateCall(r) => job == CreateJob(cfg, r)
    case DecideCall(envelope, d) =>
      if job.stage.Main? then job == DecideJob(envelope, d)
      else job.eventType == STATUS_CHANGED && job.requestId == Some(d.requestId)
    case CheckpointCall(_) =>
      CheckpointFromJson(job.payload).Some? && job == CheckpointJob(CheckpointFromJson(job.payload).value)
  }

  function JobOf(stage: Stage, e: LedgerEntry): Job {
    Job(stage, e.eventType, e.payload, e.recordedAt, e.requestId)
  }

  /** `payload` is a checkpoint of at most `n` entries whose root is the root of those rows. */
  ghost predicate CommitsWithin(H: Hash, rows: Rows, payload: Json, n: nat) {
    && Dense(rows) && n <= |rows|
    && CheckpointFromJson(payload).Some?
    && var cp := CheckpointFromJson(payload).value;
       0 <= cp.treeSize <= n && cp.rootHash == MerkleRoot(H, Leaves(Entries(rows, cp.treeSize)))
  }

  ghost predicate Appending(cfg: Config, rows: Rows, cs: CallState, job: Job, attempt: nat, since: nat) {
    && JobFits(cfg, cs.call, job)
    && NotLanded(cs, job)
    && (attempt > 0 ==> since + attempt <= |rows|)
    && (job.eventType == PUBLISHED ==> CommitsWithin(cfg.H, rows, job.payload, |rows|))
  }

  /** The job's own append has contributed nothing; those before it have. */
  ghost predicate NotLanded(cs: CallState, job: Job) {
    && job.stage !in cs.slots
    && (job.stage.Main? ==> cs.slots == map[])
    && (job.stage.Status? ==> cs.call.DecideCall? && Main in cs.slots)
  }

  ghost predicate StepOk(cs: CallState, step: Step) {
    match step
    case WhileLooking => cs.slots == map[]
    case WhileAppending(job) => NotLanded(cs, job)
    case WhileDeriving => cs.call.DecideCall? && cs.slots.Keys == {Main}
    case WhileStoring => Main in cs.slots && (!cs.call.DecideCall? ==> cs.call.CreateCall? && cs.slots.Keys == {Main})
    case WhileCompleting => cs.call.DecideCall? && Main in cs.slots
  }

  ghost predicate OutcomeOk(cfg: Config, rows: Rows, cs: CallState, outcome: Outcome) {
    match outcome
    case Created => cs.call.CreateCall? && cs.slots.Keys == {Main}
    case Published => cs.call.CheckpointCall? && cs.slots.Keys == {Main}
    case Decided => cs.call.DecideCall? && Main in cs.slots
    case Existing(found) =>
      cs.call.CreateCall? && cs.slots == map[] && RequestId(cfg.H, found) == RequestId(cfg.H, cs.call.request)
    case Replayed(requestId, winner) =>
      && cs.call.DecideCall? && cs.slots == map[] && requestId == winner.requestId
      && Fingerprint(cfg.H, winner) == Fingerprint(cfg.H, cs.call.decision)
    case InFlight => cs.slots == map[]
    case KeyReused => cs.slots == map[]
    case Exhausted(job, since) => NotLanded(cs, job) && since + cfg.attempts <= |rows|
    case Failed(step) => StepOk(cs, step)
  }

  ghost predicate PhaseOk(cfg: Config, rows: Rows, cs: CallState) {
    match cs.phase
    case Loading => cs.slots == map[]
    case ReadingPrevious(leaves) =>
      && cs.call.CheckpointCall? && cs.slots == map[]
      && Dense(rows) && |leaves| <= |rows| && leaves == Leaves(Entries(rows, |leaves|))
    case Reserving => cfg.keyed && cs.call.DecideCall? && cs.slots == map[]
    case ReadingHead(job, attempt, since) => Appending(cfg, rows, cs, job, attempt, since)
    case Inserting(job, attempt, since, e) =>
      && Appending(cfg, rows, cs, job, attempt, since)
      && attempt < cfg.attempts
      && 0 <= e.seqNo <= |rows| && since + attempt <= e.seqNo
      && Fits(cfg.H, rows, e.seqNo, e) && JobOf(job.stage, e) == job
      && (job.eventType == PUBLISHED ==> CommitsWithin(cfg.H, rows, job.payload, e.seqNo))
    case Recomputing => cs.call.DecideCall? && cs.slots.Keys == {Main}
    case Projecting => StepOk(cs, WhileStoring)
    case Completing => cfg.keyed && cs.call.DecideCall? && Main in cs.slots
    case Releasing(outcome) => cfg.keyed && cs.call.DecideCall? && (outcome.Failed? || outcome.Exhausted?) && OutcomeOk(cfg, rows, cs, outcome)
    case Done(outcome) => OutcomeOk(cfg, rows, cs, outcome)
  }

  ghost predicate CallOk(cfg: Config, rows: Rows, cs: CallState) {
    WellFormed(cfg, cs.call) && PhaseOk(cfg, rows, cs) && (Status in cs.slots ==> Main in cs.slots)
  }

  // ------------------------------------------------------- who wrote which row

  /** Row `i` was written by its author's append, and by that append only. */
  ghost predicate RowOk(cfg: Config, s: State, i: nat)
    requires i in s.rows
  {
    && i in s.author && s.author[i].0 in s.calls
    && var cs, stage := s.calls[s.author[i].0], s.author[i].1;
       && stage in cs.slots && cs.slots[stage] == i
       && JobFits(cfg, cs.call, JobOf(stage, s.rows[i]))
       && (s.rows[i].eventType == PUBLISHED ==> CommitsWithin(cfg.H, s.rows, s.rows[i].payload, i))
  }

  ghost predicate SlotsOk(s: State, c: nat)
    requires c in s.calls
  {
    forall stage :: stage in s.calls[c].slots ==>
      var i := s.calls[c].slots[stage];
      i in s.rows && i in s.author && s.author[i] == (c, stage)
  }

  // ----------------------------------------------------------- who holds a key

  /** Between winning the key and completing or releasing it. */
  predicate Winning(cfg: Config, cs: CallState) {
    cfg.keyed && cs.call.DecideCall?
    && (cs.phase.ReadingHead? || cs.phase.Inserting? || cs.phase.Recomputing? || cs.phase.Projecting?
        || cs.phase.Completing? || cs.phase.Releasing?)
  }

  ghost predicate WinnerOk(cfg: Config, s: State, c: nat)
    requires c in s.calls
  {
    Winning(cfg, s.calls[c]) ==>
      var key := KeyOf(s.calls[c].call.decision);
      key in s.keys && s.keys[key].response.None? && key in s.holder && s.holder[key] == c
  }

  ghost predicate KeyOk(cfg: Config, s: State, key: string)
    requires key in s.keys
  {
    && key in s.holder && s.holder[key] in s.calls
    && var cs := s.calls[s.holder[key]];
       && cs.call.DecideCall? && KeyOf(cs.call.decision) == key
       && s.keys[key].fingerprint == Fingerprint(cfg.H, cs.call.decision)
       && (Winning(cfg, cs) || cs.phase.Done?)
       && (s.keys[key].response.Some? ==>
             Main in cs.slots && s.keys[key].response == Some(cs.call.decision.requestId))
  }

  /** A decision recorded under `key`. */
  predicate UnderKey(cfg: Config, e: LedgerEntry, key: string) {
    e.eventType == RECORDED && cfg.decode(e.payload).Some? && KeyOf(cfg.decode(e.payload).value) == key
  }

  function RowsUnder(cfg: Config, rows: Rows, key: string): set<nat> {
    set i | i in rows && UnderKey(cfg, rows[i], key)
  }

  predicate HolderLanded(s: State, key: string) {
    key in s.keys && key in s.holder && s.holder[key] in s.calls && Main in s.calls[s.holder[key]].slots
  }

  ghost predicate CountOk(cfg: Config, s: State, key: string) {
    |RowsUnder(cfg, s.rows, key)| == Count(s.released, key) + if HolderLanded(s, key) then 1 else 0
  }

  // ------------------------------------------------------------- the invariant

  ghost predicate RowsOk(cfg: Config, s: State) {
    forall i :: i in s.rows ==> RowOk(cfg, s, i)
  }

  ghost predicate CallsOk(cfg: Config, s: State) {
    forall c :: c in s.calls ==> CallOk(cfg, s.rows, s.calls[c])
  }

  ghost predicate AllSlotsOk(s: State) {
    forall c :: c in s.calls ==> SlotsOk(s, c)
  }

  ghost predicate WinnersOk(cfg: Config, s: State) {
    forall c :: c in s.calls ==> WinnerOk(cfg, s, c)
  }

  ghost predicate KeysOk(cfg: Config, s: State) {
    forall key :: key in s.keys ==> KeyOk(cfg, s, key)
  }

  ghost predicate CountsOk(cfg: Config, s: State) {
    cfg.keyed ==> forall key :: CountOk(cfg, s, key)
  }

  ghost predicate Inv(cfg: Config, s: State) {
    && Chained(cfg.H, s.rows)
    && RowsOk(cfg, s)
    && CallsOk(cfg, s)
    && AllSlotsOk(s)
    && WinnersOk(cfg, s)
    && KeysOk(cfg, s)
    && CountsOk(cfg, s)
  }

  lemma StartInv(cfg: Config)
    ensures Inv(cfg, START)
  {
    forall key | cfg.keyed
      ensures CountOk(cfg, START, key)
    {
      assert RowsUnder(cfg, START.rows, key) == {};
    }
  }

  // --------------------------------------------------- reading a chain of rows

  lemma GreatestIsLast(rows: Rows)
    requires Dense(rows) && |rows| > 0
    ensures rows.Keys != {} && Greatest(rows.Keys) == |rows| - 1
  {
    assert |rows| - 1 in rows;
    assert Greatest(rows.Keys) in rows;
  }

  lemma HeadIsLast(rows: Rows)
    requires Dense(rows)
    ensures Head(rows) == if |rows| == 0 then None else Some(rows[|rows| - 1])
  {
    if |rows| > 0 {
      GreatestIsLast(rows);
    } else {
      assert rows == map[];
    }
  }

  function Below(rows: Rows, k: nat): (below: Rows)
    ensures below.Keys == rows.Keys - {k}
  {
    map i | i in rows && i != k :: rows[i]
  }

  lemma BelowLast(rows: Rows)
    requires Dense(rows) && |rows| > 0
    ensures Dense(Below(rows, |rows| - 1)) && |Below(rows, |rows| - 1)| == |rows| - 1
    ensures Log(rows) == Log(Below(rows, |rows| - 1)) + [rows[|rows| - 1]]
  {
    GreatestIsLast(rows);
    var below := Below(rows, |rows| - 1);
    assert |below| == |below.Keys| && |rows| == |rows.Keys|;
  }

  lemma {:induction false} LogIsEntries(rows: Rows)
    requires Dense(rows)
    ensures Log(rows) == Entries(rows, |rows|)
    decreases |rows|
  {
    hide Log;
    if |rows| == 0 {
      assert rows == map[];
      LogOfNone();
    } else {
      BelowLast(rows);
      var k := |rows| - 1;
      LogIsEntries(Below(rows, k));
      EntriesAgree(Below(rows, k), rows, k);
    }
  }

  lemma LogOfNone()
    ensures Log(map[]) == []
  {
  }

  lemma {:induction false} EntriesAgree(rows: Rows, more: Rows, n: nat)
    requires forall i :: 0 <= i < n ==> i in rows && i in more && rows[i] == more[i]
    ensures Entries(rows, n) == Entries(more, n)
  {
    if n > 0 {
      EntriesAgree(rows, more, n - 1);
    }
  }

  lemma {:induction false} EntriesPrefix(rows: Rows, m: nat, n: nat)
    requires m <= n && forall i :: 0 <= i < n ==> i in rows
    ensures Entries(rows, m) == Entries(rows, n)[..m]
  {
  }

  lemma EntriesLinked(H: Hash, rows: Rows, n: nat)
    requires Chained(H, rows) && n <= |rows|
    ensures Linked(H, Entries(rows, n), 0, ZERO_HASH)
  {
    hide CoreHash;
    var log := Entries(rows, n);
    forall i | 0 <= i < n
      ensures LinkedAt(H, log, i, 0, ZERO_HASH)
    {
      assert Fits(H, rows, i, rows[i]);
    }
  }

  // ------------------------------------------------ what growth of the rows keeps

  lemma CommitsGrow(H: Hash, rows: Rows, more: Rows, payload: Json, n: nat, m: nat)
    requires CommitsWithin(H, rows, payload, n) && Extends(rows, more) && Dense(more) && n <= m <= |more|
    ensures CommitsWithin(H, more, payload, m)
  {
    hide CheckpointFromJson, MerkleRoot, Leaves;
    EntriesAgree(rows, more, CheckpointFromJson(payload).value.treeSize);
  }

  lemma CallGrows(cfg: Config, rows: Rows, more: Rows, cs: CallState)
    requires CallOk(cfg, rows, cs) && Dense(rows) && Extends(rows, more) && Dense(more) && |rows| <= |more|
    ensures CallOk(cfg, more, cs)
  {
    hide CheckpointFromJson, MerkleRoot, Leaves, CoreHash, JobFits, CommitsWithin, Fingerprint, RequestId;
    match cs.phase
    case ReadingPrevious(leaves) => EntriesAgree(rows, more, |leaves|);
    case ReadingHead(job, attempt, since) =>
      if job.eventType == PUBLISHED {
        CommitsGrow(cfg.H, rows, more, job.payload, |rows|, |more|);
      }
    case Inserting(job, attempt, since, e) =>
      if job.eventType == PUBLISHED {
        CommitsGrow(cfg.H, rows, more, job.payload, |rows|, |more|);
        CommitsGrow(cfg.H, rows, more, job.payload, e.seqNo, e.seqNo);
      }
    case _ =>
  }

  // ----------------------------------------- steps that only move a call's phase

  /** Apart from the keys, `t` differs from `s` in the phase of `c` only. */
  ghost predicate Moved(s: State, t: State, c: nat) {
    && c in s.calls && t.calls.Keys == s.calls.Keys
    && t.rows == s.rows && t.author == s.author
    && (forall d :: d in s.calls && d != c ==> t.calls[d] == s.calls[d])
    && t.calls[c] == s.calls[c].(phase := t.calls[c].phase)
  }

  predicate SameKeys(s: State, t: State) {
    t.keys == s.keys && t.holder == s.holder && t.released == s.released
  }

  lemma MovedRows(cfg: Config, s: State, t: State, c: nat)
    requires Moved(s, t, c) && RowsOk(cfg, s) && AllSlotsOk(s)
    ensures RowsOk(cfg, t) && AllSlotsOk(t)
  {
    hide JobFits, CommitsWithin;
    forall i | i in t.rows
      ensures RowOk(cfg, t, i)
    {
      assert RowOk(cfg, s, i);
    }
    forall d | d in t.calls
      ensures SlotsOk(t, d)
    {
      assert SlotsOk(s, d);
    }
  }

  lemma MovedCounts(cfg: Config, s: State, t: State, c: nat)
    requires Moved(s, t, c) && SameKeys(s, t) && CountsOk(cfg, s)
    ensures CountsOk(cfg, t)
  {
    hide UnderKey;
    forall key | cfg.keyed
      ensures CountOk(cfg, t, key)
    {
      assert CountOk(cfg, s, key);
      assert HolderLanded(t, key) == HolderLanded(s, key);
    }
  }

  lemma MovedKeys(cfg: Config, s: State, t: State, c: nat)
    requires Moved(s, t, c) && SameKeys(s, t) && KeysOk(cfg, s) && WinnersOk(cfg, s)
    requires Winning(cfg, t.calls[c]) ==> Winning(cfg, s.calls[c])
    requires Winning(cfg, s.calls[c]) || s.calls[c].phase.Done? ==> Winning(cfg, t.calls[c]) || t.calls[c].phase.Done?
    ensures KeysOk(cfg, t) && WinnersOk(cfg, t)
  {
    hide Fingerprint, Winning;
    forall key | key in t.keys
      ensures KeyOk(cfg, t, key)
    {
      assert KeyOk(cfg, s, key);
    }
    forall d | d in t.calls
      ensures WinnerOk(cfg, t, d)
    {
      assert WinnerOk(cfg, s, d);
    }
  }

  /** Moving a call to another admissible phase keeps the invariant, so long as it neither enters
      nor leaves the winning phases, or leaves them by stopping for good. */
  lemma PhaseStep(cfg: Config, s: State, c: nat, phase: Phase)
    requires Inv(cfg, s) && c in s.calls
    requires PhaseOk(cfg, s.rows, s.calls[c].(phase := phase))
    requires Winning(cfg, s.calls[c].(phase := phase)) ==> Winning(cfg, s.calls[c])
    requires Winning(cfg, s.calls[c]) || s.calls[c].phase.Done? ==> Winning(cfg, s.calls[c].(phase := phase)) || phase.Done?
    ensures Inv(cfg, To(s, c, phase))
  {
    hide PhaseOk, RowOk, SlotsOk, KeyOk, WinnerOk, CountOk, Chained, Winning;
    var t := To(s, c, phase);
    assert Moved(s, t, c);
    MovedRows(cfg, s, t, c);
    MovedCounts(cfg, s, t, c);
    MovedKeys(cfg, s, t, c);
    MovedCalls(cfg, s, t, c);
  }

  lemma MovedCalls(cfg: Config, s: State, t: State, c: nat)
    requires Moved(s, t, c) && CallsOk(cfg, s) && PhaseOk(cfg, s.rows, t.calls[c])
    ensures CallsOk(cfg, t)
  {
    hide PhaseOk;
    forall d | d in t.calls
      ensures CallOk(cfg, t.rows, t.calls[d])
    {
      assert CallOk(cfg, s.rows, s.calls[d]);
    }
  }

  /** Both ways an exception leaves the append of `c`. */
  lemma RaiseStep(cfg: Config, s: State, c: nat, outcome: Outcome)
    requires Inv(cfg, s) && c in s.calls
    requires s.calls[c].phase.ReadingHead? || s.calls[c].phase.Inserting? || s.calls[c].phase.Recomputing? || s.calls[c].phase.Projecting?
    requires (outcome.Failed? || outcome.Exhausted?) && OutcomeOk(cfg, s.rows, s.calls[c], outcome)
    ensures Inv(cfg, Raise(cfg, s, c, outcome))
  {
    hide OutcomeOk, Inv;
    var phase := if cfg.keyed && s.calls[c].call.DecideCall? then Releasing(outcome) else Done(outcome);
    assert OutcomeOk(cfg, s.rows, s.calls[c].(phase := phase), outcome) by {
      OutcomeIgnoresPhase(cfg, s.rows, s.calls[c], outcome, phase);
    }
    PhaseStep(cfg, s, c, phase);
  }

  lemma OutcomeIgnoresPhase(cfg: Config, rows: Rows, cs: CallState, outcome: Outcome, phase: Phase)
    requires OutcomeOk(cfg, rows, cs, outcome)
    ensures OutcomeOk(cfg, rows, cs.(phase := phase), outcome)
  {
  }

  lemma CallOkAt(cfg: Config, s: State, c: nat)
    requires Inv(cfg, s) && c in s.calls
    ensures Chained(cfg.H, s.rows) && CallOk(cfg, s.rows, s.calls[c]) && SlotsOk(s, c) && WinnerOk(cfg, s, c)
  {
  }

  // --------------------------------------------------------------- the steps

  lemma NewCallRows(cfg: Config, s: State, t: State, c: nat, call: Call)
    requires c !in s.calls && t == s.(calls := s.calls[c := CallState(call, Loading, map[])])
    requires RowsOk(cfg, s) && AllSlotsOk(s)
    ensures RowsOk(cfg, t) && AllSlotsOk(t)
  {
    hide JobFits, CommitsWithin;
    forall i | i in t.rows
      ensures RowOk(cfg, t, i)
    {
      assert RowOk(cfg, s, i);
    }
    forall d | d in t.calls
      ensures SlotsOk(t, d)
    {
      if d != c {
        assert SlotsOk(s, d);
      }
    }
  }

  lemma NewCallKeys(cfg: Config, s: State, t: State, c: nat, call: Call)
    requires c !in s.calls && t == s.(calls := s.calls[c := CallState(call, Loading, map[])])
    requires WinnersOk(cfg, s) && KeysOk(cfg, s) && CountsOk(cfg, s)
    ensures WinnersOk(cfg, t) && KeysOk(cfg, t) && CountsOk(cfg, t)
  {
    hide Fingerprint, UnderKey, CommitsWithin;
    forall d | d in t.calls
      ensures WinnerOk(cfg, t, d)
    {
      if d != c {
        assert WinnerOk(cfg, s, d);
      }
    }
    forall key | key in t.keys
      ensures KeyOk(cfg, t, key)
    {
      assert KeyOk(cfg, s, key);
    }
    forall key | cfg.keyed
      ensures CountOk(cfg, t, key)
    {
      assert CountOk(cfg, s, key) && (key in s.keys ==> KeyOk(cfg, s, key));
      assert HolderLanded(t, key) == HolderLanded(s, key);
    }
  }

  lemma NewCall(cfg: Config, s: State, c: nat, call: Call)
    requires Inv(cfg, s) && c !in s.calls && WellFormed(cfg, call)
    ensures Inv(cfg, s.(calls := s.calls[c := CallState(call, Loading, map[])]))
  {
    hide RowsOk, AllSlotsOk, WinnersOk, KeysOk, CountsOk, Chained, CallOk;
    var t := s.(calls := s.calls[c := CallState(call, Loading, map[])]);
    NewCallRows(cfg, s, t, c, call);
    NewCallKeys(cfg, s, t, c, call);
    LoadingIsOk(cfg, t.rows, call);
    forall d | d in t.calls
      ensures CallOk(cfg, t.rows, t.calls[d])
    {
      if d != c {
        assert CallOk(cfg, s.rows, s.calls[d]);
      }
    }
  }

  lemma LoadingIsOk(cfg: Config, rows: Rows, call: Call)
    requires WellFormed(cfg, call)
    ensures CallOk(cfg, rows, CallState(call, Loading, map[]))
  {
  }

  /** A request found in the ledger has the id it was looked up by. */
  lemma FoundHasId(cfg: Config, s: State, requestId: string)
    requires Inv(cfg, s) && LoadRequest(Log(s.rows), requestId).Found?
    ensures RequestId(cfg.H, LoadRequest(Log(s.rows), requestId).request) == requestId
  {
    hide Log, LoadRequest, RequestId, RequestJson, RequestFromJson, CommitsWithin, CallsOk, KeysOk, CountsOk, WinnersOk;
    LogIsEntries(s.rows);
    var e := LoadedFromEntry(Log(s.rows), requestId);
    var i :| 0 <= i < |s.rows| && Entries(s.rows, |s.rows|)[i] == e;
    assert RowOk(cfg, s, i);
    var call := s.calls[s.author[i].0].call;
    assert JobFits(cfg, call, JobOf(s.author[i].1, e));
    CreatedByCreator(cfg, call, JobOf(s.author[i].1, e));
    RequestRoundTrip(cfg.H, call.request);
  }

  lemma CreatedByCreator(cfg: Config, call: Call, job: Job)
    requires JobFits(cfg, call, job) && job.eventType == CREATED
    ensures call.CreateCall? && job == CreateJob(cfg, call.request)
  {
    assert CREATED[0] != STATUS_CHANGED[0] && CREATED[0] != RECORDED[0] && CREATED[0] != PUBLISHED[0];
  }

  lemma LookForOpenInv(cfg: Config, s: State, c: nat, r: Request)
    requires Inv(cfg, s) && c in s.calls && s.calls[c].phase.Loading? && s.calls[c].call == CreateCall(r)
    ensures Inv(cfg, LookForOpen(cfg, s, c, r))
  {
    hide Inv, RequestId, RequestJson, Log, LoadRequest;
    CallOkAt(cfg, s, c);
    match LoadRequest(Log(s.rows), RequestId(cfg.H, r))
    case NotFound =>
      assert CREATED[0] != PUBLISHED[0];
      PhaseStep(cfg, s, c, ReadingHead(CreateJob(cfg, r), 0, 0));
    case Found(found) =>
      FoundHasId(cfg, s, RequestId(cfg.H, r));
      PhaseStep(cfg, s, c, Done(Existing(found)));
    case Malformed =>
      PhaseStep(cfg, s, c, Done(Failed(WhileLooking)));
  }

  lemma LookInv(cfg: Config, s: State, c: nat)
    requires Inv(cfg, s) && c in s.calls && s.calls[c].phase.Loading?
    ensures Inv(cfg, LookStep(cfg, s, c))
  {
    hide Inv, RequestId, RequestJson, Log, LoadRequest, Leaves, LookForOpen;
    CallOkAt(cfg, s, c);
    match s.calls[c].call
    case CreateCall(r) =>
      LookForOpenInv(cfg, s, c, r);
    case DecideCall(envelope, d) =>
      if !LoadRequest(Log(s.rows), d.requestId).Found? {
        PhaseStep(cfg, s, c, Done(Failed(WhileLooking)));
      } else if cfg.keyed {
        PhaseStep(cfg, s, c, Reserving);
      } else {
        WonIsOk(cfg, s.rows, s.calls[c]);
        PhaseStep(cfg, s, c, ReadingHead(DecideJob(envelope, d), 0, 0));
      }
    case CheckpointCall(_) =>
      LogIsEntries(s.rows);
      PhaseStep(cfg, s, c, ReadingPrevious(Leaves(Log(s.rows))));
  }

  lemma ReadPreviousInv(cfg: Config, s: State, c: nat, signatures: seq<Json>)
    requires Inv(cfg, s) && c in s.calls && s.calls[c].phase.ReadingPrevious? && s.calls[c].call.CheckpointCall?
    ensures Inv(cfg, ReadPreviousStep(cfg, s, c, signatures))
  {
    hide Inv, Log, LatestCheckpoint, Leaves, MerkleRoot, CheckpointJson, CheckpointFromJson, PhaseOk, BuildCheckpoint;
    CallOkAt(cfg, s, c);
    match LatestCheckpoint(Log(s.rows))
    case None =>
      FailIsOk(cfg, s.rows, s.calls[c]);
      StopStep(cfg, s, c, Failed(WhileLooking));
    case Some(previous) =>
      var cp := BuildCheckpoint(cfg.H, s.calls[c].phase.leaves, cfg.logId, s.calls[c].call.at, previous)
                .(signatures := signatures);
      CheckpointJobIsOk(cfg, s.rows, s.calls[c], cp, previous, signatures);
      PhaseStep(cfg, s, c, ReadingHead(CheckpointJob(cp), 0, 0));
  }

  lemma CheckpointJobIsOk(cfg: Config, rows: Rows, cs: CallState, cp: Checkpoint, previous: Option<Checkpoint>, signatures: seq<Json>)
    requires PhaseOk(cfg, rows, cs) && cs.phase.ReadingPrevious? && cs.call.CheckpointCall?
    requires cp == BuildCheckpoint(cfg.H, cs.phase.leaves, cfg.logId, cs.call.at, previous).(signatures := signatures)
    ensures PhaseOk(cfg, rows, cs.(phase := ReadingHead(CheckpointJob(cp), 0, 0)))
  {
    hide Leaves, MerkleRoot, CheckpointJson, CheckpointFromJson;
    CheckpointRoundTrip(cp);
  }

  /** A call that fails outside the steps that release a key simply ends. */
  lemma StopStep(cfg: Config, s: State, c: nat, outcome: Outcome)
    requires Inv(cfg, s) && c in s.calls && OutcomeOk(cfg, s.rows, s.calls[c], outcome)
    ensures Inv(cfg, To(s, c, Done(outcome)))
  {
    hide Inv, OutcomeOk;
    OutcomeIgnoresPhase(cfg, s.rows, s.calls[c], outcome, Done(outcome));
    PhaseStep(cfg, s, c, Done(outcome));
  }

  lemma ReadHeadInv(cfg: Config, s: State, c: nat)
    requires Inv(cfg, s) && c in s.calls && s.calls[c].phase.ReadingHead?
    ensures Inv(cfg, ReadHeadStep(cfg, s, c))
  {
    hide Inv, Head, CoreHash, JobFits, CommitsWithin;
    CallOkAt(cfg, s, c);
    var p := s.calls[c].phase;
    if p.attempt >= cfg.attempts {
      FailIsOk(cfg, s.rows, s.calls[c]);
      RaiseStep(cfg, s, c, Failed(WhileAppending(p.job)));
    } else {
      HeadIsLast(s.rows);
      NextEntryFits(cfg.H, s.rows, p.job);
      var entry := NextEntry(cfg.H, Head(s.rows), p.job.eventType, p.job.payload, p.job.atTime, p.job.requestId);
      PhaseStep(cfg, s, c, Inserting(p.job, p.attempt, if p.attempt == 0 then |s.rows| else p.since, entry));
    }
  }

  lemma NextEntryFits(H: Hash, rows: Rows, job: Job)
    requires Chained(H, rows)
    ensures var e := NextEntry(H, if |rows| == 0 then None else Some(rows[|rows| - 1]),
                               job.eventType, job.payload, job.atTime, job.requestId);
            Fits(H, rows, |rows|, e) && JobOf(job.stage, e) == job
  {
    hide CoreHash, Chained, Sealed;
    LastFits(H, rows);
    var prev := if |rows| == 0 then None else Some(rows[|rows| - 1]);
    NextIsSealed(H, prev, job);
  }

  lemma LastFits(H: Hash, rows: Rows)
    requires Chained(H, rows)
    ensures |rows| > 0 ==> |rows| - 1 in rows && rows[|rows| - 1].seqNo == |rows| - 1
  {
    hide CoreHash;
    assert |rows| > 0 ==> |rows| - 1 in rows && Fits(H, rows, |rows| - 1, rows[|rows| - 1]);
  }

  lemma NextIsSealed(H: Hash, prev: Option<LedgerEntry>, job: Job)
    ensures var e := NextEntry(H, prev, job.eventType, job.payload, job.atTime, job.requestId);
            && e.seqNo == (if prev.Some? then prev.value.seqNo + 1 else 0)
            && e.prevHash == (if prev.Some? then prev.value.entryHash else ZERO_HASH)
            && e.entryHash == CoreHash(H, e) && JobOf(job.stage, e) == job
  {
    hide CanonicalHash;
    var e := NextEntry(H, prev, job.eventType, job.payload, job.atTime, job.requestId);
    assert CoreJson(e) == CoreJson(e.(entryHash := ""));
  }

  /** The step a call fails in says what it has contributed. */
  function FailedIn(phase: Phase): Step {
    match phase
    case ReadingHead(job, _, _) => WhileAppending(job)
    case Inserting(job, _, _, _) => WhileAppending(job)
    case Recomputing => WhileDeriving
    case Projecting => WhileStoring
    case Completing => WhileCompleting
    case _ => WhileLooking
  }

  lemma FailIsOk(cfg: Config, rows: Rows, cs: CallState)
    requires CallOk(cfg, rows, cs) && !cs.phase.Done? && !cs.phase.Releasing?
    ensures OutcomeOk(cfg, rows, cs, Failed(FailedIn(cs.phase)))
  {
  }

  // ------------------------------------------------------- an entry that lands

  /** `t` is `s` after call `c` appended `e` at the end of the rows. */
  ghost predicate Landed(s: State, t: State, c: nat, stage: Stage, e: LedgerEntry, phase: Phase) {
    && c in s.calls && Dense(s.rows) && stage !in s.calls[c].slots
    && var n := |s.rows|;
       t == s.(rows := s.rows[n := e], author := s.author[n := (c, stage)],
               calls := s.calls[c := CallState(s.calls[c].call, phase, s.calls[c].slots[stage := n])])
  }

  lemma LandedDense(rows: Rows, e: LedgerEntry)
    requires Dense(rows)
    ensures var more := rows[|rows| := e];
            Dense(more) && Extends(rows, more) && |more| == |rows| + 1
  {
    var n := |rows|;
    assert n !in rows;
    assert |rows[n := e]| == n + 1;
  }

  lemma LandedChain(H: Hash, rows: Rows, e: LedgerEntry)
    requires Chained(H, rows) && Fits(H, rows, |rows|, e)
    ensures Chained(H, rows[|rows| := e])
  {
    hide CoreHash;
    LandedDense(rows, e);
    var n := |rows|;
    var more := rows[n := e];
    forall i | i in more
      ensures Fits(H, more, i, more[i])
    {
      assert i != n ==> Fits(H, rows, i, rows[i]);
      assert PrevHash(more, i) == PrevHash(rows, i);
    }
  }

  lemma LandedRows(cfg: Config, s: State, t: State, c: nat, stage: Stage, e: LedgerEntry, phase: Phase)
    requires Landed(s, t, c, stage, e, phase) && RowsOk(cfg, s) && AllSlotsOk(s)
    requires Dense(t.rows) && Extends(s.rows, t.rows) && |s.rows| <= |t.rows|
    requires JobFits(cfg, s.calls[c].call, JobOf(stage, e))
    requires e.eventType == PUBLISHED ==> CommitsWithin(cfg.H, s.rows, e.payload, |s.rows|)
    ensures RowsOk(cfg, t) && AllSlotsOk(t)
  {
    hide JobFits, CommitsWithin, Dense, RowOk, SlotsOk;
    DenseEnd(s.rows);
    DenseEnd(t.rows);
    forall i | i in t.rows
      ensures RowOk(cfg, t, i)
    {
      if i in s.rows {
        assert RowOk(cfg, s, i);
        OldRow(cfg, s, t, c, stage, e, phase, i);
      } else {
        NewRow(cfg, s, t, c, stage, e, phase);
      }
    }
    forall d | d in t.calls
      ensures SlotsOk(t, d)
    {
      assert SlotsOk(s, d);
      SlotsGrow(s, t, c, stage, e, phase, d);
    }
  }

  lemma SlotsGrow(s: State, t: State, c: nat, stage: Stage, e: LedgerEntry, phase: Phase, d: nat)
    requires Landed(s, t, c, stage, e, phase) && d in s.calls && SlotsOk(s, d) && |s.rows| !in s.rows
    ensures SlotsOk(t, d)
  {
    hide Dense;
  }

  lemma OldRow(cfg: Config, s: State, t: State, c: nat, stage: Stage, e: LedgerEntry, phase: Phase, i: nat)
    requires Landed(s, t, c, stage, e, phase) && i in s.rows && RowOk(cfg, s, i)
    requires Dense(t.rows) && Extends(s.rows, t.rows) && i < |s.rows| <= |t.rows|
    ensures i in t.rows && RowOk(cfg, t, i)
  {
    hide JobFits, CommitsWithin, Dense;
    if s.rows[i].eventType == PUBLISHED {
      CommitsGrow(cfg.H, s.rows, t.rows, s.rows[i].payload, i, i);
    }
  }

  lemma NewRow(cfg: Config, s: State, t: State, c: nat, stage: Stage, e: LedgerEntry, phase: Phase)
    requires Landed(s, t, c, stage, e, phase)
    requires Dense(t.rows) && Extends(s.rows, t.rows) && |s.rows| <= |t.rows|
    requires JobFits(cfg, s.calls[c].call, JobOf(stage, e))
    requires e.eventType == PUBLISHED ==> CommitsWithin(cfg.H, s.rows, e.payload, |s.rows|)
    ensures RowOk(cfg, t, |s.rows|)
  {
    hide JobFits, CommitsWithin, Dense;
    if e.eventType == PUBLISHED {
      CommitsGrow(cfg.H, s.rows, t.rows, e.payload, |s.rows|, |s.rows|);
    }
  }

  lemma DenseEnd(rows: Rows)
    requires Dense(rows)
    ensures |rows| !in rows && forall i :: i in rows ==> i < |rows|
  {
  }

  lemma LandedCalls(cfg: Config, s: State, t: State, c: nat, stage: Stage, e: LedgerEntry, phase: Phase)
    requires Landed(s, t, c, stage, e, phase) && CallsOk(cfg, s)
    requires Dense(t.rows) && Extends(s.rows, t.rows) && |s.rows| <= |t.rows|
    requires PhaseOk(cfg, t.rows, t.calls[c])
    requires stage.Status? ==> Main in s.calls[c].slots
    ensures CallsOk(cfg, t)
  {
    hide PhaseOk, Dense;
    forall d | d in t.calls
      ensures CallOk(cfg, t.rows, t.calls[d])
    {
      assert CallOk(cfg, s.rows, s.calls[d]);
      if d != c {
        CallGrows(cfg, s.rows, t.rows, s.calls[d]);
      }
    }
  }

  lemma LandedKeys(cfg: Config, s: State, t: State, c: nat, stage: Stage, e: LedgerEntry, phase: Phase)
    requires Landed(s, t, c, stage, e, phase) && WinnersOk(cfg, s) && KeysOk(cfg, s)
    requires Winning(cfg, s.calls[c]) == Winning(cfg, t.calls[c])
    requires s.calls[c].phase.Inserting?
    ensures WinnersOk(cfg, t) && KeysOk(cfg, t)
  {
    hide Fingerprint, Winning, Dense;
    forall d | d in t.calls
      ensures WinnerOk(cfg, t, d)
    {
      assert WinnerOk(cfg, s, d);
    }
    forall key | key in t.keys
      ensures KeyOk(cfg, t, key)
    {
      assert KeyOk(cfg, s, key);
      if s.holder[key] == c {
        InsertingIsNotDone(cfg, s.calls[c]);
      }
    }
  }

  lemma InsertingIsNotDone(cfg: Config, cs: CallState)
    requires cs.phase.Inserting?
    ensures !cs.phase.Done? && (cfg.keyed && cs.call.DecideCall? ==> Winning(cfg, cs))
  {
  }

  /** A landed decision adds one row under its key, and its winner has landed; any other landed
      entry changes neither side. */
  lemma LandedCounts(cfg: Config, s: State, t: State, c: nat, stage: Stage, e: LedgerEntry, phase: Phase)
    requires Landed(s, t, c, stage, e, phase) && WinnersOk(cfg, s) && KeysOk(cfg, s) && CountsOk(cfg, s)
    requires s.calls[c].phase.Inserting? && WellFormed(cfg, s.calls[c].call)
    requires JobFits(cfg, s.calls[c].call, JobOf(stage, e))
    ensures CountsOk(cfg, t)
  {
    hide Fingerprint, JobFits, CountOk, WinnerOk, KeyOk, Winning, UnderKey;
    DenseEnd(s.rows);
    assert WinnerOk(cfg, s, c);
    OnlyDecisionsCount(cfg, s.calls[c].call, stage, e);
    forall key | cfg.keyed
      ensures CountOk(cfg, t, key)
    {
      assert CountOk(cfg, s, key) && (key in s.keys ==> KeyOk(cfg, s, key));
      RowsUnderLanded(cfg, s.rows, e, key);
      HolderAfter(cfg, s, t, c, stage, e, phase, key);
      JoinCount(cfg, s, t, key, UnderKey(cfg, e, key));
    }
  }

  lemma JoinCount(cfg: Config, s: State, t: State, key: string, more: bool)
    requires CountOk(cfg, s, key) && t.released == s.released
    requires |RowsUnder(cfg, t.rows, key)| == |RowsUnder(cfg, s.rows, key)| + if more then 1 else 0
    requires if more then HolderLanded(t, key) && !HolderLanded(s, key) else HolderLanded(t, key) == HolderLanded(s, key)
    ensures CountOk(cfg, t, key)
  {
  }

  lemma RowsUnderLanded(cfg: Config, rows: Rows, e: LedgerEntry, key: string)
    requires |rows| !in rows
    ensures |RowsUnder(cfg, rows[|rows| := e], key)|
         == |RowsUnder(cfg, rows, key)| + if UnderKey(cfg, e, key) then 1 else 0
  {
    hide UnderKey;
    var before, after := RowsUnder(cfg, rows, key), RowsUnder(cfg, rows[|rows| := e], key);
    assert forall i :: i in after <==> i in before || (i == |rows| && UnderKey(cfg, e, key));
    if UnderKey(cfg, e, key) {
      assert after == before + {|rows|};
    } else {
      assert after == before;
    }
  }

  lemma HolderAfter(cfg: Config, s: State, t: State, c: nat, stage: Stage, e: LedgerEntry, phase: Phase, key: string)
    requires Landed(s, t, c, stage, e, phase) && WinnerOk(cfg, s, c) && (key in s.keys ==> KeyOk(cfg, s, key))
    requires s.calls[c].phase.Inserting? && cfg.keyed
    ensures if s.calls[c].call.DecideCall? && stage.Main? && KeyOf(s.calls[c].call.decision) == key
            then HolderLanded(t, key) && !HolderLanded(s, key)
            else HolderLanded(t, key) == HolderLanded(s, key)
  {
    hide Fingerprint, KeyOf, Dense;
    InsertingIsNotDone(cfg, s.calls[c]);
  }

  /** The entry is recorded under a key exactly when it is a decision's own entry and the key is
      that decision's. */
  lemma OnlyDecisionsCount(cfg: Config, call: Call, stage: Stage, e: LedgerEntry)
    requires WellFormed(cfg, call) && JobFits(cfg, call, JobOf(stage, e))
    ensures forall key :: UnderKey(cfg, e, key) <==> call.DecideCall? && stage.Main? && KeyOf(call.decision) == key
  {
    assert RECORDED[0] != STATUS_CHANGED[0] && RECORDED[0] != CREATED[0] && RECORDED[0] != PUBLISHED[0];
  }

  lemma AfterAppendIsOk(cfg: Config, rows: Rows, cs: CallState, stage: Stage, n: nat)
    requires WellFormed(cfg, cs.call) && stage !in cs.slots
    requires stage.Main? ==> cs.slots == map[]
    requires stage.Status? ==> Main in cs.slots && cs.call.DecideCall?
    ensures var landed := CallState(cs.call, AfterAppend(cs.call, stage), cs.slots[stage := n]);
            PhaseOk(cfg, rows, landed) && (cs.phase.Inserting? ==> Winning(cfg, landed) == Winning(cfg, cs))
  {
  }

  lemma LandInv(cfg: Config, s: State, c: nat)
    requires Inv(cfg, s) && c in s.calls && s.calls[c].phase.Inserting?
    requires s.calls[c].phase.entry.seqNo >= 0 && s.calls[c].phase.entry.seqNo !in s.rows
    ensures Inv(cfg, InsertStep(cfg, s, c))
    ensures Extends(s.rows, InsertStep(cfg, s, c).rows)
  {
    hide RowsOk, AllSlotsOk, WinnersOk, KeysOk, CountsOk, CallsOk, JobFits, CommitsWithin, Winning, CoreHash;
    CallOkAt(cfg, s, c);
    var p := s.calls[c].phase;
    var n, stage, e := |s.rows|, p.job.stage, p.entry;
    assert e.seqNo == n;
    var t := InsertStep(cfg, s, c);
    var phase := AfterAppend(s.calls[c].call, stage);
    assert Landed(s, t, c, stage, e, phase);
    LandedChain(cfg.H, s.rows, e);
    LandedDense(s.rows, e);
    if stage.Status? {
      StatusIsDecides(cfg, s.calls[c].call, p.job);
    }
    AfterAppendIsOk(cfg, t.rows, s.calls[c], stage, n);
    LandedRows(cfg, s, t, c, stage, e, phase);
    LandedCalls(cfg, s, t, c, stage, e, phase);
    LandedKeys(cfg, s, t, c, stage, e, phase);
    LandedCounts(cfg, s, t, c, stage, e, phase);
  }

  lemma StatusIsDecides(cfg: Config, call: Call, job: Job)
    requires JobFits(cfg, call, job) && job.stage.Status?
    ensures call.DecideCall?
  {
  }

  // -------------------------------------------- winning, completing, releasing

  lemma WinKeys(cfg: Config, s: State, t: State, c: nat, key: string)
    requires Moved(s, t, c) && WinnersOk(cfg, s) && KeysOk(cfg, s) && CountsOk(cfg, s)
    requires s.calls[c].call.DecideCall? && s.calls[c].slots == map[] && KeyOf(s.calls[c].call.decision) == key
    requires key !in s.keys && Winning(cfg, t.calls[c])
    requires t.keys == s.keys[key := Reservation(Fingerprint(cfg.H, s.calls[c].call.decision), None)]
    requires t.holder == s.holder[key := c] && t.released == s.released
    ensures WinnersOk(cfg, t) && KeysOk(cfg, t) && CountsOk(cfg, t)
  {
    hide Fingerprint, Winning, KeyOf, UnderKey;
    forall d | d in t.calls
      ensures WinnerOk(cfg, t, d)
    {
      assert WinnerOk(cfg, s, d);
    }
    forall k | k in t.keys
      ensures KeyOk(cfg, t, k)
    {
      assert k != key ==> KeyOk(cfg, s, k);
    }
    forall k | cfg.keyed
      ensures CountOk(cfg, t, k)
    {
      assert CountOk(cfg, s, k) && (k in s.keys ==> KeyOk(cfg, s, k));
      assert HolderLanded(t, k) == HolderLanded(s, k);
    }
  }

  lemma CompleteKeys(cfg: Config, s: State, t: State, c: nat, key: string)
    requires Moved(s, t, c) && WinnersOk(cfg, s) && KeysOk(cfg, s) && CountsOk(cfg, s)
    requires s.calls[c].call.DecideCall? && KeyOf(s.calls[c].call.decision) == key
    requires Winning(cfg, s.calls[c]) && Main in s.calls[c].slots && !Winning(cfg, t.calls[c]) && t.calls[c].phase.Done?
    requires key in s.keys
    requires t.keys == s.keys[key := s.keys[key].(response := Some(s.calls[c].call.decision.requestId))]
    requires t.holder == s.holder && t.released == s.released
    ensures WinnersOk(cfg, t) && KeysOk(cfg, t) && CountsOk(cfg, t)
  {
    hide Fingerprint, Winning, KeyOf, UnderKey;
    assert WinnerOk(cfg, s, c);
    forall d | d in t.calls
      ensures WinnerOk(cfg, t, d)
    {
      assert WinnerOk(cfg, s, d);
    }
    forall k | k in t.keys
      ensures KeyOk(cfg, t, k)
    {
      assert KeyOk(cfg, s, k);
    }
    forall k | cfg.keyed
      ensures CountOk(cfg, t, k)
    {
      assert CountOk(cfg, s, k);
      assert HolderLanded(t, k) == HolderLanded(s, k);
    }
  }

  lemma ReleaseKeys(cfg: Config, s: State, t: State, c: nat, key: string)
    requires Moved(s, t, c) && WinnersOk(cfg, s) && KeysOk(cfg, s) && CountsOk(cfg, s)
    requires s.calls[c].call.DecideCall? && KeyOf(s.calls[c].call.decision) == key
    requires Winning(cfg, s.calls[c]) && !Winning(cfg, t.calls[c]) && t.calls[c].phase.Done?
    requires t.keys == map k | k in s.keys && k != key :: s.keys[k]
    requires t.holder == s.holder
    requires t.released == s.released[key := Count(s.released, key) + if Main in s.calls[c].slots then 1 else 0]
    ensures WinnersOk(cfg, t) && KeysOk(cfg, t) && CountsOk(cfg, t)
  {
    hide Fingerprint, Winning, KeyOf, UnderKey;
    assert WinnerOk(cfg, s, c);
    forall d | d in t.calls
      ensures WinnerOk(cfg, t, d)
    {
      assert WinnerOk(cfg, s, d);
    }
    forall k | k in t.keys
      ensures KeyOk(cfg, t, k)
    {
      assert KeyOk(cfg, s, k);
    }
    forall k | cfg.keyed
      ensures CountOk(cfg, t, k)
    {
      assert CountOk(cfg, s, k);
      assert k != key ==> HolderLanded(t, k) == HolderLanded(s, k);
    }
  }

  lemma WonIsOk(cfg: Config, rows: Rows, cs: CallState)
    requires cs.call.DecideCall? && cs.slots == map[]
    ensures PhaseOk(cfg, rows, cs.(phase := ReadingHead(DecideJob(cs.call.envelope, cs.call.decision), 0, 0)))
  {
    hide CommitsWithin;
    assert RECORDED[0] != PUBLISHED[0];
  }

  lemma WinInv(cfg: Config, s: State, c: nat)
    requires Inv(cfg, s) && c in s.calls && s.calls[c].phase.Reserving? && s.calls[c].call.DecideCall?
    requires KeyOf(s.calls[c].call.decision) !in s.keys
    ensures Inv(cfg, ReserveStep(cfg, s, c))
  {
    hide Fingerprint, KeyOf, RowsOk, AllSlotsOk, CountsOk, KeysOk, WinnersOk, Chained, CommitsWithin, DecideJob;
    CallOkAt(cfg, s, c);
    var t := ReserveStep(cfg, s, c);
    WonIsOk(cfg, s.rows, s.calls[c]);
    MovedRows(cfg, s, t, c);
    MovedCalls(cfg, s, t, c);
    WinKeys(cfg, s, t, c, KeyOf(s.calls[c].call.decision));
  }

  lemma ReserveInv(cfg: Config, s: State, c: nat)
    requires Inv(cfg, s) && c in s.calls && s.calls[c].phase.Reserving? && s.calls[c].call.DecideCall?
    ensures Inv(cfg, ReserveStep(cfg, s, c))
  {
    hide Fingerprint, KeyOf, RowsOk, AllSlotsOk, CountsOk, CallsOk, WinnersOk, Chained, CommitsWithin, DecideJob;
    CallOkAt(cfg, s, c);
    var cs := s.calls[c];
    var key := KeyOf(cs.call.decision);
    if key !in s.keys {
      WinInv(cfg, s, c);
    } else {
      assert KeyOk(cfg, s, key);
      if s.keys[key].fingerprint != Fingerprint(cfg.H, cs.call.decision) {
        PhaseStep(cfg, s, c, Done(KeyReused));
      } else if s.keys[key].response.None? {
        PhaseStep(cfg, s, c, Done(InFlight));
      } else {
        PhaseStep(cfg, s, c, Done(Replayed(s.keys[key].response.value, s.calls[s.holder[key]].call.decision)));
      }
    }
  }

  lemma CompleteInv(cfg: Config, s: State, c: nat)
    requires Inv(cfg, s) && c in s.calls && s.calls[c].phase.Completing? && s.calls[c].call.DecideCall?
    ensures Inv(cfg, CompleteStep(s, c))
  {
    hide Fingerprint, KeyOf, RowsOk, AllSlotsOk, CountsOk, KeysOk, Chained, CommitsWithin;
    CallOkAt(cfg, s, c);
    var t := CompleteStep(s, c);
    MovedRows(cfg, s, t, c);
    MovedCalls(cfg, s, t, c);
    CompleteKeys(cfg, s, t, c, KeyOf(s.calls[c].call.decision));
  }

  lemma ReleaseInv(cfg: Config, s: State, c: nat)
    requires Inv(cfg, s) && c in s.calls && s.calls[c].phase.Releasing? && s.calls[c].call.DecideCall?
    ensures Inv(cfg, ReleaseStep(s, c))
  {
    hide Fingerprint, KeyOf, RowsOk, AllSlotsOk, CountsOk, KeysOk, WinnersOk, CallsOk, Chained, CommitsWithin, OutcomeOk;
    CallOkAt(cfg, s, c);
    var t := ReleaseStep(s, c);
    OutcomeIgnoresPhase(cfg, s.rows, s.calls[c], s.calls[c].phase.outcome, t.calls[c].phase);
    MovedRows(cfg, s, t, c);
    MovedCalls(cfg, s, t, c);
    ReleaseKeys(cfg, s, t, c, KeyOf(s.calls[c].call.decision));
  }

  lemma InsertInv(cfg: Config, s: State, c: nat)
    requires Inv(cfg, s) && c in s.calls && s.calls[c].phase.Inserting?
    ensures Inv(cfg, InsertStep(cfg, s, c)) && Extends(s.rows, InsertStep(cfg, s, c).rows)
  {
    hide Inv, JobFits, CommitsWithin, CoreHash;
    CallOkAt(cfg, s, c);
    var p := s.calls[c].phase;
    if p.entry.seqNo !in s.rows {
      LandInv(cfg, s, c);
    } else if p.attempt + 1 >= cfg.attempts {
      RaiseStep(cfg, s, c, Exhausted(p.job, p.since));
    } else {
      PhaseStep(cfg, s, c, ReadingHead(p.job, p.attempt + 1, p.since));
    }
  }

  lemma RecomputeInv(cfg: Config, s: State, c: nat, changed: Option<Json>, at: string)
    requires Inv(cfg, s) && c in s.calls && s.calls[c].phase.Recomputing? && s.calls[c].call.DecideCall?
    ensures Inv(cfg, RecomputeStep(s, c, changed, at))
  {
    hide Inv, PhaseOk, StatusJob;
    CallOkAt(cfg, s, c);
    RecomputedIsOk(cfg, s.rows, s.calls[c], changed, at);
    match changed
    case None => PhaseStep(cfg, s, c, Projecting);
    case Some(payload) =>
      PhaseStep(cfg, s, c, ReadingHead(StatusJob(s.calls[c].call.decision, payload, at), 0, 0));
  }

  lemma RecomputedIsOk(cfg: Config, rows: Rows, cs: CallState, changed: Option<Json>, at: string)
    requires PhaseOk(cfg, rows, cs) && cs.phase.Recomputing? && cs.call.DecideCall?
    ensures PhaseOk(cfg, rows, cs.(phase := Projecting))
    ensures changed.Some? ==>
              PhaseOk(cfg, rows, cs.(phase := ReadingHead(StatusJob(cs.call.decision, changed.value, at), 0, 0)))
  {
    hide CommitsWithin;
    assert STATUS_CHANGED[0] != PUBLISHED[0];
  }

  lemma ProjectInv(cfg: Config, s: State, c: nat)
    requires Inv(cfg, s) && c in s.calls && s.calls[c].phase.Projecting?
    ensures Inv(cfg, ProjectStep(cfg, s, c))
  {
    hide Inv, PhaseOk;
    CallOkAt(cfg, s, c);
    ProjectedIsOk(cfg, s.rows, s.calls[c]);
    PhaseStep(cfg, s, c, if !s.calls[c].call.DecideCall? then Done(Created) else if cfg.keyed then Completing else Done(Decided));
  }

  lemma ProjectedIsOk(cfg: Config, rows: Rows, cs: CallState)
    requires PhaseOk(cfg, rows, cs) && cs.phase.Projecting?
    ensures PhaseOk(cfg, rows, cs.(phase := if !cs.call.DecideCall? then Done(Created) else if cfg.keyed then Completing else Done(Decided)))
  {
  }

  lemma FailInv(cfg: Config, s: State, c: nat)
    requires Inv(cfg, s) && c in s.calls
    ensures Inv(cfg, FailStep(cfg, s, c))
  {
    hide Inv, OutcomeOk;
    CallOkAt(cfg, s, c);
    var phase := s.calls[c].phase;
    if phase.Releasing? {
      StopStep(cfg, s, c, phase.outcome);
    } else if !phase.Done? {
      FailIsOk(cfg, s.rows, s.calls[c]);
      if phase.ReadingHead? || phase.Inserting? || phase.Recomputing? || phase.Projecting? {
        RaiseStep(cfg, s, c, Failed(FailedIn(phase)));
      } else {
        StopStep(cfg, s, c, Failed(FailedIn(phase)));
      }
    }
  }

  /** Every step keeps the invariant and never touches a row that is there. */
  lemma ApplyInv(cfg: Config, s: State, a: Action)
    requires Inv(cfg, s)
    ensures Inv(cfg, Apply(cfg, s, a)) && Extends(s.rows, Apply(cfg, s, a).rows)
  {
    hide Inv, LookStep, ReserveStep, ReadHeadStep, InsertStep, FailStep, ProjectStep, WellFormed, StatusJob, BuildCheckpoint;
    match a
    case Start(c, call) =>
      if c !in s.calls && WellFormed(cfg, call) {
        NewCall(cfg, s, c, call);
      }
    case Look(c) =>
      if c in s.calls && s.calls[c].phase.Loading? {
        LookInv(cfg, s, c);
      }
    case ReadPrevious(c, signatures) =>
      if c in s.calls && s.calls[c].phase.ReadingPrevious? && s.calls[c].call.CheckpointCall? {
        ReadPreviousInv(cfg, s, c, signatures);
      }
    case Reserve(c) =>
      if c in s.calls && s.calls[c].phase.Reserving? && s.calls[c].call.DecideCall? {
        ReserveInv(cfg, s, c);
      }
    case ReadHead(c) =>
      if c in s.calls && s.calls[c].phase.ReadingHead? {
        ReadHeadInv(cfg, s, c);
      }
    case Insert(c) =>
      if c in s.calls && s.calls[c].phase.Inserting? {
        InsertInv(cfg, s, c);
      }
    case Recompute(c, changed, at) =>
      if c in s.calls && s.calls[c].phase.Recomputing? && s.calls[c].call.DecideCall? {
        RecomputeInv(cfg, s, c, changed, at);
      }
    case Project(c) =>
      if c in s.calls && s.calls[c].phase.Projecting? {
        ProjectInv(cfg, s, c);
      }
    case Complete(c) =>
      if c in s.calls && s.calls[c].phase.Completing? && s.calls[c].call.DecideCall? {
        CompleteInv(cfg, s, c);
      }
    case Release(c) =>
      if c in s.calls && s.calls[c].phase.Releasing? && s.calls[c].call.DecideCall? {
        ReleaseInv(cfg, s, c);
      }
    case Fail(c) =>
      if c in s.calls {
        FailInv(cfg, s, c);
      }
  }
}
