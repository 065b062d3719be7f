/** The sequential service is a run of the concurrent protocol: every call, taken alone, is a list of
    protocol steps with the same effect on the ledger and on the keys. So everything proved of every
    run of the protocol holds of what the service's methods write. */
module Refinement {
  import opened ByteStrings
  import opened JsonText
  import opened Canonical
  import opened Models
  import opened Chain
  import opened PolicyEngine
  import opened Verifier
  import opened Envelope
  import opened SignedCheckpoints
  import opened Ceremony
  import opened Reads
  import opened Records
  import opened Operations
  import opened SequentialRuns
  import ReadModel
  import P = Protocol
  import opened ProtocolSafety
  import opened ProtocolRuns

  /** The protocol's settings for a service. */
  function ConfigOf(s: Service, attempts: nat): P.Config {
    P.Config(s.env.gate.H, s.env.gate.logId, attempts, s.keyed, envelope => DecodeDecision(envelope))
  }

  /** The protocol's state has this ledger and these keys, and call `n` has not started. */
  ghost predicate Tracks(cfg: P.Config, p: P.State, st: Stores, n: nat) {
    && Chained(cfg.H, p.rows) && P.Log(p.rows) == st.log && p.keys == st.keys
    && forall c :: c in p.calls ==> c < n
  }

  function Steps(cfg: P.Config, p: P.State, actions: seq<P.Action>): P.State
    decreases |actions|
  {
    if actions == [] then p else Steps(cfg, P.Apply(cfg, p, actions[0]), actions[1..])
  }

  lemma {:induction false} RunThenSteps(cfg: P.Config, run: seq<P.Action>, more: seq<P.Action>)
    ensures P.Run(cfg, run + more) == Steps(cfg, P.Run(cfg, run), more)
    decreases |more|
  {
    hide P.Apply;
    if more == [] {
      assert run + more == run;
    } else {
      RunOneMore(cfg, run, more[0]);
      RunThenSteps(cfg, run + [more[0]], more[1..]);
      assert run + more == (run + [more[0]]) + more[1..];
    }
  }

  lemma {:induction false} StepsThenSteps(cfg: P.Config, p: P.State, a: seq<P.Action>, b: seq<P.Action>)
    ensures Steps(cfg, p, a + b) == Steps(cfg, Steps(cfg, p, a), b)
    decreases |a|
  {
    hide P.Apply;
    if a == [] {
      assert a + b == b;
    } else {
      assert (a + b)[0] == a[0] && (a + b)[1..] == a[1..] + b;
      StepsThenSteps(cfg, P.Apply(cfg, p, a[0]), a[1..], b);
    }
  }

  lemma OneStep(cfg: P.Config, p: P.State, a: P.Action)
    ensures Steps(cfg, p, [a]) == P.Apply(cfg, p, a)
  {
    hide P.Apply;
    assert [a][1..] == [];
  }

  lemma TwoSteps(cfg: P.Config, p: P.State, a: P.Action, b: P.Action)
    ensures Steps(cfg, p, [a, b]) == P.Apply(cfg, P.Apply(cfg, p, a), b)
  {
    hide P.Apply;
    StepsThenSteps(cfg, p, [a], [b]);
    OneStep(cfg, p, a);
    OneStep(cfg, P.Apply(cfg, p, a), b);
    assert [a] + [b] == [a, b];
  }

  // ------------------------------------------------------------ an append alone

  function DraftOf(job: P.Job): Draft {
    Draft(job.eventType, job.payload, job.atTime, job.requestId)
  }

  /** A head read and an insert with nothing in between land the entry the sequential service
      appends. */
  lemma AppendSteps(cfg: P.Config, p: P.State, c: nat, job: P.Job)
    requires Chained(cfg.H, p.rows) && cfg.attempts >= 1
    requires c in p.calls && p.calls[c].phase == P.ReadingHead(job, 0, 0)
    ensures var q := Steps(cfg, p, [P.ReadHead(c), P.Insert(c)]);
            && Chained(cfg.H, q.rows) && q.keys == p.keys && q.calls.Keys == p.calls.Keys
            && P.Log(q.rows) == Appended(cfg.H, P.Log(p.rows), DraftOf(job))
            && q.calls[c].call == p.calls[c].call && q.calls[c].phase == P.AfterAppend(p.calls[c].call, job.stage)
  {
    hide P.Log, P.Head, CoreHash, P.Apply, EntryFor, Chained, Steps;
    var entry := EntryFor(cfg.H, P.Log(p.rows), DraftOf(job));
    TwoSteps(cfg, p, P.ReadHead(c), P.Insert(c));
    ReadHeadAlone(cfg, p, c, job);
    var mid := P.To(p, c, P.Inserting(job, 0, |p.rows|, entry));
    InsertAlone(cfg, mid, c, job, |p.rows|, entry);
    LandedLog(cfg.H, p.rows, DraftOf(job));
  }

  lemma ReadHeadAlone(cfg: P.Config, p: P.State, c: nat, job: P.Job)
    requires Chained(cfg.H, p.rows) && cfg.attempts >= 1
    requires c in p.calls && p.calls[c].phase == P.ReadingHead(job, 0, 0)
    ensures P.Apply(cfg, p, P.ReadHead(c)) == P.To(p, c, P.Inserting(job, 0, |p.rows|, EntryFor(cfg.H, P.Log(p.rows), DraftOf(job))))
  {
    hide P.Log, P.Head, CoreHash, Fits, NextEntry;
    HeadOfLog(cfg.H, p.rows);
  }

  lemma HeadOfLog(H: Hash, rows: Rows)
    requires Chained(H, rows)
    ensures P.Head(rows) == HeadOf(P.Log(rows))
  {
    hide P.Log, P.Head, Fits;
    LogIsEntries(rows);
    HeadIsLast(rows);
  }

  lemma LandedLog(H: Hash, rows: Rows, d: Draft)
    requires Chained(H, rows)
    ensures var e := EntryFor(H, P.Log(rows), d);
            && e.seqNo == |rows| && |rows| !in rows
            && Chained(H, rows[|rows| := e]) && P.Log(rows[|rows| := e]) == P.Log(rows) + [e]
  {
    hide P.Log, Fits, CanonicalHash;
    var e := EntryFor(H, P.Log(rows), d);
    var more := rows[|rows| := e];
    LogIsEntries(rows);
    NextEntryFits(H, rows, P.Job(P.Main, d.eventType, d.payload, d.atTime, d.requestId));
    FitsHasSeq(H, rows, |rows|, e);
    LandedChain(H, rows, e);
    LandedDense(rows, e);
    LogIsEntries(more);
    EntriesAgree(rows, more, |rows|);
  }

  lemma FitsHasSeq(H: Hash, rows: Rows, i: nat, e: LedgerEntry)
    requires Fits(H, rows, i, e)
    ensures e.seqNo == i
  {
    hide CoreHash;
  }

  lemma InsertAlone(cfg: P.Config, p: P.State, c: nat, job: P.Job, since: nat, entry: LedgerEntry)
    requires Chained(cfg.H, p.rows) && c in p.calls && p.calls[c].phase == P.Inserting(job, 0, since, entry)
    requires entry == EntryFor(cfg.H, P.Log(p.rows), DraftOf(job))
    ensures var q := P.Apply(cfg, p, P.Insert(c));
            && q.rows == p.rows[|p.rows| := entry] && q.keys == p.keys && q.calls.Keys == p.calls.Keys
            && q.calls[c].call == p.calls[c].call && q.calls[c].phase == P.AfterAppend(p.calls[c].call, job.stage)
  {
    hide P.Log, Chained, EntryFor;
    LandedLog(cfg.H, p.rows, DraftOf(job));
  }

  // ---------------------------------------------------------------- starting a call

  lemma StartAlone(cfg: P.Config, p: P.State, st: Stores, n: nat, call: P.Call)
    requires Tracks(cfg, p, st, n) && P.WellFormed(cfg, call)
    ensures var q := P.Apply(cfg, p, P.Start(n, call));
            Tracks(cfg, q, st, n + 1) && n in q.calls && q.calls[n] == P.CallState(call, P.Loading, map[])
  {
    hide P.Log, Chained;
  }

  /** The call is at `phase`, with nothing else changed since it started. */
  ghost predicate At(cfg: P.Config, p: P.State, st: Stores, n: nat, call: P.Call, phase: P.Phase) {
    Tracks(cfg, p, st, n + 1) && n in p.calls && p.calls[n].call == call && p.calls[n].phase == phase
  }

  // -------------------------------------------------------------------- creating

  /** `stored` tells whether the view is stored afterwards, or that raises. */
  lemma CreateSteps(s: Service, attempts: nat, p: P.State, st: Stores, n: nat, r: Request, stored: bool) returns (actions: seq<P.Action>)
    requires attempts >= 1 && Tracks(ConfigOf(s, attempts), p, st, n)
    requires LoadRequest(st.log, RequestId(s.env.gate.H, r)).NotFound?
    ensures Tracks(ConfigOf(s, attempts), Steps(ConfigOf(s, attempts), p, actions),
                   st.(log := Appended(s.env.gate.H, st.log, CreatedDraft(s.env.gate.H, r))), n + 1)
  {
    hide P.Log, Chained, LoadRequest, RequestId, RequestJson, EntryFor, P.Apply, Steps;
    var cfg := ConfigOf(s, attempts);
    var call := P.CreateCall(r);
    var begin := [P.Start(n, call), P.Look(n)];
    var append := [P.ReadHead(n), P.Insert(n)];
    var finish := if stored then P.Project(n) else P.Fail(n);
    actions := begin + append + [finish];
    StepsThenSteps(cfg, p, begin + append, [finish]);
    StepsThenSteps(cfg, p, begin, append);
    TwoSteps(cfg, p, P.Start(n, call), P.Look(n));
    StartAlone(cfg, p, st, n, call);
    LookToCreate(cfg, P.Apply(cfg, p, P.Start(n, call)), n, r);
    AppendSteps(cfg, Steps(cfg, p, begin), n, P.CreateJob(cfg, r));
    var q := Steps(cfg, p, begin + append);
    OneStep(cfg, q, finish);
    FinishAlone(cfg, q, n, finish);
  }

  lemma FinishAlone(cfg: P.Config, p: P.State, n: nat, finish: P.Action)
    requires n in p.calls && p.calls[n].phase.Projecting? && !p.calls[n].call.DecideCall?
    requires finish == P.Project(n) || finish == P.Fail(n)
    ensures var q := P.Apply(cfg, p, finish);
            q.rows == p.rows && q.keys == p.keys && q.calls.Keys == p.calls.Keys && q.calls[n].phase.Done?
  {
  }

  lemma LookToCreate(cfg: P.Config, p: P.State, n: nat, r: Request)
    requires n in p.calls && p.calls[n].phase.Loading? && p.calls[n].call == P.CreateCall(r)
    requires LoadRequest(P.Log(p.rows), RequestId(cfg.H, r)).NotFound?
    ensures P.Apply(cfg, p, P.Look(n)) == P.To(p, n, P.ReadingHead(P.CreateJob(cfg, r), 0, 0))
  {
    hide P.Log, LoadRequest, RequestId, RequestJson;
  }

  // ------------------------------------------------------------------ publishing

  lemma PublishSteps(s: Service, attempts: nat, p: P.State, st: Stores, n: nat, signer: Signer, now: string) returns (actions: seq<P.Action>)
    requires attempts >= 1 && Tracks(ConfigOf(s, attempts), p, st, n) && LatestCheckpoint(st.log).Some?
    ensures Tracks(ConfigOf(s, attempts), Steps(ConfigOf(s, attempts), p, actions), Publish(s, st, signer, now).0, n + 1)
  {
    hide P.Log, Chained, LatestCheckpoint, BuildCheckpoint, SignatureEntry, CheckpointSignable, CheckpointJson, EntryFor, P.Apply, Steps;
    hide Leaves;
    var cfg := ConfigOf(s, attempts);
    var call := P.CheckpointCall(now);
    var unsigned := BuildCheckpoint(cfg.H, Leaves(st.log), cfg.logId, now, LatestCheckpoint(st.log).value);
    var cp := SignCheckpoint(unsigned, signer);
    var begin := [P.Start(n, call), P.Look(n)];
    var read := [P.ReadPrevious(n, cp.signatures)];
    var append := [P.ReadHead(n), P.Insert(n)];
    actions := begin + read + append;
    StepsThenSteps(cfg, p, begin + read, append);
    StepsThenSteps(cfg, p, begin, read);
    TwoSteps(cfg, p, P.Start(n, call), P.Look(n));
    StartAlone(cfg, p, st, n, call);
    LookToPublish(cfg, P.Apply(cfg, p, P.Start(n, call)), n, now);
    var q := Steps(cfg, p, begin);
    OneStep(cfg, q, read[0]);
    ReadPreviousAlone(cfg, q, n, Leaves(st.log), now, cp.signatures);
    assert cp == unsigned.(signatures := cp.signatures);
    AppendSteps(cfg, Steps(cfg, p, begin + read), n, P.CheckpointJob(cp));
  }

  lemma LookToPublish(cfg: P.Config, p: P.State, n: nat, now: string)
    requires n in p.calls && p.calls[n].phase.Loading? && p.calls[n].call == P.CheckpointCall(now)
    ensures P.Apply(cfg, p, P.Look(n)) == P.To(p, n, P.ReadingPrevious(Leaves(P.Log(p.rows))))
  {
    hide P.Log, Leaves;
  }

  lemma ReadPreviousAlone(cfg: P.Config, p: P.State, n: nat, leaves: seq<string>, now: string, signatures: seq<Json>)
    requires n in p.calls && p.calls[n].phase == P.ReadingPrevious(leaves) && p.calls[n].call == P.CheckpointCall(now)
    requires LatestCheckpoint(P.Log(p.rows)).Some?
    ensures var cp := BuildCheckpoint(cfg.H, leaves, cfg.logId, now, LatestCheckpoint(P.Log(p.rows)).value);
            P.Apply(cfg, p, P.ReadPrevious(n, signatures))
            == P.To(p, n, P.ReadingHead(P.CheckpointJob(cp.(signatures := signatures)), 0, 0))
  {
    hide P.Log, LatestCheckpoint, BuildCheckpoint, CheckpointJson;
  }

  // -------------------------------------------------------------------- deciding

  /** The keys while a decision is recorded: reserved, if there is an idempotency store. */
  function ReservedFor(s: Service, keys: map<string, P.Reservation>, d: Decision): map<string, P.Reservation> {
    if s.keyed then keys[P.KeyOf(d) := P.Reservation(Fingerprint(s.env.gate.H, d), None)] else keys
  }

  /** Starting, screening, winning the key if there are keys, and appending the decision. */
  lemma DecideSteps(s: Service, attempts: nat, p: P.State, st: Stores, n: nat, envelope: Json, d: Decision) returns (actions: seq<P.Action>)
    requires attempts >= 1 && Tracks(ConfigOf(s, attempts), p, st, n)
    requires DecodeDecision(envelope) == Some(d) && LoadRequest(st.log, d.requestId).Found?
    requires s.keyed ==> P.KeyOf(d) !in st.keys
    ensures var cfg := ConfigOf(s, attempts);
            At(cfg, Steps(cfg, p, actions),
               st.(log := Appended(cfg.H, st.log, RecordedDraft(envelope, d)), keys := ReservedFor(s, st.keys, d)),
               n, P.DecideCall(envelope, d), P.Recomputing)
  {
    hide P.Log, Chained, LoadRequest, DecodeDecision, Fingerprint, P.KeyOf, EntryFor, P.Apply, Steps;
    var cfg := ConfigOf(s, attempts);
    var call := P.DecideCall(envelope, d);
    var begin := [P.Start(n, call), P.Look(n)];
    var reserve := if s.keyed then [P.Reserve(n)] else [];
    var append := [P.ReadHead(n), P.Insert(n)];
    actions := begin + reserve + append;
    StepsThenSteps(cfg, p, begin + reserve, append);
    StepsThenSteps(cfg, p, begin, reserve);
    TwoSteps(cfg, p, P.Start(n, call), P.Look(n));
    StartAlone(cfg, p, st, n, call);
    LookToDecide(cfg, P.Apply(cfg, p, P.Start(n, call)), n, envelope, d);
    var q := Steps(cfg, p, begin);
    if s.keyed {
      OneStep(cfg, q, reserve[0]);
      ReserveAlone(cfg, q, n, envelope, d);
    } else {
      NoSteps(cfg, q);
    }
    AppendSteps(cfg, Steps(cfg, p, begin + reserve), n, P.DecideJob(envelope, d));
  }

  lemma LookToDecide(cfg: P.Config, p: P.State, n: nat, envelope: Json, d: Decision)
    requires n in p.calls && p.calls[n].phase.Loading? && p.calls[n].call == P.DecideCall(envelope, d)
    requires LoadRequest(P.Log(p.rows), d.requestId).Found?
    ensures P.Apply(cfg, p, P.Look(n))
         == P.To(p, n, if cfg.keyed then P.Reserving else P.ReadingHead(P.DecideJob(envelope, d), 0, 0))
  {
    hide P.Log, LoadRequest;
  }

  lemma ReserveAlone(cfg: P.Config, p: P.State, n: nat, envelope: Json, d: Decision)
    requires n in p.calls && p.calls[n].phase.Reserving? && p.calls[n].call == P.DecideCall(envelope, d)
    requires P.KeyOf(d) !in p.keys
    ensures var q := P.Apply(cfg, p, P.Reserve(n));
            && q.rows == p.rows && q.keys == p.keys[P.KeyOf(d) := P.Reservation(Fingerprint(cfg.H, d), None)]
            && q.calls == p.calls[n := p.calls[n].(phase := P.ReadingHead(P.DecideJob(envelope, d), 0, 0))]
  {
    hide P.KeyOf, Fingerprint;
  }

  /** The keys once a decision is recorded: completed, if there is an idempotency store. */
  function CompletedFor(s: Service, keys: map<string, P.Reservation>, d: Decision): map<string, P.Reservation>
    requires s.keyed ==> P.KeyOf(d) in keys
  {
    if s.keyed then keys[P.KeyOf(d) := keys[P.KeyOf(d)].(response := Some(d.requestId))] else keys
  }

  /** Recording a status, if there is one to record, storing the view, then completing the key, if
      there is one. */
  lemma SettleSteps(s: Service, attempts: nat, p: P.State, st: Stores, n: nat, envelope: Json, d: Decision, change: Option<Draft>)
      returns (actions: seq<P.Action>)
    requires attempts >= 1 && At(ConfigOf(s, attempts), p, st, n, P.DecideCall(envelope, d), P.Recomputing)
    requires s.keyed ==> P.KeyOf(d) in st.keys
    requires change.Some? ==> change.value.eventType == STATUS_CHANGED && change.value.requestId == Some(d.requestId)
    ensures var cfg := ConfigOf(s, attempts);
            Tracks(cfg, Steps(cfg, p, actions),
                   st.(log := if change.Some? then Appended(cfg.H, st.log, change.value) else st.log,
                       keys := CompletedFor(s, st.keys, d)), n + 1)
  {
    hide P.Log, Chained, P.KeyOf, EntryFor, P.Apply, Steps;
    var cfg := ConfigOf(s, attempts);
    var first := StatusSteps(s, attempts, p, st, n, envelope, d, change);
    var q := Steps(cfg, p, first);
    var log := if change.Some? then Appended(cfg.H, st.log, change.value) else st.log;
    var second := [P.Project(n)] + if s.keyed then [P.Complete(n)] else [];
    actions := first + second;
    StepsThenSteps(cfg, p, first, second);
    StepsThenSteps(cfg, q, [P.Project(n)], if s.keyed then [P.Complete(n)] else []);
    OneStep(cfg, q, P.Project(n));
    ProjectAlone(cfg, q, n, envelope, d);
    var q' := Steps(cfg, q, [P.Project(n)]);
    if s.keyed {
      OneStep(cfg, q', P.Complete(n));
      CompleteAlone(cfg, q', n, envelope, d);
    } else {
      NoSteps(cfg, q');
    }
  }

  /** Re-deriving the status, and recording it if there is one to record. */
  lemma StatusSteps(s: Service, attempts: nat, p: P.State, st: Stores, n: nat, envelope: Json, d: Decision, change: Option<Draft>)
      returns (actions: seq<P.Action>)
    requires attempts >= 1 && At(ConfigOf(s, attempts), p, st, n, P.DecideCall(envelope, d), P.Recomputing)
    requires change.Some? ==> change.value.eventType == STATUS_CHANGED && change.value.requestId == Some(d.requestId)
    ensures var cfg := ConfigOf(s, attempts);
            At(cfg, Steps(cfg, p, actions), st.(log := if change.Some? then Appended(cfg.H, st.log, change.value) else st.log),
               n, P.DecideCall(envelope, d), P.Projecting)
  {
    hide P.Log, Chained, P.KeyOf, EntryFor, P.Apply, Steps;
    var cfg := ConfigOf(s, attempts);
    var payload := if change.Some? then Some(change.value.payload) else None;
    var at := if change.Some? then change.value.atTime else "";
    var recompute := [P.Recompute(n, payload, at)];
    var append := if change.Some? then [P.ReadHead(n), P.Insert(n)] else [];
    actions := recompute + append;
    StepsThenSteps(cfg, p, recompute, append);
    OneStep(cfg, p, recompute[0]);
    RecomputeAlone(cfg, p, n, envelope, d, payload, at);
    var q := Steps(cfg, p, recompute);
    if change.Some? {
      var job := P.StatusJob(d, change.value.payload, change.value.atTime);
      assert DraftOf(job) == change.value;
      AppendSteps(cfg, q, n, job);
    } else {
      NoSteps(cfg, q);
    }
  }

  lemma ProjectAlone(cfg: P.Config, p: P.State, n: nat, envelope: Json, d: Decision)
    requires n in p.calls && p.calls[n].phase.Projecting? && p.calls[n].call == P.DecideCall(envelope, d)
    ensures P.Apply(cfg, p, P.Project(n)) == P.To(p, n, if cfg.keyed then P.Completing else P.Done(P.Decided))
  {
  }

  lemma NoSteps(cfg: P.Config, p: P.State)
    ensures Steps(cfg, p, []) == p
  {
  }

  lemma RecomputeAlone(cfg: P.Config, p: P.State, n: nat, envelope: Json, d: Decision, payload: Option<Json>, at: string)
    requires n in p.calls && p.calls[n].phase.Recomputing? && p.calls[n].call == P.DecideCall(envelope, d)
    ensures P.Apply(cfg, p, P.Recompute(n, payload, at))
         == P.To(p, n, if payload.None? then P.Projecting else P.ReadingHead(P.StatusJob(d, payload.value, at), 0, 0))
  {
  }

  lemma CompleteAlone(cfg: P.Config, p: P.State, n: nat, envelope: Json, d: Decision)
    requires n in p.calls && p.calls[n].phase.Completing? && p.calls[n].call == P.DecideCall(envelope, d) && P.KeyOf(d) in p.keys
    ensures var q := P.Apply(cfg, p, P.Complete(n));
            && q.rows == p.rows && q.calls.Keys == p.calls.Keys
            && q.keys == p.keys[P.KeyOf(d) := p.keys[P.KeyOf(d)].(response := Some(d.requestId))]
  {
    hide P.KeyOf;
  }

  /** The re-derivation raises: the key is released, if there is one. */
  lemma RaiseSteps(s: Service, attempts: nat, p: P.State, st: Stores, n: nat, envelope: Json, d: Decision) returns (actions: seq<P.Action>)
    requires At(ConfigOf(s, attempts), p, st, n, P.DecideCall(envelope, d), P.Recomputing)
    ensures Tracks(ConfigOf(s, attempts), Steps(ConfigOf(s, attempts), p, actions),
                   st.(keys := if s.keyed then st.keys - {P.KeyOf(d)} else st.keys), n + 1)
  {
    hide P.Log, Chained, P.KeyOf, P.Apply, Steps;
    var cfg := ConfigOf(s, attempts);
    FailAlone(cfg, p, n);
    if s.keyed {
      actions := [P.Fail(n), P.Release(n)];
      TwoSteps(cfg, p, P.Fail(n), P.Release(n));
      ReleaseAlone(cfg, P.Apply(cfg, p, P.Fail(n)), n, envelope, d);
    } else {
      actions := [P.Fail(n)];
      OneStep(cfg, p, P.Fail(n));
    }
  }

  lemma FailAlone(cfg: P.Config, p: P.State, n: nat)
    requires n in p.calls && p.calls[n].phase.Recomputing? && p.calls[n].call.DecideCall?
    ensures var failed := P.Failed(P.WhileDeriving);
            P.Apply(cfg, p, P.Fail(n)) == P.To(p, n, if cfg.keyed then P.Releasing(failed) else P.Done(failed))
  {
  }

  lemma ReleaseAlone(cfg: P.Config, p: P.State, n: nat, envelope: Json, d: Decision)
    requires n in p.calls && p.calls[n].phase == P.Releasing(P.Failed(P.WhileDeriving)) && p.calls[n].call == P.DecideCall(envelope, d)
    ensures var q := P.Apply(cfg, p, P.Release(n));
            && q.rows == p.rows && q.calls.Keys == p.calls.Keys && q.keys == p.keys - {P.KeyOf(d)}
  {
    hide P.KeyOf;
  }

  /** What a submission that gets as far as recording leaves. */
  function AfterRecording(s: Service, st: Stores, r: Request, d: Decision, envelope: Json, t: Times): Stores {
    if s.keyed then SubmitKeyed(s, st, r, d, envelope, t).0 else RecordDecision(s, st, r, d, envelope, t).0
  }

  /** A submission that gets as far as recording, under a fresh key or without one. */
  lemma RecordSteps(s: Service, attempts: nat, p: P.State, st: Stores, n: nat, envelope: Json, d: Decision, r: Request, t: Times)
      returns (actions: seq<P.Action>)
    requires attempts >= 1 && Tracks(ConfigOf(s, attempts), p, st, n)
    requires DecodeDecision(envelope) == Some(d) && LoadRequest(st.log, d.requestId) == Found(r)
    requires RequestId(s.env.gate.H, r) == d.requestId && (s.keyed ==> P.KeyOf(d) !in st.keys)
    ensures Tracks(ConfigOf(s, attempts), Steps(ConfigOf(s, attempts), p, actions), AfterRecording(s, st, r, d, envelope, t), n + 1)
  {
    hide P.Log, Chained, LoadRequest, DecodeDecision, Fingerprint, P.KeyOf, EntryFor, P.Apply, Steps, Recompute, StatusPayload;
    hide RequestId, ProjectRecord, StatusOf;
    var cfg := ConfigOf(s, attempts);
    var log := Appended(cfg.H, st.log, RecordedDraft(envelope, d));
    var reserved := ReservedFor(s, st.keys, d);
    var first := DecideSteps(s, attempts, p, st, n, envelope, d);
    var mid := Stores(log, reserved, st.views);
    var q := Steps(cfg, p, first);
    var derived := Recompute(s.env, log, r, t.evaluated);
    if derived.Derived? {
      DerivedFor(s.env, log, r, t.evaluated);
      var change := if derived.record.result.status.Pending? then None
                    else Some(StatusDraft(s.env, derived.record, t.evaluated, t.changed));
      var second := SettleSteps(s, attempts, q, mid, n, envelope, d, change);
      actions := first + second;
      StepsThenSteps(cfg, p, first, second);
      ReservedThenCompleted(s, st.keys, d);
    } else {
      var second := RaiseSteps(s, attempts, q, mid, n, envelope, d);
      actions := first + second;
      StepsThenSteps(cfg, p, first, second);
      assert s.keyed ==> reserved - {P.KeyOf(d)} == st.keys;
    }
  }

  lemma ReservedThenCompleted(s: Service, keys: map<string, P.Reservation>, d: Decision)
    ensures CompletedFor(s, ReservedFor(s, keys, d), d)
         == if s.keyed then keys[P.KeyOf(d) := P.Reservation(Fingerprint(s.env.gate.H, d), Some(d.requestId))] else keys
  {
    hide P.KeyOf, Fingerprint;
  }

  // ------------------------------------------------------------------ whole runs

  lemma SubmitSteps(s: Service, attempts: nat, p: P.State, st: Stores, n: nat, envelope: Json, t: Times) returns (actions: seq<P.Action>)
    requires attempts >= 1 && Tracks(ConfigOf(s, attempts), p, st, n)
    requires ReadModel.LoadsByItsId(s.env.gate.H, st.log)
    ensures Tracks(ConfigOf(s, attempts), Steps(ConfigOf(s, attempts), p, actions), Submit(s, st, envelope, t).0, n + 1)
  {
    hide Tracks, LoadRequest, DecodeDecision, Screen, P.KeyOf, Fingerprint, RecordDecision, StatusOf, Steps, RequestId;
    var cfg := ConfigOf(s, attempts);
    var d := DecodeDecision(envelope);
    var after := Submit(s, st, envelope, t).0;
    if d.Some? && LoadRequest(st.log, d.value.requestId).Found?
       && Screen(s.env.gate, envelope, d.value, LoadRequest(st.log, d.value.requestId).request, t.screened).Passed?
       && (s.keyed ==> P.KeyOf(d.value) !in st.keys)
    {
      actions := RecordSteps(s, attempts, p, st, n, envelope, d.value, LoadRequest(st.log, d.value.requestId).request, t);
    } else {
      actions := [];
      NoSteps(cfg, p);
      assert after == st;
      TracksLater(cfg, p, st, n);
    }
  }

  lemma TracksLater(cfg: P.Config, p: P.State, st: Stores, n: nat)
    requires Tracks(cfg, p, st, n)
    ensures Tracks(cfg, p, st, n + 1)
  {
    hide P.Log, Chained;
  }

  lemma TracksViews(cfg: P.Config, p: P.State, st: Stores, other: Stores, n: nat)
    requires Tracks(cfg, p, st, n) && other.log == st.log && other.keys == st.keys
    ensures Tracks(cfg, p, other, n)
  {
    hide P.Log, Chained;
  }

  lemma CreateOpSteps(s: Service, attempts: nat, p: P.State, st: Stores, n: nat, o: Opening, now: string) returns (actions: seq<P.Action>)
    requires attempts >= 1 && Tracks(ConfigOf(s, attempts), p, st, n)
    ensures Tracks(ConfigOf(s, attempts), Steps(ConfigOf(s, attempts), p, actions), Create(s, st, o, now).0, n + 1)
  {
    hide Tracks, LoadRequest, Steps, RequestId, PolicyDigest, Project, CreatedDraft, EntryFor;
    var cfg := ConfigOf(s, attempts);
    var H := s.env.gate.H;
    var after := Create(s, st, o, now).0;
    if after.log == st.log {
      actions := [];
      NoSteps(cfg, p);
      TracksLater(cfg, p, st, n);
      TracksViews(cfg, p, st, after, n + 1);
    } else {
      var r := RequestFor(H, o, s.env.policies[o.policyId], now);
      actions := CreateSteps(s, attempts, p, st, n, r, Create(s, st, o, now).1.Opened?);
      TracksViews(cfg, Steps(cfg, p, actions), st.(log := Appended(H, st.log, CreatedDraft(H, r))), after, n + 1);
    }
  }

  lemma OpSteps(s: Service, attempts: nat, p: P.State, st: Stores, n: nat, op: Op) returns (actions: seq<P.Action>)
    requires attempts >= 1 && Tracks(ConfigOf(s, attempts), p, st, n)
    requires ReadModel.LoadsByItsId(s.env.gate.H, st.log)
    ensures Tracks(ConfigOf(s, attempts), Steps(ConfigOf(s, attempts), p, actions), Perform(s, st, op), n + 1)
  {
    hide Tracks, Steps, Create, Submit, LatestCheckpoint, BuildCheckpoint, SignCheckpoint, RebuildAll, EntryFor;
    var cfg := ConfigOf(s, attempts);
    match op
    case CreateOp(o, now) =>
      actions := CreateOpSteps(s, attempts, p, st, n, o, now);
    case SubmitOp(envelope, times) =>
      actions := SubmitSteps(s, attempts, p, st, n, envelope, times);
    case PublishOp(signer, at) =>
      if LatestCheckpoint(st.log).Some? {
        actions := PublishSteps(s, attempts, p, st, n, signer, at);
      } else {
        actions := [];
        NoSteps(cfg, p);
        TracksLater(cfg, p, st, n);
      }
    case RebuildOp(asOf) =>
      actions := [];
      NoSteps(cfg, p);
      TracksLater(cfg, p, st, n);
      TracksViews(cfg, p, st, Perform(s, st, op), n + 1);
  }

  lemma RunLoadsByItsId(cfg: P.Config, run: seq<P.Action>)
    ensures ReadModel.LoadsByItsId(cfg.H, LogAfter(cfg, run))
  {
    hide LoadRequest, RequestId, LogAfter, P.Run;
    forall id | LoadRequest(LogAfter(cfg, run), id).Found?
      ensures RequestId(cfg.H, LoadRequest(LogAfter(cfg, run), id).request) == id
    {
      LoadedRequestsStay(cfg, run, [], id);
    }
  }

  lemma StartTracks(cfg: P.Config)
    ensures Tracks(cfg, P.Run(cfg, []), EMPTY, 0)
  {
    LogOfNone();
  }

  /** Every sequential run of the service, with an idempotency store or without, is a run of the
      protocol, with the same ledger and the same keys. */
  lemma {:induction false} SequentialIsARun(s: Service, ops: seq<Op>, attempts: nat) returns (run: seq<P.Action>)
    requires attempts >= 1
    ensures Tracks(ConfigOf(s, attempts), P.Run(ConfigOf(s, attempts), run), RunAll(s, ops), |ops|)
    ensures LogAfter(ConfigOf(s, attempts), run) == RunAll(s, ops).log
    ensures P.Run(ConfigOf(s, attempts), run).keys == RunAll(s, ops).keys
  {
    hide Perform, P.Run, Chained, P.Log, Steps;
    var cfg := ConfigOf(s, attempts);
    if ops == [] {
      run := [];
      StartTracks(cfg);
    } else {
      var init := ops[..|ops| - 1];
      var before := SequentialIsARun(s, init, attempts);
      RunLoadsByItsId(cfg, before);
      var more := OpSteps(s, attempts, P.Run(cfg, before), RunAll(s, init), |init|, ops[|ops| - 1]);
      run := before + more;
      RunThenSteps(cfg, before, more);
    }
  }

  /** What the keys of the service say is in its ledger: a completed key has its decision recorded,
      with that very fingerprint. */
  lemma KeysTellTheTruth(s: Service, ops: seq<Op>, key: string)
    requires key in RunAll(s, ops).keys && RunAll(s, ops).keys[key].response.Some?
    ensures exists e :: e in RunAll(s, ops).log && e.eventType == RECORDED && DecodeDecision(e.payload).Some?
                     && P.KeyOf(DecodeDecision(e.payload).value) == key
                     && Fingerprint(s.env.gate.H, DecodeDecision(e.payload).value) == RunAll(s, ops).keys[key].fingerprint
  {
    hide RunAll, P.Run, Fingerprint, P.KeyOf, DecodeDecision, Tracks, LogAfter;
    var cfg := ConfigOf(s, 1);
    var run := SequentialIsARun(s, ops, 1);
    CompletedKeysAreRecorded(cfg, run, key);
    var e :| e in LogAfter(cfg, run) && UnderKey(cfg, e, key)
             && Fingerprint(cfg.H, cfg.decode(e.payload).value) == P.Run(cfg, run).keys[key].fingerprint;
    assert cfg.decode(e.payload) == DecodeDecision(e.payload);
  }
}
