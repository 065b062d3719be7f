/** The ledger protocol with any number of concurrent callers.

    The event store enforces one thing only: no two entries share a `seq`. Each store call is one
    atomic step; a caller may stop for ever between any two of its steps, and any store call may
    fail without effect. A run is a list of actions; an action that is not enabled does nothing, so
    every interleaving is some list. */
module Protocol {
  import opened ByteStrings
  import opened JsonText
  import opened Canonical
  import opened Models
  import opened Merkle
  import opened Chain
  import opened Reads

  /** `attempts` is the service's `append_attempts`, `keyed` whether it has an idempotency store;
      `decode` is how an envelope is decoded, for
      which the service uses `Envelope.DecodeDecision`. */
  datatype Config = Config(H: Hash, logId: string, attempts: nat, keyed: bool, decode: Json -> Option<Decision>)

  /** One call of a service method. A decision's envelope has already been decoded and passed the
      checks that read nothing but its request. */
  datatype Call =
    | CreateCall(request: Request)
    | DecideCall(envelope: Json, decision: Decision)
    | CheckpointCall(at: string)

  /** A call appends at most two entries: its own, and a `status.changed` after a decision. */
  datatype Stage = Main | Status

  datatype Job = Job(stage: Stage, eventType: string, payload: Json, atTime: string, requestId: Option<string>)

  /** What a call was doing when it failed. */
  datatype Step = WhileLooking | WhileAppending(job: Job) | WhileDeriving | WhileStoring | WhileCompleting

  datatype Outcome =
    | Created
    | Existing(found: Request)
    | Published
    | Decided
    | Replayed(requestId: string, winner: Decision)
    | InFlight
    | KeyReused
    | Exhausted(job: Job, since: nat)
    | Failed(step: Step)

  /** Where a call stands. `since` is the length of the ledger at the first head read of the
      current append, `attempt` how many inserts of it have conflicted. */
  datatype Phase =
    | Loading
    | ReadingPrevious(leaves: seq<string>)
    | Reserving
    | ReadingHead(job: Job, attempt: nat, since: nat)
    | Inserting(job: Job, attempt: nat, since: nat, entry: LedgerEntry)
    | Recomputing
    | Projecting
    | Completing
    | Releasing(outcome: Outcome)
    | Done(outcome: Outcome)

  /** `slots` records where the entries a call appended landed. */
  datatype CallState = CallState(call: Call, phase: Phase, slots: map<Stage, nat>)

  datatype Reservation = Reservation(fingerprint: string, response: Option<string>)

  /** `rows` and `keys` are the stores. The rest is history: which append wrote each row, which call
      won each key last, and how many releases of a key followed a decision that had landed. */
  datatype State = State(
    rows: map<nat, LedgerEntry>,
    keys: map<string, Reservation>,
    calls: map<nat, CallState>,
    author: map<nat, (nat, Stage)>,
    holder: map<string, nat>,
    released: map<string, nat>)

  const START := State(map[], map[], map[], map[], map[], map[])

  /** The idempotency key of a decision. */
  function KeyOf(d: Decision): string {
    if d.idempotencyKey != "" then d.idempotencyKey
    else d.requestId + ":" + d.approverId + ":" + d.verdict
  }

  // -------------------------------------------------------- reading the rows

  ghost predicate UpperBound(k: nat, ks: set<nat>) {
    forall x :: x in ks ==> x <= k
  }

  lemma {:induction false} GreatestExists(ks: set<nat>)
    requires ks != {}
    ensures exists k :: k in ks && UpperBound(k, ks)
  {
    var a :| a in ks;
    var rest := ks - {a};
    if rest == {} {
      assert ks == {a};
      assert UpperBound(a, ks);
    } else {
      GreatestExists(rest);
      var k :| k in rest && UpperBound(k, rest);
      BoundOfBoth(k, a, rest, ks);
    }
  }

  lemma BoundOfBoth(k: nat, a: nat, rest: set<nat>, ks: set<nat>)
    requires UpperBound(k, rest) && a in ks && rest == ks - {a} && k in rest
    ensures UpperBound(if a <= k then k else a, ks)
  {
    assert forall x :: x in ks ==> x == a || x in rest;
  }

  function Greatest(ks: set<nat>): (k: nat)
    requires ks != {}
    ensures k in ks && forall x :: x in ks ==> x <= k
  {
    GreatestExists(ks);
    assert exists k :: k in ks && forall x :: x in ks ==> x <= k;
    var k :| k in ks && forall x :: x in ks ==> x <= k;
    k
  }

  /** `head`: the row of the highest seq. */
  function Head(rows: map<nat, LedgerEntry>): Option<LedgerEntry> {
    if rows.Keys == {} then None else Some(rows[Greatest(rows.Keys)])
  }

  /** All rows in seq order. */
  function Log(rows: map<nat, LedgerEntry>): seq<LedgerEntry>
    decreases |rows.Keys|
  {
    if rows.Keys == {} then []
    else
      var k := Greatest(rows.Keys);
      var below := map i | i in rows && i != k :: rows[i];
      assert below.Keys == rows.Keys - {k};
      Log(below) + [rows[k]]
  }

  // ------------------------------------------------------------------ actions

  datatype Action =
    | Start(c: nat, call: Call)
    | Look(c: nat)
    | ReadPrevious(c: nat, signatures: seq<Json>)
    | Reserve(c: nat)
    | ReadHead(c: nat)
    | Insert(c: nat)
    | Recompute(c: nat, changed: Option<Json>, at: string)
    | Project(c: nat)
    | Complete(c: nat)
    | Release(c: nat)
    | Fail(c: nat)

  predicate WellFormed(cfg: Config, call: Call) {
    call.DecideCall? ==> cfg.decode(call.envelope) == Some(call.decision)
  }

  function To(s: State, c: nat, phase: Phase): State
    requires c in s.calls
  {
    s.(calls := s.calls[c := s.calls[c].(phase := phase)])
  }

  function CreateJob(cfg: Config, r: Request): Job {
    Job(Main, CREATED, RequestJson(cfg.H, r), r.createdAt, Some(RequestId(cfg.H, r)))
  }

  function DecideJob(envelope: Json, d: Decision): Job {
    Job(Main, RECORDED, envelope, d.decidedAt, Some(d.requestId))
  }

  function CheckpointJob(cp: Checkpoint): Job {
    Job(Main, PUBLISHED, CheckpointJson(cp), cp.publishedAt, None)
  }

  function LookForOpen(cfg: Config, s: State, c: nat, r: Request): (t: State)
    requires c in s.calls
    ensures t.rows == s.rows
  {
    match LoadRequest(Log(s.rows), RequestId(cfg.H, r))
    case NotFound => To(s, c, ReadingHead(CreateJob(cfg, r), 0, 0))
    case Found(found) => To(s, c, Done(Existing(found)))
    case Malformed => To(s, c, Done(Failed(WhileLooking)))
  }

  /** The first reads of a call: a creator looks its request up, a decider loads the request it
      names (its checks then pass) and, without an idempotency store, goes on to append; a checkpoint
      reads the leaf hashes. */
  function LookStep(cfg: Config, s: State, c: nat): (t: State)
    requires c in s.calls
    ensures t.rows == s.rows
  {
    match s.calls[c].call
    case CreateCall(r) => LookForOpen(cfg, s, c, r)
    case DecideCall(envelope, d) =>
      if !LoadRequest(Log(s.rows), d.requestId).Found? then To(s, c, Done(Failed(WhileLooking)))
      else To(s, c, if cfg.keyed then Reserving else ReadingHead(DecideJob(envelope, d), 0, 0))
    case CheckpointCall(at) => To(s, c, ReadingPrevious(Leaves(Log(s.rows))))
  }

  /** `latest_checkpoint`, then the checkpoint is built over the leaves read before, and signed. */
  function ReadPreviousStep(cfg: Config, s: State, c: nat, signatures: seq<Json>): State
    requires c in s.calls && s.calls[c].phase.ReadingPrevious? && s.calls[c].call.CheckpointCall?
  {
    match LatestCheckpoint(Log(s.rows))
    case None => To(s, c, Done(Failed(WhileLooking)))
    case Some(previous) =>
      var cp := BuildCheckpoint(cfg.H, s.calls[c].phase.leaves, cfg.logId, s.calls[c].call.at, previous);
      To(s, c, ReadingHead(CheckpointJob(cp.(signatures := signatures)), 0, 0))
  }

  /** `reserve`: insert if absent; the winner starts recording its decision. */
  function ReserveStep(cfg: Config, s: State, c: nat): (t: State)
    requires c in s.calls && s.calls[c].call.DecideCall?
    ensures t.rows == s.rows
  {
    var d := s.calls[c].call.decision;
    var key, fingerprint := KeyOf(d), Fingerprint(cfg.H, d);
    if key !in s.keys then
      To(s, c, ReadingHead(DecideJob(s.calls[c].call.envelope, d), 0, 0))
        .(keys := s.keys[key := Reservation(fingerprint, None)], holder := s.holder[key := c])
    else if s.keys[key].fingerprint != fingerprint then To(s, c, Done(KeyReused))
    else
      match s.keys[key].response
      case None => To(s, c, Done(InFlight))
      case Some(requestId) =>
        if key in s.holder && s.holder[key] in s.calls && s.calls[s.holder[key]].call.DecideCall? then
          To(s, c, Done(Replayed(requestId, s.calls[s.holder[key]].call.decision)))
        else s
  }

  function ReadHeadStep(cfg: Config, s: State, c: nat): (t: State)
    requires c in s.calls && s.calls[c].phase.ReadingHead?
    ensures t.rows == s.rows
  {
    var p := s.calls[c].phase;
    if p.attempt >= cfg.attempts then Raise(cfg, s, c, Failed(WhileAppending(p.job)))
    else
      var entry := NextEntry(cfg.H, Head(s.rows), p.job.eventType, p.job.payload, p.job.atTime, p.job.requestId);
      To(s, c, Inserting(p.job, p.attempt, if p.attempt == 0 then |s.rows| else p.since, entry))
  }

  /** An exception: a call that holds a key releases it first. */
  function Raise(cfg: Config, s: State, c: nat, outcome: Outcome): State
    requires c in s.calls
  {
    To(s, c, if cfg.keyed && s.calls[c].call.DecideCall? then Releasing(outcome) else Done(outcome))
  }

  function AfterAppend(call: Call, stage: Stage): Phase {
    match call
    case CreateCall(_) => Projecting
    case CheckpointCall(_) => Done(Published)
    case DecideCall(_, _) => if stage.Main? then Recomputing else Projecting
  }

  /** `append`: the store refuses a seq that is taken and checks nothing else. */
  function InsertStep(cfg: Config, s: State, c: nat): State
    requires c in s.calls && s.calls[c].phase.Inserting?
  {
    var p := s.calls[c].phase;
    if p.entry.seqNo < 0 then s
    else if p.entry.seqNo in s.rows then
      if p.attempt + 1 >= cfg.attempts then Raise(cfg, s, c, Exhausted(p.job, p.since))
      else To(s, c, ReadingHead(p.job, p.attempt + 1, p.since))
    else
      var cs := s.calls[c];
      var landed := CallState(cs.call, AfterAppend(cs.call, p.job.stage), cs.slots[p.job.stage := p.entry.seqNo]);
      s.(rows := s.rows[p.entry.seqNo := p.entry],
         author := s.author[p.entry.seqNo := (c, p.job.stage)],
         calls := s.calls[c := landed])
  }

  function Count(m: map<string, nat>, key: string): nat {
    if key in m then m[key] else 0
  }

  /** `release`, and the exception goes on its way. */
  function ReleaseStep(s: State, c: nat): State
    requires c in s.calls && s.calls[c].phase.Releasing? && s.calls[c].call.DecideCall?
  {
    var key := KeyOf(s.calls[c].call.decision);
    var landed := Main in s.calls[c].slots;
    To(s, c, Done(s.calls[c].phase.outcome))
      .(keys := map k | k in s.keys && k != key :: s.keys[k],
        released := s.released[key := Count(s.released, key) + if landed then 1 else 0])
  }

  function StatusJob(d: Decision, payload: Json, at: string): Job {
    Job(Status, STATUS_CHANGED, payload, at, Some(d.requestId))
  }

  /** The status is re-derived; unless it is pending, the change is to be appended. */
  function RecomputeStep(s: State, c: nat, changed: Option<Json>, at: string): State
    requires c in s.calls && s.calls[c].call.DecideCall?
  {
    match changed
    case None => To(s, c, Projecting)
    case Some(payload) => To(s, c, ReadingHead(StatusJob(s.calls[c].call.decision, payload, at), 0, 0))
  }

  /** The view is stored; a creator is then done, and so is a decider without a key to complete. */
  function ProjectStep(cfg: Config, s: State, c: nat): (t: State)
    requires c in s.calls && s.calls[c].phase.Projecting?
    ensures t.rows == s.rows
  {
    To(s, c, if !s.calls[c].call.DecideCall? then Done(Created) else if cfg.keyed then Completing else Done(Decided))
  }

  function CompleteStep(s: State, c: nat): State
    requires c in s.calls && s.calls[c].call.DecideCall?
  {
    var d := s.calls[c].call.decision;
    if KeyOf(d) !in s.keys then s
    else To(s, c, Done(Decided)).(keys := s.keys[KeyOf(d) := s.keys[KeyOf(d)].(response := Some(d.requestId))])
  }

  /** A store call raises and has no effect. Between winning a key and completing it the service
      releases the key; an exception out of `complete` or `release` itself leaves it reserved. */
  function FailStep(cfg: Config, s: State, c: nat): (t: State)
    requires c in s.calls
    ensures t.rows == s.rows
  {
    match s.calls[c].phase
    case ReadingHead(job, _, _) => Raise(cfg, s, c, Failed(WhileAppending(job)))
    case Inserting(job, _, _, _) => Raise(cfg, s, c, Failed(WhileAppending(job)))
    case Recomputing => Raise(cfg, s, c, Failed(WhileDeriving))
    case Projecting => Raise(cfg, s, c, Failed(WhileStoring))
    case Completing => To(s, c, Done(Failed(WhileCompleting)))
    case Releasing(outcome) => To(s, c, Done(outcome))
    case Done(_) => s
    case _ => To(s, c, Done(Failed(WhileLooking)))
  }

  function Apply(cfg: Config, s: State, a: Action): State {
    match a
    case Start(c, call) =>
      if c in s.calls || !WellFormed(cfg, call) then s
      else s.(calls := s.calls[c := CallState(call, Loading, map[])])
    case Look(c) =>
      if c in s.calls && s.calls[c].phase.Loading? then LookStep(cfg, s, c) else s
    case ReadPrevious(c, signatures) =>
      if c in s.calls && s.calls[c].phase.ReadingPrevious? && s.calls[c].call.CheckpointCall? then
        ReadPreviousStep(cfg, s, c, signatures)
      else s
    case Reserve(c) =>
      if c in s.calls && s.calls[c].phase.Reserving? && s.calls[c].call.DecideCall? then ReserveStep(cfg, s, c) else s
    case ReadHead(c) =>
      if c in s.calls && s.calls[c].phase.ReadingHead? then ReadHeadStep(cfg, s, c) else s
    case Insert(c) =>
      if c in s.calls && s.calls[c].phase.Inserting? then InsertStep(cfg, s, c) else s
    case Recompute(c, changed, at) =>
      if c in s.calls && s.calls[c].phase.Recomputing? && s.calls[c].call.DecideCall? then
        RecomputeStep(s, c, changed, at)
      else s
    case Project(c) =>
      if c in s.calls && s.calls[c].phase.Projecting? then ProjectStep(cfg, s, c) else s
    case Complete(c) =>
      if c in s.calls && s.calls[c].phase.Completing? && s.calls[c].call.DecideCall? then CompleteStep(s, c) else s
    case Release(c) =>
      if c in s.calls && s.calls[c].phase.Releasing? && s.calls[c].call.DecideCall? then ReleaseStep(s, c) else s
    case Fail(c) =>
      if c in s.calls then FailStep(cfg, s, c) else s
  }

  /** The state after a run. */
  function Run(cfg: Config, actions: seq<Action>): State {
    if actions == [] then START else Apply(cfg, Run(cfg, actions[..|actions| - 1]), actions[|actions| - 1])
  }
}
