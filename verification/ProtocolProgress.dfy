/** That every call of the ledger protocol ends, and how reservations are answered. */
module ProtocolProgress {
  import opened ByteStrings
  import opened JsonText
  import opened Canonical
  import opened Models
  import opened Chain
  import opened Reads
  import opened Protocol
  import opened ProtocolSafety
  import opened ProtocolRuns

  // ------------------------------------------------------------- every call ends

  function Left(cfg: Config, attempt: nat): nat {
    if attempt <= cfg.attempts then cfg.attempts - attempt else 0
  }

  /** What comes after an append at this stage. */
  function Afterwards(cfg: Config, stage: Stage): nat {
    if stage.Main? then 2 * cfg.attempts + 6 else 3
  }

  /** At most how many more steps the call takes. */
  function Remaining(cfg: Config, phase: Phase): nat {
    match phase
    case Loading => 4 * cfg.attempts + 10
    case ReadingPrevious(_) => 4 * cfg.attempts + 9
    case Reserving => 4 * cfg.attempts + 9
    case ReadingHead(job, attempt, _) => Afterwards(cfg, job.stage) + 2 * Left(cfg, attempt) + 2
    case Inserting(job, attempt, _, _) => Afterwards(cfg, job.stage) + 2 * Left(cfg, attempt) + 1
    case Recomputing => 2 * cfg.attempts + 6
    case Projecting => 3
    case Completing => 2
    case Releasing(_) => 1
    case Done(_) => 0
  }

  ghost predicate Advances(cfg: Config, s: State, t: State, c: nat) {
    && c in s.calls && t.calls.Keys == s.calls.Keys
    && Remaining(cfg, t.calls[c].phase) < Remaining(cfg, s.calls[c].phase)
    && forall d :: d in s.calls && d != c ==> t.calls[d] == s.calls[d]
  }

  /** Every step a call takes brings it nearer to its end, and moves no other call. */
  lemma StepsAdvance(cfg: Config, s: State, a: Action)
    requires !a.Start?
    ensures Apply(cfg, s, a) == s || Advances(cfg, s, Apply(cfg, s, a), a.c)
  {
    hide LookStep, ReadPreviousStep, ReserveStep, ReadHeadStep, InsertStep, RecomputeStep, ProjectStep, CompleteStep, ReleaseStep, FailStep;
    hide Advances;
    match a
    case Look(c) =>
      if c in s.calls && s.calls[c].phase.Loading? {
        LookAdvances(cfg, s, c);
      }
    case ReadPrevious(c, signatures) =>
      if c in s.calls && s.calls[c].phase.ReadingPrevious? && s.calls[c].call.CheckpointCall? {
        ReadPreviousAdvances(cfg, s, c, signatures);
      }
    case Reserve(c) =>
      if c in s.calls && s.calls[c].phase.Reserving? && s.calls[c].call.DecideCall? {
        ReserveAdvances(cfg, s, c);
      }
    case ReadHead(c) =>
      if c in s.calls && s.calls[c].phase.ReadingHead? {
        ReadHeadAdvances(cfg, s, c);
      }
    case Insert(c) =>
      if c in s.calls && s.calls[c].phase.Inserting? {
        InsertAdvances(cfg, s, c);
      }
    case Recompute(c, changed, at) =>
      if c in s.calls && s.calls[c].phase.Recomputing? && s.calls[c].call.DecideCall? {
        RecomputeAdvances(cfg, s, c, changed, at);
      }
    case Project(c) =>
      if c in s.calls && s.calls[c].phase.Projecting? {
        ProjectAdvances(cfg, s, c);
      }
    case Complete(c) =>
      if c in s.calls && s.calls[c].phase.Completing? && s.calls[c].call.DecideCall? {
        CompleteAdvances(cfg, s, c);
      }
    case Release(c) =>
      if c in s.calls && s.calls[c].phase.Releasing? && s.calls[c].call.DecideCall? {
        ReleaseAdvances(cfg, s, c);
      }
    case Fail(c) =>
      if c in s.calls {
        FailAdvances(cfg, s, c);
      }
  }

  lemma Moved(cfg: Config, s: State, t: State, c: nat)
    requires c in s.calls && c in t.calls && t.calls == s.calls[c := t.calls[c]]
    requires Remaining(cfg, t.calls[c].phase) < Remaining(cfg, s.calls[c].phase)
    ensures Advances(cfg, s, t, c)
  {
    hide Remaining;
  }

  lemma MovedTo(cfg: Config, s: State, c: nat, phase: Phase)
    requires c in s.calls && Remaining(cfg, phase) < Remaining(cfg, s.calls[c].phase)
    ensures Advances(cfg, s, To(s, c, phase), c)
  {
    hide Remaining, Advances;
    Moved(cfg, s, To(s, c, phase), c);
  }

  lemma Raised(cfg: Config, s: State, c: nat, outcome: Outcome)
    requires c in s.calls && Remaining(cfg, s.calls[c].phase) > 1
    ensures Advances(cfg, s, Raise(cfg, s, c, outcome), c)
  {
    hide Advances;
    MovedTo(cfg, s, c, Releasing(outcome));
    MovedTo(cfg, s, c, Done(outcome));
  }

  lemma LookAdvances(cfg: Config, s: State, c: nat)
    requires c in s.calls && s.calls[c].phase.Loading?
    ensures Advances(cfg, s, LookStep(cfg, s, c), c)
  {
    hide LoadRequest, Log, RequestId, CreateJob, DecideJob, Advances, To;
    forall phase: Phase | phase.Done? || phase.Reserving? || phase.ReadingPrevious? || (phase.ReadingHead? && phase.attempt == 0)
      ensures Advances(cfg, s, To(s, c, phase), c)
    {
      MovedTo(cfg, s, c, phase);
    }
  }

  lemma ReadPreviousAdvances(cfg: Config, s: State, c: nat, signatures: seq<Json>)
    requires c in s.calls && s.calls[c].phase.ReadingPrevious? && s.calls[c].call.CheckpointCall?
    ensures Advances(cfg, s, ReadPreviousStep(cfg, s, c, signatures), c)
  {
    hide LatestCheckpoint, Log, BuildCheckpoint, CheckpointJob, Advances, To;
    forall phase: Phase | phase.Done? || (phase.ReadingHead? && phase.attempt == 0)
      ensures Advances(cfg, s, To(s, c, phase), c)
    {
      MovedTo(cfg, s, c, phase);
    }
  }

  lemma ReserveAdvances(cfg: Config, s: State, c: nat)
    requires c in s.calls && s.calls[c].phase.Reserving? && s.calls[c].call.DecideCall?
    ensures ReserveStep(cfg, s, c) == s || Advances(cfg, s, ReserveStep(cfg, s, c), c)
  {
    hide Fingerprint, KeyOf, DecideJob, Advances;
    forall outcome: Outcome
      ensures Advances(cfg, s, To(s, c, Done(outcome)), c)
    {
      MovedTo(cfg, s, c, Done(outcome));
    }
    if KeyOf(s.calls[c].call.decision) !in s.keys {
      Moved(cfg, s, ReserveStep(cfg, s, c), c);
    }
  }

  lemma ReadHeadAdvances(cfg: Config, s: State, c: nat)
    requires c in s.calls && s.calls[c].phase.ReadingHead?
    ensures Advances(cfg, s, ReadHeadStep(cfg, s, c), c)
  {
    hide Head, NextEntry, Advances, To, Raise;
    var p := s.calls[c].phase;
    Raised(cfg, s, c, Failed(WhileAppending(p.job)));
    forall phase: Phase | phase.Inserting? && phase.job == p.job && phase.attempt == p.attempt
      ensures Advances(cfg, s, To(s, c, phase), c)
    {
      MovedTo(cfg, s, c, phase);
    }
  }

  lemma InsertAdvances(cfg: Config, s: State, c: nat)
    requires c in s.calls && s.calls[c].phase.Inserting?
    ensures InsertStep(cfg, s, c) == s || Advances(cfg, s, InsertStep(cfg, s, c), c)
  {
    hide Advances, Raise;
    var p := s.calls[c].phase;
    if p.entry.seqNo >= 0 {
      if p.entry.seqNo !in s.rows {
        Moved(cfg, s, InsertStep(cfg, s, c), c);
      } else if p.attempt + 1 >= cfg.attempts {
        Raised(cfg, s, c, Exhausted(p.job, p.since));
      } else {
        MovedTo(cfg, s, c, ReadingHead(p.job, p.attempt + 1, p.since));
      }
    }
  }

  lemma RecomputeAdvances(cfg: Config, s: State, c: nat, changed: Option<Json>, at: string)
    requires c in s.calls && s.calls[c].phase.Recomputing? && s.calls[c].call.DecideCall?
    ensures Advances(cfg, s, RecomputeStep(s, c, changed, at), c)
  {
    hide Advances;
    Moved(cfg, s, RecomputeStep(s, c, changed, at), c);
  }

  lemma ProjectAdvances(cfg: Config, s: State, c: nat)
    requires c in s.calls && s.calls[c].phase.Projecting?
    ensures Advances(cfg, s, ProjectStep(cfg, s, c), c)
  {
    hide Advances;
    Moved(cfg, s, ProjectStep(cfg, s, c), c);
  }

  lemma CompleteAdvances(cfg: Config, s: State, c: nat)
    requires c in s.calls && s.calls[c].phase.Completing? && s.calls[c].call.DecideCall?
    ensures CompleteStep(s, c) == s || Advances(cfg, s, CompleteStep(s, c), c)
  {
    hide KeyOf, Advances;
    if KeyOf(s.calls[c].call.decision) in s.keys {
      Moved(cfg, s, CompleteStep(s, c), c);
    }
  }

  lemma ReleaseAdvances(cfg: Config, s: State, c: nat)
    requires c in s.calls && s.calls[c].phase.Releasing? && s.calls[c].call.DecideCall?
    ensures Advances(cfg, s, ReleaseStep(s, c), c)
  {
    hide KeyOf, Advances;
    Moved(cfg, s, ReleaseStep(s, c), c);
  }

  lemma FailAdvances(cfg: Config, s: State, c: nat)
    requires c in s.calls
    ensures FailStep(cfg, s, c) == s || Advances(cfg, s, FailStep(cfg, s, c), c)
  {
    hide Advances, To, Raise;
    var p := s.calls[c].phase;
    if !p.Done? {
      forall outcome: Outcome
        ensures Advances(cfg, s, To(s, c, Done(outcome)), c)
        ensures Remaining(cfg, p) > 1 ==> Advances(cfg, s, Raise(cfg, s, c, outcome), c)
      {
        MovedTo(cfg, s, c, Done(outcome));
        if Remaining(cfg, p) > 1 {
          Raised(cfg, s, c, outcome);
        }
      }
    }
  }

  /** How many steps of a call had an effect, those that failed included. */
  function StepsOf(cfg: Config, run: seq<Action>, c: nat): nat {
    if run == [] then 0
    else
      var init, a := run[..|run| - 1], run[|run| - 1];
      StepsOf(cfg, init, c) + if !a.Start? && a.c == c && Apply(cfg, Run(cfg, init), a) != Run(cfg, init) then 1 else 0
  }

  lemma StartMoves(cfg: Config, s: State, c: nat, call: Call)
    ensures var t := Apply(cfg, s, Start(c, call));
            t == s || (c !in s.calls && t.calls == s.calls[c := CallState(call, Loading, map[])])
  {
    hide WellFormed;
  }

  /** Every call ends: in every run, however the calls interleave and whatever fails, no call takes more
      than 4 steps for each append attempt, and 10. */
  lemma {:induction false} BoundedSteps(cfg: Config, run: seq<Action>, c: nat)
    ensures c in Run(cfg, run).calls ==> StepsOf(cfg, run, c) + Remaining(cfg, Run(cfg, run).calls[c].phase) <= 4 * cfg.attempts + 10
    ensures c !in Run(cfg, run).calls ==> StepsOf(cfg, run, c) == 0
  {
    hide Apply;
    if run != [] {
      var init, a := run[..|run| - 1], run[|run| - 1];
      BoundedSteps(cfg, init, c);
      if a.Start? {
        StartMoves(cfg, Run(cfg, init), a.c, a.call);
      } else {
        StepsAdvance(cfg, Run(cfg, init), a);
      }
    }
  }

  /** The next step of a call. */
  function NextStep(c: nat, phase: Phase): Action {
    match phase
    case Loading => Look(c)
    case ReadingPrevious(_) => ReadPrevious(c, [])
    case Reserving => Reserve(c)
    case ReadingHead(_, _, _) => ReadHead(c)
    case Inserting(_, _, _, _) => Insert(c)
    case Recomputing => Recompute(c, None, "")
    case Projecting => Project(c)
    case Completing => Complete(c)
    case Releasing(_) => Release(c)
    case Done(_) => Fail(c)
  }

  /** No call is ever stuck: whatever the others do or have left undone, a call that has not ended can
      take its next step, without any store call failing. */
  lemma NeverStuck(cfg: Config, run: seq<Action>, c: nat)
    requires c in Run(cfg, run).calls && !Run(cfg, run).calls[c].phase.Done?
    ensures var a := NextStep(c, Run(cfg, run).calls[c].phase);
            && !a.Fail? && c in Run(cfg, run + [a]).calls
            && Remaining(cfg, Run(cfg, run + [a]).calls[c].phase) < Remaining(cfg, Run(cfg, run).calls[c].phase)
  {
    hide Run, Inv, CallOk, Apply, Remaining, WinnerOk;
    var s := Run(cfg, run);
    var a := NextStep(c, s.calls[c].phase);
    RunInv(cfg, run);
    CallOkAt(cfg, s, c);
    RunOneMore(cfg, run, a);
    StepsAdvance(cfg, s, a);
    NextIsEnabled(cfg, s, c);
  }

  lemma NextIsEnabled(cfg: Config, s: State, c: nat)
    requires Inv(cfg, s) && c in s.calls && !s.calls[c].phase.Done?
    ensures Apply(cfg, s, NextStep(c, s.calls[c].phase)) != s
  {
    hide Inv, CallOk, LookStep, ReadPreviousStep, ReserveStep, ReadHeadStep, InsertStep, RecomputeStep, ProjectStep, CompleteStep, ReleaseStep;
    hide FailStep, Advances, WinnerOk;
    CallOkAt(cfg, s, c);
    PhaseFits(cfg, s, c);
    match s.calls[c].phase
    case Loading => LookAdvances(cfg, s, c); MovedOn(cfg, s, LookStep(cfg, s, c), c);
    case ReadingPrevious(_) => ReadPreviousAdvances(cfg, s, c, []); MovedOn(cfg, s, ReadPreviousStep(cfg, s, c, []), c);
    case Reserving => ReserveMoves(cfg, s, c);
    case ReadingHead(_, _, _) => ReadHeadAdvances(cfg, s, c); MovedOn(cfg, s, ReadHeadStep(cfg, s, c), c);
    case Inserting(_, _, _, _) => InsertMoves(cfg, s, c);
    case Recomputing => RecomputeAdvances(cfg, s, c, None, ""); MovedOn(cfg, s, RecomputeStep(s, c, None, ""), c);
    case Projecting => ProjectAdvances(cfg, s, c); MovedOn(cfg, s, ProjectStep(cfg, s, c), c);
    case Completing => CompleteMoves(cfg, s, c);
    case Releasing(_) => ReleaseAdvances(cfg, s, c); MovedOn(cfg, s, ReleaseStep(s, c), c);
  }

  lemma MovedOn(cfg: Config, s: State, t: State, c: nat)
    requires Advances(cfg, s, t, c)
    ensures t != s
  {
    hide Remaining;
  }

  lemma PhaseFits(cfg: Config, s: State, c: nat)
    requires c in s.calls && CallOk(cfg, s.rows, s.calls[c])
    ensures var cs := s.calls[c];
            && (cs.phase.ReadingPrevious? ==> cs.call.CheckpointCall?)
            && (cs.phase.Reserving? || cs.phase.Recomputing? || cs.phase.Completing? || cs.phase.Releasing? ==> cs.call.DecideCall?)
            && (cs.phase.Inserting? ==> cs.phase.entry.seqNo >= 0)
            && (cs.phase.Completing? ==> cfg.keyed)
  {
    hide OutcomeOk, StepOk, Appending, CommitsWithin, Fits;
  }

  lemma ReserveMoves(cfg: Config, s: State, c: nat)
    requires Inv(cfg, s) && c in s.calls && s.calls[c].phase.Reserving? && s.calls[c].call.DecideCall?
    ensures ReserveStep(cfg, s, c) != s
  {
    hide Inv, Fingerprint, KeyOf;
    var key := KeyOf(s.calls[c].call.decision);
    if key in s.keys {
      KeyOkAt(cfg, s, key);
    }
    assert ReserveStep(cfg, s, c).calls[c].phase != s.calls[c].phase;
  }

  lemma KeyOkAt(cfg: Config, s: State, key: string)
    requires Inv(cfg, s) && key in s.keys
    ensures KeyOk(cfg, s, key)
  {
    hide KeyOk;
  }

  lemma InsertMoves(cfg: Config, s: State, c: nat)
    requires c in s.calls && s.calls[c].phase.Inserting? && s.calls[c].phase.entry.seqNo >= 0
    ensures InsertStep(cfg, s, c) != s
  {
    assert InsertStep(cfg, s, c).calls[c].phase != s.calls[c].phase;
  }

  lemma CompleteMoves(cfg: Config, s: State, c: nat)
    requires Inv(cfg, s) && c in s.calls && s.calls[c].phase.Completing? && s.calls[c].call.DecideCall? && cfg.keyed
    ensures CompleteStep(s, c) != s
  {
    hide Inv, KeyOf, CallOk;
    CallOkAt(cfg, s, c);
    assert CompleteStep(s, c).calls[c].phase != s.calls[c].phase;
  }

  // ------------------------------------------------------ how reservations are answered

  /** What a reservation should answer: the caller goes on to record exactly when the key is free.
      Otherwise some call won it for a decision, and the caller is refused exactly when that decision has
      another fingerprint, is told it is in flight exactly when that call has not completed the key, and
      is otherwise answered with that call's request. */
  ghost predicate ReserveTold(cfg: Config, s: State, t: State, c: nat)
    requires c in s.calls && s.calls[c].call.DecideCall?
  {
    var d := s.calls[c].call.decision;
    var key := KeyOf(d);
    && t.rows == s.rows && c in t.calls
    && if key !in s.keys then
         && t.calls[c].phase == ReadingHead(DecideJob(s.calls[c].call.envelope, d), 0, 0)
         && t.keys == s.keys[key := Reservation(Fingerprint(cfg.H, d), None)] && key in t.holder && t.holder[key] == c
       else
         t.keys == s.keys && exists h :: WonBy(s, key, h) && HeldAnswer(cfg, s, c, s.calls[h].call.decision, t.calls[c].phase)
  }

  predicate WonBy(s: State, key: string, h: nat) {
    && h in s.calls && s.calls[h].call.DecideCall? && KeyOf(s.calls[h].call.decision) == key
    && key in s.keys && (s.keys[key].response.Some? ==> Main in s.calls[h].slots)
  }

  predicate HeldAnswer(cfg: Config, s: State, c: nat, other: Decision, phase: Phase)
    requires c in s.calls && s.calls[c].call.DecideCall? && KeyOf(s.calls[c].call.decision) in s.keys
  {
    var d := s.calls[c].call.decision;
    var same := Fingerprint(cfg.H, other) == Fingerprint(cfg.H, d);
    var completed := s.keys[KeyOf(d)].response.Some?;
    phase == Done(if !same then KeyReused else if !completed then InFlight else Replayed(other.requestId, other))
  }

  lemma ReserveAnswers(cfg: Config, run: seq<Action>, c: nat)
    requires c in Run(cfg, run).calls && Run(cfg, run).calls[c].phase.Reserving?
    ensures Run(cfg, run).calls[c].call.DecideCall?
    ensures ReserveTold(cfg, Run(cfg, run), Run(cfg, run + [Reserve(c)]), c)
  {
    hide Run, Inv, CallOk, ReserveTold, ReserveStep;
    var s := Run(cfg, run);
    RunInv(cfg, run);
    CallOkAt(cfg, s, c);
    PhaseFits(cfg, s, c);
    RunOneMore(cfg, run, Reserve(c));
    ReserveIsTold(cfg, s, c);
  }

  lemma ReserveIsTold(cfg: Config, s: State, c: nat)
    requires Inv(cfg, s) && c in s.calls && s.calls[c].phase.Reserving? && s.calls[c].call.DecideCall?
    ensures ReserveTold(cfg, s, ReserveStep(cfg, s, c), c)
  {
    hide Inv, Fingerprint, KeyOf, DecideJob;
    var key := KeyOf(s.calls[c].call.decision);
    if key in s.keys {
      KeyOkAt(cfg, s, key);
      assert WonBy(s, key, s.holder[key]);
    }
  }

  // ------------------------------------------------------------ how openings are answered

  lemma {:induction false} NotFoundExactly(events: seq<LedgerEntry>)
    ensures FirstCreated(events).NotFound? <==> forall e :: e in events ==> e.eventType != "request.created"
  {
    hide RequestFromJson;
    if events != [] {
      NotFoundExactly(events[1..]);
      assert events == [events[0]] + events[1..];
    }
  }

  ghost predicate Opened(log: seq<LedgerEntry>, id: string) {
    exists e :: e in log && e.eventType == "request.created" && e.requestId == Some(id)
  }

  /** In every run, a creator that looks for its request finds one of that id exactly when one was
      opened, which is its own but for the time, or the two collide; otherwise it goes on to open it. */
  lemma LookAnswers(cfg: Config, run: seq<Action>, c: nat)
    requires c in Run(cfg, run).calls && Run(cfg, run).calls[c].phase.Loading? && Run(cfg, run).calls[c].call.CreateCall?
    ensures var r, log := Run(cfg, run).calls[c].call.request, LogAfter(cfg, run);
            var t := Run(cfg, run + [Look(c)]);
            && c in t.calls && t.rows == Run(cfg, run).rows
            && if Opened(log, RequestId(cfg.H, r)) then
                 && LoadRequest(log, RequestId(cfg.H, r)).Found?
                 && var found := LoadRequest(log, RequestId(cfg.H, r)).request;
                    && t.calls[c].phase == Done(Existing(found))
                    && (found == r.(createdAt := found.createdAt)
                        || Collides(cfg.H, HashClash(Obj(IdentityFields(found)), Obj(IdentityFields(r)))))
               else t.calls[c].phase == ReadingHead(CreateJob(cfg, r), 0, 0)
  {
    hide Run, RequestId, FirstCreated, EventsFor, CreateJob, Collides, IdentityFields, To;
    var s := Run(cfg, run);
    var r, log := s.calls[c].call.request, LogAfter(cfg, run);
    var id := RequestId(cfg.H, r);
    RunOneMore(cfg, run, Look(c));
    LoadedRequestsStay(cfg, run, [], id);
    NotFoundExactly(EventsFor(log, id));
    EventsForOnly(log, id);
    LookIs(cfg, s, c);
    forall phase
      ensures c in To(s, c, phase).calls && To(s, c, phase).calls[c].phase == phase && To(s, c, phase).rows == s.rows
    {
      IsAt(s, c, phase);
    }
    if LoadRequest(log, id).Found? {
      RequestIdBinds(cfg.H, LoadRequest(log, id).request, r);
    }
  }

  lemma LookIs(cfg: Config, s: State, c: nat)
    requires c in s.calls && s.calls[c].phase.Loading? && s.calls[c].call.CreateCall?
    ensures Apply(cfg, s, Look(c)) == LookForOpen(cfg, s, c, s.calls[c].call.request)
  {
    hide LookForOpen;
  }

  // ---------------------------------------------------------- completed keys stay

  /** The key is completed, by this call. */
  predicate CompletedBy(s: State, key: string, c: nat) {
    key in s.keys && s.keys[key].response.Some? && key in s.holder && s.holder[key] == c
  }

  /** No step takes a completed key back, or alters it. */
  lemma CompletedStays(cfg: Config, s: State, a: Action, key: string, h: nat)
    requires Inv(cfg, s) && CompletedBy(s, key, h)
    ensures var t := Apply(cfg, s, a);
            CompletedBy(t, key, h) && t.keys[key] == s.keys[key]
  {
    hide Inv, LookStep, ReadPreviousStep, ReadHeadStep, InsertStep, FailStep, ProjectStep, RecomputeStep, ReserveStep, CompleteStep;
    hide ReleaseStep, WellFormed, KeyOf, WinnerOk, CallOk;
    DoneIsDone(cfg, s, a);
    if a.Start? {
      StartKeeps(cfg, s, a);
    } else if a.c in s.calls {
      CallOkAt(cfg, s, a.c);
      if a.Reserve? {
        if s.calls[a.c].phase.Reserving? && s.calls[a.c].call.DecideCall? {
          ReserveKeeps(cfg, s, a.c, key);
        }
      } else if a.Complete? {
        if s.calls[a.c].phase.Completing? && s.calls[a.c].call.DecideCall? {
          PhaseFits(cfg, s, a.c);
          CompleteKeeps(cfg, s, a.c, key);
        }
      } else if a.Release? {
        if s.calls[a.c].phase.Releasing? && s.calls[a.c].call.DecideCall? {
          ReleasingIsKeyed(cfg, s, a.c);
          ReleaseKeeps(cfg, s, a.c, key);
        }
      } else if s.calls[a.c].phase != Done(Decided) {
        QuietSteps(cfg, s, a);
      }
    }
  }

  /** The step of this call touches no key, and does not end it with a decision under one. */
  ghost predicate Quiet(cfg: Config, s: State, t: State, c: nat) {
    t.keys == s.keys && t.holder == s.holder && c in t.calls && (cfg.keyed ==> t.calls[c].phase != Done(Decided))
  }

  lemma QuietTo(cfg: Config, s: State, c: nat, phase: Phase)
    requires c in s.calls && (cfg.keyed ==> phase != Done(Decided))
    ensures Quiet(cfg, s, To(s, c, phase), c)
  {
  }

  lemma QuietRaise(cfg: Config, s: State, c: nat, outcome: Outcome)
    requires c in s.calls && outcome != Decided
    ensures Quiet(cfg, s, Raise(cfg, s, c, outcome), c)
  {
    hide Quiet;
    QuietTo(cfg, s, c, Releasing(outcome));
    QuietTo(cfg, s, c, Done(outcome));
  }

  lemma LookIsQuiet(cfg: Config, s: State, c: nat)
    requires c in s.calls && s.calls[c].phase.Loading?
    ensures Quiet(cfg, s, LookStep(cfg, s, c), c)
  {
    hide LoadRequest, Log, RequestId, CreateJob, DecideJob, Quiet, To;
    forall phase: Phase | phase != Done(Decided)
      ensures Quiet(cfg, s, To(s, c, phase), c)
    {
      QuietTo(cfg, s, c, phase);
    }
  }

  lemma ReadPreviousIsQuiet(cfg: Config, s: State, c: nat, signatures: seq<Json>)
    requires c in s.calls && s.calls[c].phase.ReadingPrevious? && s.calls[c].call.CheckpointCall?
    ensures Quiet(cfg, s, ReadPreviousStep(cfg, s, c, signatures), c)
  {
    hide LatestCheckpoint, Log, BuildCheckpoint, CheckpointJob, Quiet, To;
    forall phase: Phase | phase != Done(Decided)
      ensures Quiet(cfg, s, To(s, c, phase), c)
    {
      QuietTo(cfg, s, c, phase);
    }
  }

  lemma ReadHeadIsQuiet(cfg: Config, s: State, c: nat)
    requires c in s.calls && s.calls[c].phase.ReadingHead?
    ensures Quiet(cfg, s, ReadHeadStep(cfg, s, c), c)
  {
    hide Head, NextEntry, Quiet, To, Raise;
    QuietRaise(cfg, s, c, Failed(WhileAppending(s.calls[c].phase.job)));
    forall phase: Phase | phase != Done(Decided)
      ensures Quiet(cfg, s, To(s, c, phase), c)
    {
      QuietTo(cfg, s, c, phase);
    }
  }

  lemma InsertIsQuiet(cfg: Config, s: State, c: nat)
    requires c in s.calls && s.calls[c].phase.Inserting?
    ensures Quiet(cfg, s, InsertStep(cfg, s, c), c)
  {
    hide Raise;
    QuietRaise(cfg, s, c, Exhausted(s.calls[c].phase.job, s.calls[c].phase.since));
  }

  lemma FailIsQuiet(cfg: Config, s: State, c: nat)
    requires c in s.calls && s.calls[c].phase != Done(Decided) && CallOk(cfg, s.rows, s.calls[c])
    ensures Quiet(cfg, s, FailStep(cfg, s, c), c)
  {
    hide Quiet, To, Raise, CallOk;
    if s.calls[c].phase.Releasing? {
      ReleasingIsNotDecided(cfg, s, c);
    }
    if s.calls[c].phase.Done? {
      QuietSelf(cfg, s, c);
    }
    forall outcome: Outcome | outcome != Decided
      ensures Quiet(cfg, s, To(s, c, Done(outcome)), c) && Quiet(cfg, s, Raise(cfg, s, c, outcome), c)
    {
      QuietTo(cfg, s, c, Done(outcome));
      QuietRaise(cfg, s, c, outcome);
    }
  }

  lemma QuietSelf(cfg: Config, s: State, c: nat)
    requires c in s.calls && s.calls[c].phase != Done(Decided)
    ensures Quiet(cfg, s, s, c)
  {
  }

  lemma QuietSteps(cfg: Config, s: State, a: Action)
    requires !a.Start? && !a.Reserve? && !a.Complete? && !a.Release? && a.c in s.calls && s.calls[a.c].phase != Done(Decided)
    requires CallOk(cfg, s.rows, s.calls[a.c])
    ensures Quiet(cfg, s, Apply(cfg, s, a), a.c)
  {
    hide LookStep, ReadPreviousStep, ReadHeadStep, InsertStep, FailStep, Quiet, CallOk, StatusJob;
    var c := a.c;
    QuietSelf(cfg, s, c);
    match a
    case Look(_) =>
      if s.calls[c].phase.Loading? {
        LookIsQuiet(cfg, s, c);
      }
    case ReadPrevious(_, signatures) =>
      if s.calls[c].phase.ReadingPrevious? && s.calls[c].call.CheckpointCall? {
        ReadPreviousIsQuiet(cfg, s, c, signatures);
      }
    case ReadHead(_) =>
      if s.calls[c].phase.ReadingHead? {
        ReadHeadIsQuiet(cfg, s, c);
      }
    case Insert(_) =>
      if s.calls[c].phase.Inserting? {
        InsertIsQuiet(cfg, s, c);
      }
    case Recompute(_, changed, at) =>
      if s.calls[c].phase.Recomputing? && s.calls[c].call.DecideCall? {
        QuietTo(cfg, s, c, Projecting);
        if changed.Some? {
          QuietTo(cfg, s, c, ReadingHead(StatusJob(s.calls[c].call.decision, changed.value, at), 0, 0));
        }
      }
    case Project(_) =>
      if s.calls[c].phase.Projecting? {
        QuietTo(cfg, s, c, Completing);
        QuietTo(cfg, s, c, Done(Created));
        if !cfg.keyed {
          QuietTo(cfg, s, c, Done(Decided));
        }
      }
    case Fail(_) =>
      FailIsQuiet(cfg, s, c);
  }

  lemma ReserveKeeps(cfg: Config, s: State, c: nat, key: string)
    requires c in s.calls && s.calls[c].call.DecideCall? && key in s.keys && key in s.holder
    ensures var t := ReserveStep(cfg, s, c);
            key in t.keys && t.keys[key] == s.keys[key] && key in t.holder && t.holder[key] == s.holder[key]
  {
    hide KeyOf, Fingerprint, DecideJob;
  }

  lemma CompleteKeeps(cfg: Config, s: State, c: nat, key: string)
    requires c in s.calls && s.calls[c].phase.Completing? && s.calls[c].call.DecideCall? && cfg.keyed && WinnerOk(cfg, s, c)
    requires key in s.keys && s.keys[key].response.Some?
    ensures var t := CompleteStep(s, c);
            key in t.keys && t.keys[key] == s.keys[key] && t.holder == s.holder
  {
    hide KeyOf;
  }

  lemma ReleasingIsKeyed(cfg: Config, s: State, c: nat)
    requires c in s.calls && CallOk(cfg, s.rows, s.calls[c]) && s.calls[c].phase.Releasing?
    ensures cfg.keyed
  {
    hide OutcomeOk;
  }

  lemma ReleaseKeeps(cfg: Config, s: State, c: nat, key: string)
    requires c in s.calls && s.calls[c].phase.Releasing? && s.calls[c].call.DecideCall? && cfg.keyed && WinnerOk(cfg, s, c)
    requires key in s.keys && s.keys[key].response.Some?
    ensures var t := ReleaseStep(s, c);
            key in t.keys && t.keys[key] == s.keys[key] && t.holder == s.holder
  {
    hide KeyOf;
  }

  lemma {:induction false} CompletedForEver(cfg: Config, run: seq<Action>, more: seq<Action>, key: string, h: nat)
    requires CompletedBy(Run(cfg, run), key, h)
    ensures CompletedBy(Run(cfg, run + more), key, h) && Run(cfg, run + more).keys[key] == Run(cfg, run).keys[key]
  {
    hide Apply, Inv;
    if more == [] {
      assert run + more == run;
    } else {
      var n := |more| - 1;
      assert (run + more)[..|run| + n] == run + more[..n] && (run + more)[|run| + n] == more[n];
      CompletedForEver(cfg, run, more[..n], key, h);
      RunInv(cfg, run + more[..n]);
      CompletedStays(cfg, Run(cfg, run + more[..n]), more[n], key, h);
    }
  }

  /** A key is given back. In every run, when a call that has won its key fails, or gives up, before it
      comes to complete it, it is left to release the key; that release frees the key for others and ends
      the call. */
  lemma FailuresRelease(cfg: Config, run: seq<Action>, c: nat, a: Action)
    requires c in Run(cfg, run).calls && Winning(cfg, Run(cfg, run).calls[c])
    requires var phase := Run(cfg, run).calls[c].phase; !phase.Completing? && !phase.Releasing?
    requires a == Fail(c) || (a == Insert(c) && GivesUp(cfg, Run(cfg, run), Run(cfg, run).calls[c].phase))
    ensures var key := KeyOf(Run(cfg, run).calls[c].call.decision);
            var failed, freed := Run(cfg, run + [a]), Run(cfg, run + [a] + [Release(c)]);
            && c in failed.calls && failed.calls[c].phase.Releasing?
            && (a == Insert(c) <==> failed.calls[c].phase.outcome.Exhausted?)
            && c in freed.calls && freed.calls[c].phase == Done(failed.calls[c].phase.outcome)
            && freed.rows == Run(cfg, run).rows && freed.keys == Run(cfg, run).keys - {key}
  {
    hide Run, KeyOf, To;
    var s := Run(cfg, run);
    RunOneMore(cfg, run, a);
    RunOneMore(cfg, run + [a], Release(c));
    RaisesToRelease(cfg, s, c, a);
    ReleaseFrees(cfg, Run(cfg, run + [a]), c);
  }

  /** The insert meets a taken seq on the last attempt. */
  predicate GivesUp(cfg: Config, s: State, phase: Phase) {
    phase.Inserting? && phase.entry.seqNo >= 0 && phase.entry.seqNo in s.rows && phase.attempt + 1 >= cfg.attempts
  }

  lemma RaisesToRelease(cfg: Config, s: State, c: nat, a: Action)
    requires c in s.calls && Winning(cfg, s.calls[c]) && !s.calls[c].phase.Completing? && !s.calls[c].phase.Releasing?
    requires a == Fail(c) || (a == Insert(c) && GivesUp(cfg, s, s.calls[c].phase))
    ensures var t := Apply(cfg, s, a);
            && c in t.calls && t.calls[c].phase.Releasing? && t.calls[c].call == s.calls[c].call
            && (a == Insert(c) <==> t.calls[c].phase.outcome.Exhausted?) && t.rows == s.rows && t.keys == s.keys
  {
    hide To;
    forall phase
      ensures var t := To(s, c, phase);
              && c in t.calls && t.calls[c].phase == phase && t.calls[c].call == s.calls[c].call && t.rows == s.rows && t.keys == s.keys
    {
      ToIs(s, c, phase);
    }
  }

  lemma ToIs(s: State, c: nat, phase: Phase)
    requires c in s.calls
    ensures var t := To(s, c, phase);
            && c in t.calls && t.calls[c].phase == phase && t.calls[c].call == s.calls[c].call && t.rows == s.rows && t.keys == s.keys
  {
  }

  lemma ReleaseFrees(cfg: Config, s: State, c: nat)
    requires c in s.calls && s.calls[c].phase.Releasing? && s.calls[c].call.DecideCall?
    ensures var t := Apply(cfg, s, Release(c));
            && c in t.calls && t.calls[c].phase == Done(s.calls[c].phase.outcome)
            && t.rows == s.rows && t.keys == s.keys - {KeyOf(s.calls[c].call.decision)}
  {
    hide KeyOf;
  }

  /** A call that has decided has completed its key. */
  ghost predicate DecidedOk(cfg: Config, s: State, c: nat) {
    cfg.keyed && c in s.calls && s.calls[c].phase == Done(Decided) ==>
      s.calls[c].call.DecideCall? && CompletedBy(s, KeyOf(s.calls[c].call.decision), c)
  }

  lemma DecidedStep(cfg: Config, s: State, a: Action, c: nat)
    requires Inv(cfg, s) && DecidedOk(cfg, s, c)
    ensures DecidedOk(cfg, Apply(cfg, s, a), c)
  {
    hide Inv, Apply, KeyOf, CompletedBy, Advances, CallOk, WinnerOk, Quiet;
    var t := Apply(cfg, s, a);
    if a.Start? {
      StartMoves(cfg, s, a.c, a.call);
      StartKeeps(cfg, s, a);
    } else {
      StepsAdvance(cfg, s, a);
      DoneStays(cfg, s, t, a.c, c);
    }
    if cfg.keyed && c in s.calls {
      if s.calls[c].phase == Done(Decided) {
        CompletedStays(cfg, s, a, KeyOf(s.calls[c].call.decision), c);
      } else if a.c == c {
        CallOkAt(cfg, s, c);
        DecidesByCompleting(cfg, s, a);
      }
    }
  }

  lemma DoneIsDone(cfg: Config, s: State, a: Action)
    ensures !a.Start? && a.c in s.calls && s.calls[a.c].phase.Done? ==> Apply(cfg, s, a) == s
  {
    hide Apply;
    if !a.Start? {
      StepsAdvance(cfg, s, a);
    }
  }

  lemma DecidesByCompleting(cfg: Config, s: State, a: Action)
    requires cfg.keyed && a.c in s.calls && CallOk(cfg, s.rows, s.calls[a.c]) && WinnerOk(cfg, s, a.c)
    requires s.calls[a.c].phase != Done(Decided)
    ensures DecidedOk(cfg, Apply(cfg, s, a), a.c)
  {
    hide LookStep, ReadPreviousStep, ReserveStep, ReadHeadStep, InsertStep, RecomputeStep, ProjectStep, CompleteStep, ReleaseStep, FailStep;
    hide CallOk, WinnerOk, KeyOf, CompletedBy, Advances, WellFormed;
    var c := a.c;
    match a
    case Start(_, _) =>
    case Reserve(_) =>
      if s.calls[c].phase.Reserving? && s.calls[c].call.DecideCall? {
        NoDecisionYet(cfg, s, c);
      }
    case Complete(_) =>
      if s.calls[c].phase.Completing? && s.calls[c].call.DecideCall? {
        CompletingHolds(cfg, s, c);
      }
    case Release(_) =>
      if s.calls[c].phase.Releasing? && s.calls[c].call.DecideCall? {
        ReleasingIsNotDecided(cfg, s, c);
        ReleasedIs(cfg, s, c);
      }
    case _ =>
      QuietSteps(cfg, s, a);
  }

  lemma NoDecisionYet(cfg: Config, s: State, c: nat)
    requires c in s.calls && s.calls[c].phase.Reserving? && s.calls[c].call.DecideCall?
    ensures c in ReserveStep(cfg, s, c).calls && ReserveStep(cfg, s, c).calls[c].phase != Done(Decided)
  {
    hide KeyOf, Fingerprint, DecideJob, To;
    forall phase
      ensures c in To(s, c, phase).calls && To(s, c, phase).calls[c].phase == phase
    {
      IsAt(s, c, phase);
    }
  }

  lemma IsAt(s: State, c: nat, phase: Phase)
    requires c in s.calls
    ensures c in To(s, c, phase).calls && To(s, c, phase).calls[c].phase == phase && To(s, c, phase).rows == s.rows
  {
  }

  lemma ReleasedIs(cfg: Config, s: State, c: nat)
    requires c in s.calls && s.calls[c].phase.Releasing? && s.calls[c].call.DecideCall?
    ensures c in ReleaseStep(s, c).calls && ReleaseStep(s, c).calls[c].phase == Done(s.calls[c].phase.outcome)
  {
    hide KeyOf;
  }

  lemma StartKeeps(cfg: Config, s: State, a: Action)
    requires a.Start?
    ensures var t := Apply(cfg, s, a);
            t.keys == s.keys && t.holder == s.holder
  {
    hide WellFormed;
  }

  lemma DoneStays(cfg: Config, s: State, t: State, mover: nat, c: nat)
    requires t == s || Advances(cfg, s, t, mover)
    ensures c in t.calls <==> c in s.calls
    ensures c in s.calls && (mover != c || s.calls[c].phase.Done?) ==> t.calls[c] == s.calls[c]
  {
  }

  lemma ReleasingIsNotDecided(cfg: Config, s: State, c: nat)
    requires c in s.calls && CallOk(cfg, s.rows, s.calls[c]) && s.calls[c].phase.Releasing?
    ensures s.calls[c].phase.outcome != Decided
  {
    hide OutcomeOk;
  }

  lemma CompletingHolds(cfg: Config, s: State, c: nat)
    requires cfg.keyed && c in s.calls && s.calls[c].phase.Completing? && s.calls[c].call.DecideCall? && WinnerOk(cfg, s, c)
    ensures CompletedBy(CompleteStep(s, c), KeyOf(s.calls[c].call.decision), c)
    ensures CompleteStep(s, c).calls[c].call == s.calls[c].call
  {
    hide KeyOf;
  }

  lemma {:induction false} DecidedCompletes(cfg: Config, run: seq<Action>, c: nat)
    ensures DecidedOk(cfg, Run(cfg, run), c)
  {
    hide Apply, Inv, DecidedOk;
    if run == [] {
      NothingDecided(cfg, c);
    } else {
      RunInv(cfg, run[..|run| - 1]);
      DecidedCompletes(cfg, run[..|run| - 1], c);
      DecidedStep(cfg, Run(cfg, run[..|run| - 1]), run[|run| - 1], c);
    }
  }

  lemma NothingDecided(cfg: Config, c: nat)
    ensures DecidedOk(cfg, START, c)
  {
  }

  /** Retries are replayed, whoever else is calling. Once a call has ended with its decision recorded,
      its key is completed for ever, and any later call with the same decision that gets as far as the
      reservation is answered with that decision's request; it appends nothing. */
  lemma RetriesAreReplayed(cfg: Config, run: seq<Action>, c: nat, more: seq<Action>, again: nat)
    requires cfg.keyed && c in Run(cfg, run).calls && Run(cfg, run).calls[c].phase == Done(Decided)
    requires again in Run(cfg, run + more).calls && Run(cfg, run + more).calls[again].phase.Reserving?
    requires Run(cfg, run + more).calls[again].call.DecideCall?
    requires Run(cfg, run).calls[c].call.DecideCall?
    requires Run(cfg, run).calls[c].call.decision == Run(cfg, run + more).calls[again].call.decision
    ensures var d, s, t := Run(cfg, run).calls[c].call.decision, Run(cfg, run + more), Run(cfg, run + more + [Reserve(again)]);
            t.rows == s.rows && again in t.calls && t.calls[again].phase == Done(Replayed(d.requestId, d))
  {
    hide Run, Inv, KeyOf, Apply, Fingerprint;
    var d := Run(cfg, run).calls[c].call.decision;
    var s := Run(cfg, run + more);
    DecidedCompletes(cfg, run, c);
    CompletedForEver(cfg, run, more, KeyOf(d), c);
    CallsStay(cfg, run, more, c);
    RunInv(cfg, run + more);
    KeyOkAt(cfg, s, KeyOf(d));
    RunOneMore(cfg, run + more, Reserve(again));
    HeldIsReplayed(cfg, s, again, c);
  }

  lemma HeldIsReplayed(cfg: Config, s: State, again: nat, c: nat)
    requires again in s.calls && s.calls[again].phase.Reserving? && s.calls[again].call.DecideCall?
    requires c in s.calls && s.calls[c].call.DecideCall? && s.calls[c].call.decision == s.calls[again].call.decision
    requires var key := KeyOf(s.calls[again].call.decision); CompletedBy(s, key, c) && KeyOk(cfg, s, key)
    ensures var d, t := s.calls[again].call.decision, Apply(cfg, s, Reserve(again));
            t.rows == s.rows && again in t.calls && t.calls[again].phase == Done(Replayed(d.requestId, d))
  {
    hide KeyOf, Fingerprint, DecideJob;
  }

  /** Calls are never forgotten, nor what they were called with. */
  lemma {:induction false} CallsStay(cfg: Config, run: seq<Action>, more: seq<Action>, c: nat)
    requires c in Run(cfg, run).calls && Run(cfg, run).calls[c].phase.Done?
    ensures c in Run(cfg, run + more).calls && Run(cfg, run + more).calls[c] == Run(cfg, run).calls[c]
  {
    hide Apply, Advances;
    if more == [] {
      assert run + more == run;
    } else {
      var n := |more| - 1;
      assert (run + more)[..|run| + n] == run + more[..n] && (run + more)[|run| + n] == more[n];
      CallsStay(cfg, run, more[..n], c);
      var s, a := Run(cfg, run + more[..n]), more[n];
      if a.Start? {
        StartMoves(cfg, s, a.c, a.call);
      } else {
        StepsAdvance(cfg, s, a);
        DoneStays(cfg, s, Apply(cfg, s, a), a.c, c);
      }
    }
  }
}
