/** What the status of a request depends on, and how it moves with time and with more decisions. */
module PolicyTheorems {
  import opened ByteStrings
  import opened JsonText
  import opened Models
  import opened PolicyEngine
  import opened Datetime

  /** The approver's one voice in the list is `verdict`. */
  ghost predicate Says(c: Case, ds: seq<Decision>, approver: string, verdict: string) {
    exists i :: 0 <= i < |ds| && ds[i].approverId == approver && Speaks(c, ds, i) && ds[i].verdict == verdict
  }

  lemma VotersSay(c: Case, ds: seq<Decision>, verdict: string)
    ensures forall a :: a in Voters(Voices(c, ds), verdict) <==> Says(c, ds, a, verdict)
  {
    hide Counts, Voices, Speaks;
    VoicesSpeak(c, ds);
    forall a | Says(c, ds, a, verdict)
      ensures a in Voters(Voices(c, ds), verdict)
    {
      var i :| 0 <= i < |ds| && ds[i].approverId == a && Speaks(c, ds, i) && ds[i].verdict == verdict;
      SpeakerCounts(c, ds, i);
      assert a in Voices(c, ds);
      var j :| 0 <= j < |ds| && ds[j] == Voices(c, ds)[a] && ds[j].approverId == a && Speaks(c, ds, j);
      OneVoice(c, ds, i, j);
    }
  }

  lemma SpeakerCounts(c: Case, ds: seq<Decision>, i: nat)
    requires i < |ds| && Speaks(c, ds, i)
    ensures ds[i] in ds && Counts(c, ds[i])
  {
    hide Counts;
  }

  /** The status and the names it rests on, from who says what: no sorting, no dictionary. */
  ghost predicate Justified(c: Case, ds: seq<Decision>, now: int, r: PolicyResult) {
    var verdict := if r.status.Rejected? then REJECT else APPROVE;
    var rejected := c.policy.rejectIsTerminal && exists a :: Says(c, ds, a, REJECT);
    var enough := |r.satisfiedBy| >= c.policy.threshold
                  && forall role :: role in c.policy.requireDistinctRoles ==>
                       exists a :: a in r.satisfiedBy && a in c.identities && role in c.identities[a].roles;
    && StrictlySorted(r.satisfiedBy)
    && (forall a :: a in r.satisfiedBy <==> Says(c, ds, a, verdict))
    && (r.status.Rejected? <==> rejected)
    && (r.status.Approved? <==> !rejected && enough)
    && (r.status.Expired? <==> !rejected && !enough && now > c.deadline)
  }

  /** The engine's answer is the justified one. */
  lemma JudgeIsJustified(c: Case, ds: seq<Decision>, now: int)
    ensures Justified(c, ds, now, Judge(c, Voices(c, ds), now))
  {
    hide StrictlySorted, Voices, SortedKeys, Says;
    VotersSay(c, ds, REJECT);
    VotersSay(c, ds, APPROVE);
    var r := Judge(c, Voices(c, ds), now);
    var voters := Voters(Voices(c, ds), if r.status.Rejected? then REJECT else APPROVE);
    assert r.satisfiedBy == SortedKeys(voters);
    if !r.status.Rejected? {
      assert RolesSatisfied(voters, c.policy, c.identities) <==>
        forall role :: role in c.policy.requireDistinctRoles ==>
          exists a :: a in r.satisfiedBy && a in c.identities && role in c.identities[a].roles;
    }
  }

  /** And the only one. */
  lemma JustifiedIsUnique(c: Case, ds: seq<Decision>, now: int, r: PolicyResult, s: PolicyResult)
    requires Justified(c, ds, now, r) && Justified(c, ds, now, s)
    ensures r == s
  {
    hide StrictlySorted, Says;
    if r.status.Rejected? == s.status.Rejected? {
      SortedIsUnique(r.satisfiedBy, s.satisfiedBy);
    }
  }

  /** Who can be named by a status: eligible approvers, and never the requester under separation of
      duties. */
  lemma NamedAreEligible(c: Case, ds: seq<Decision>, now: int, a: string)
    requires a in Judge(c, Voices(c, ds), now).satisfiedBy
    ensures Eligible(a, c.policy, c.identities)
    ensures c.policy.separationOfDuties ==> a != c.requestedBy
  {
    hide Judge, StrictlySorted, Eligible;
    JudgeIsJustified(c, ds, now);
    var r := Judge(c, Voices(c, ds), now);
    assert Says(c, ds, a, if r.status.Rejected? then REJECT else APPROVE);
  }

  /** Two lists in which everyone says the same get the same status and names. */
  lemma OnlyVoicesMatter(c: Case, ds: seq<Decision>, es: seq<Decision>, now: int)
    requires forall a, v :: Says(c, ds, a, v) <==> Says(c, es, a, v)
    ensures Judge(c, Voices(c, ds), now) == Judge(c, Voices(c, es), now)
  {
    hide Says, Judge, Voices, StrictlySorted;
    JudgeIsJustified(c, ds, now);
    JudgeIsJustified(c, es, now);
    var r := Judge(c, Voices(c, es), now);
    assert Justified(c, ds, now, r);
    JustifiedIsUnique(c, ds, now, Judge(c, Voices(c, ds), now), r);
  }

  // ---------------------------------------------------------------------- time

  /** With the decisions fixed, later times keep the status and its names, except that pending
      becomes expired, exactly when the window has closed by then. */
  lemma OnlyPendingExpires(H: Hash, parse: Parse, r: Request, ds: seq<Decision>, policy: Policy,
                           identities: map<string, Identity>, at: string, later: string)
    requires parse(at).Some? && parse(later).Some? && Less(parse(later).value, parse(at).value) == Some(false)
    ensures var x, y := Evaluate(H, parse, r, ds, policy, identities, at),
                        Evaluate(H, parse, r, ds, policy, identities, later);
            && x.Some? == y.Some?
            && (x.Some? ==>
                 && Deadline(parse, r, policy).Some?
                 && y.value.satisfiedBy == x.value.satisfiedBy
                 && y.value.status == if x.value.status.Pending? && Less(Deadline(parse, r, policy).value, parse(later).value) == Some(true)
                                      then Expired else x.value.status)
  {
    hide ContextDigest, Voices, Readable, RolesSatisfied, SortedKeys, Deadline;
  }

  // ------------------------------------------------------------- more decisions

  /** A list of decisions none of which counts adds nothing. */
  lemma {:induction false} UncountedAddNothing(c: Case, ds: seq<Decision>, more: seq<Decision>)
    requires forall d :: d in more ==> !Counts(c, d)
    ensures Voices(c, ds + more) == Voices(c, ds)
  {
    hide Counts, Voices;
    if more == [] {
      assert ds + more == ds;
    } else {
      var init, d := more[..|more| - 1], more[|more| - 1];
      UncountedAddNothing(c, ds, init);
      assert ds + more == (ds + init) + [d];
      CountedSnoc(c, ds + init, d);
    }
  }

  /** Once the window has closed, and every decision still to come is dated after it, the answer
      never changes again, at whatever times it is asked for. */
  lemma FrozenAfterDeadline(H: Hash, parse: Parse, r: Request, ds: seq<Decision>, more: seq<Decision>, policy: Policy,
                            identities: map<string, Identity>, at: string, later: string)
    requires parse(at).Some? && parse(later).Some?
    requires var deadline := Deadline(parse, r, policy);
             && deadline.Some?
             && Less(deadline.value, parse(at).value) == Some(true) && Less(deadline.value, parse(later).value) == Some(true)
             && forall d :: d in more ==> parse(d.decidedAt).Some? && Less(deadline.value, parse(d.decidedAt).value) == Some(true)
    ensures Evaluate(H, parse, r, ds + more, policy, identities, later) == Evaluate(H, parse, r, ds, policy, identities, at)
  {
    hide ContextDigest, Voices, RolesSatisfied, SortedKeys, Admissible, Deadline;
    var c := CaseOf(H, parse, r, policy, identities).value;
    UncountedAddNothing(c, ds, more);
    assert (forall d :: d in ds + more ==> Readable(c, d)) <==> forall d :: d in ds ==> Readable(c, d);
  }

  /** A decision with the same stamp as its approver's voice and another verdict. */
  predicate OverturnsTie(c: Case, ds: seq<Decision>, d: Decision) {
    && Counts(c, d)
    && d.approverId in Voices(c, ds)
    && var voice := Voices(c, ds)[d.approverId];
       voice.decidedAt == d.decidedAt && voice.verdict != d.verdict
  }

  /** Recording a decision a second time leaves every approver's voice alone exactly when it does
      not overturn a tie. */
  lemma RepeatsAreHeardOnce(c: Case, ds: seq<Decision>, d: Decision)
    requires d in ds
    ensures !OverturnsTie(c, ds, d) <==> forall v :: Voters(Voices(c, ds + [d]), v) == Voters(Voices(c, ds), v)
  {
    hide Counts, Voices, Speaks, StrLe;
    CountedSnoc(c, ds, d);
    if Counts(c, d) {
      VoicesSpeak(c, ds);
      var voice := Voices(c, ds)[d.approverId];
      VoiceIsLatest(c, ds, d);
      if StrLe(voice.decidedAt, d.decidedAt) {
        StrLeAntisymmetric(voice.decidedAt, d.decidedAt);
      }
      if OverturnsTie(c, ds, d) {
        StrLeTotal(d.decidedAt, d.decidedAt);
        assert d.approverId in Voters(Voices(c, ds), voice.verdict);
        assert d.approverId !in Voters(Voices(c, ds + [d]), voice.verdict);
      }
    }
  }

  lemma VoiceIsLatest(c: Case, ds: seq<Decision>, d: Decision)
    requires d in ds && Counts(c, d)
    ensures d.approverId in Voices(c, ds) && StrLe(d.decidedAt, Voices(c, ds)[d.approverId].decidedAt)
  {
    hide Counts, Voices;
    VoicesSpeak(c, ds);
    var j :| 0 <= j < |ds| && ds[j] == d;
    var i :| 0 <= i < |ds| && ds[i] == Voices(c, ds)[d.approverId] && ds[i].approverId == d.approverId && Speaks(c, ds, i);
    if i == j {
      StrLeTotal(d.decidedAt, d.decidedAt);
    } else {
      assert Counts(c, ds[j]) && ds[j].approverId == ds[i].approverId;
      assert Superseded(ds, j, i);
    }
  }

  lemma SameVotersSameAnswer(c: Case, ds: seq<Decision>, es: seq<Decision>)
    requires forall v :: Voters(Voices(c, ds), v) == Voters(Voices(c, es), v)
    ensures forall now :: Judge(c, Voices(c, ds), now) == Judge(c, Voices(c, es), now)
  {
    hide Voices, Voters, SortedKeys, RolesSatisfied;
  }

  /** So a replayed decision changes neither the status nor its names. */
  lemma RepeatChangesNothing(H: Hash, parse: Parse, r: Request, ds: seq<Decision>, d: Decision, policy: Policy,
                             identities: map<string, Identity>, at: string)
    requires d in ds
    requires var c := CaseOf(H, parse, r, policy, identities); c.Some? ==> !OverturnsTie(c.value, ds, d)
    ensures Evaluate(H, parse, r, ds + [d], policy, identities, at) == Evaluate(H, parse, r, ds, policy, identities, at)
  {
    hide CaseOf, Voices, Judge, Readable, OverturnsTie;
    var c := CaseOf(H, parse, r, policy, identities);
    if c.Some? {
      RepeatsAreHeardOnce(c.value, ds, d);
      SameVotersSameAnswer(c.value, ds + [d], ds);
      assert forall e :: e in ds + [d] <==> e in ds;
    }
  }

  /** The tie condition is needed: an approve and a reject with one stamp, and the first repeated. */
  lemma TiesCanFlip(c: Case, d: Decision, now: int)
    requires Counts(c, d) && d.verdict == APPROVE
    requires c.policy.rejectIsTerminal && c.policy.threshold == 1 && c.policy.requireDistinctRoles == []
    ensures var e := d.(verdict := REJECT);
            && Judge(c, Voices(c, [d, e]), now) == PolicyResult(Rejected, [d.approverId])
            && Judge(c, Voices(c, [d, e] + [d]), now) == PolicyResult(Approved, [d.approverId])
  {
    hide Voices, Counts, SortedKeys;
    var e := d.(verdict := REJECT);
    assert APPROVE[0] != REJECT[0];
    assert [] + [d] == [d] && [d] + [e] == [d, e];
    CountsIgnoresVerdict(c, d, REJECT);
    NoVoices(c);
    StrLeTotal(d.decidedAt, d.decidedAt);
    LastOfTie(c, [], d, d);
    LastOfTie(c, [d], d, e);
    LastOfTie(c, [d, e], e, d);
    SoleVoter(e);
    SoleVoter(d);
  }

  lemma NoVoices(c: Case)
    ensures Voices(c, []) == map[]
  {
  }

  /** Among decisions of one approver, the last is the voice if no stamp is greater. */
  lemma LastOfTie(c: Case, ds: seq<Decision>, voice: Decision, d: Decision)
    requires Counts(c, d) && StrLe(voice.decidedAt, d.decidedAt)
    requires Voices(c, ds) == map[] || Voices(c, ds) == map[d.approverId := voice]
    ensures Voices(c, ds + [d]) == map[d.approverId := d]
  {
    hide Counts, Voices, StrLe;
    CountedSnoc(c, ds, d);
  }

  lemma CountsIgnoresVerdict(c: Case, d: Decision, verdict: string)
    ensures Counts(c, d.(verdict := verdict)) == Counts(c, d)
  {
  }

  lemma SoleVoter(d: Decision)
    ensures forall v :: Voters(map[d.approverId := d], v) == if v == d.verdict then {d.approverId} else {}
    ensures SortedKeys({d.approverId}) == [d.approverId] && |{d.approverId}| == 1
  {
    SortedIsUnique(SortedKeys({d.approverId}), [d.approverId]);
  }

  // ------------------------------------------------------ decided stays decided

  /** Nobody changes a verdict. */
  predicate NoReversal(ds: seq<Decision>) {
    forall d, e :: d in ds && e in ds && d.approverId == e.approverId ==> d.verdict == e.verdict
  }

  lemma VotersWithoutReversal(c: Case, ds: seq<Decision>, verdict: string)
    requires NoReversal(ds)
    ensures forall a :: a in Voters(Voices(c, ds), verdict) <==>
              exists d :: d in ds && Counts(c, d) && d.approverId == a && d.verdict == verdict
  {
    hide Counts, Voices, Speaks;
    VoicesSpeak(c, ds);
    forall a | a in Voters(Voices(c, ds), verdict)
      ensures exists d :: d in ds && Counts(c, d) && d.approverId == a && d.verdict == verdict
    {
      var i :| 0 <= i < |ds| && ds[i] == Voices(c, ds)[a] && ds[i].approverId == a && Speaks(c, ds, i);
      SpeakerCounts(c, ds, i);
    }
    forall d | d in ds && Counts(c, d) && d.verdict == verdict
      ensures d.approverId in Voters(Voices(c, ds), verdict)
    {
      var i :| 0 <= i < |ds| && ds[i] == Voices(c, ds)[d.approverId] && ds[i].approverId == d.approverId && Speaks(c, ds, i);
      SpeakerCounts(c, ds, i);
    }
  }

  lemma SubsetSize(x: set<string>, y: set<string>)
    requires x <= y
    ensures |x| <= |y|
  {
    assert y == x + (y - x);
  }

  /** The approver's voice gives way to `d`: there is none yet, or its stamp is not later. */
  predicate GivesWay(voices: map<string, Decision>, d: Decision) {
    d.approverId in voices ==> StrLe(voices[d.approverId].decidedAt, d.decidedAt)
  }

  /** Those who say `verdict` once `d` has taken the place of its approver's old voice. */
  function VotersAfter(voices: map<string, Decision>, d: Decision, verdict: string): set<string> {
    (Voters(voices, verdict) - {d.approverId}) + if d.verdict == verdict then {d.approverId} else {}
  }

  lemma VotersMove(voices: map<string, Decision>, d: Decision, verdict: string)
    ensures Voters(voices[d.approverId := d], verdict) == VotersAfter(voices, d, verdict)
  {
  }

  /** The rejections left do not settle the request, and neither do the approvals. */
  predicate Unsettled(c: Case, rejecters: set<string>, approvers: set<string>) {
    && !(c.policy.rejectIsTerminal && rejecters != {})
    && !(|approvers| >= c.policy.threshold && RolesSatisfied(approvers, c.policy, c.identities))
  }

  /** One more counted decision makes a request that was not pending pending again exactly when the
      deadline has not passed, the approver's old voice gives way to it, and what is then said
      neither rejects nor approves. */
  lemma ReopensExactly(c: Case, ds: seq<Decision>, d: Decision, now: int, later: int)
    requires Counts(c, d) && now <= later && !Judge(c, Voices(c, ds), now).status.Pending?
    ensures Judge(c, Voices(c, ds + [d]), later).status.Pending?
       <==> && later <= c.deadline && GivesWay(Voices(c, ds), d)
            && Unsettled(c, VotersAfter(Voices(c, ds), d, REJECT), VotersAfter(Voices(c, ds), d, APPROVE))
  {
    hide Voices, Counts, SortedKeys, RolesSatisfied, StrLe, Voters, VotersAfter;
    CountedSnoc(c, ds, d);
    VotersMove(Voices(c, ds), d, REJECT);
    VotersMove(Voices(c, ds), d, APPROVE);
  }

  /** And then the approver has changed a verdict. */
  lemma ReopeningReverses(c: Case, ds: seq<Decision>, d: Decision, now: int, later: int)
    requires Counts(c, d) && now <= later && !Judge(c, Voices(c, ds), now).status.Pending?
    requires Judge(c, Voices(c, ds + [d]), later).status.Pending?
    ensures d.approverId in Voices(c, ds) && Voices(c, ds)[d.approverId].verdict != d.verdict
  {
    hide Voices, Counts, SortedKeys, StrLe, Voters, VotersAfter;
    ReopensExactly(c, ds, d, now, later);
    var voices := Voices(c, ds);
    if d.approverId !in voices || voices[d.approverId].verdict == d.verdict {
      VotersStay(voices, d, REJECT);
      VotersStay(voices, d, APPROVE);
      SubsetSize(Voters(voices, APPROVE), VotersAfter(voices, d, APPROVE));
    }
  }

  lemma VotersStay(voices: map<string, Decision>, d: Decision, verdict: string)
    requires d.approverId !in voices || voices[d.approverId].verdict == d.verdict
    ensures Voters(voices, verdict) <= VotersAfter(voices, d, verdict)
  {
  }

  /** Somebody changing a verdict can reopen a request: approved, and then pending again. */
  lemma ReversalReopens(c: Case, d: Decision, e: Decision, now: int)
    requires Counts(c, d) && Counts(c, e) && d.approverId == e.approverId && StrLe(d.decidedAt, e.decidedAt)
    requires d.verdict == APPROVE && e.verdict == REJECT && now <= c.deadline
    requires !c.policy.rejectIsTerminal && c.policy.threshold == 1 && c.policy.requireDistinctRoles == []
    ensures Judge(c, Voices(c, [d]), now).status == Approved
    ensures Judge(c, Voices(c, [d] + [e]), now).status == Pending
  {
    hide Voices, Counts, SortedKeys, StrLe;
    assert APPROVE[0] != REJECT[0];
    assert [] + [d] == [d];
    NoVoices(c);
    StrLeTotal(d.decidedAt, d.decidedAt);
    LastOfTie(c, [], d, d);
    LastOfTie(c, [d], d, e);
    SoleVoter(d);
    SoleVoter(e);
  }

  /** While nobody changes a verdict, a request that is no longer pending never is again, whatever
      else is decided and however late. */
  lemma DecidedStaysDecided(c: Case, ds: seq<Decision>, more: seq<Decision>, now: int, later: int)
    requires NoReversal(ds + more) && now <= later
    requires !Judge(c, Voices(c, ds), now).status.Pending?
    ensures !Judge(c, Voices(c, ds + more), later).status.Pending?
  {
    hide Voices, Counts, SortedKeys;
    assert NoReversal(ds) by {
      assert forall d :: d in ds ==> d in ds + more;
    }
    forall v
      ensures Voters(Voices(c, ds), v) <= Voters(Voices(c, ds + more), v)
    {
      VotersWithoutReversal(c, ds, v);
      VotersWithoutReversal(c, ds + more, v);
      assert forall d :: d in ds ==> d in ds + more;
    }
    SubsetSize(Voters(Voices(c, ds), APPROVE), Voters(Voices(c, ds + more), APPROVE));
  }
}
