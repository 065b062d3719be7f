/** The policy engine against its rules, stated over the arguments of `evaluate` alone: which decisions
    are ballots, which ballot of an approver stands, and what answer is due. */
module Verdicts {
  import opened ByteStrings
  import opened JsonText
  import opened Models
  import opened Datetime
  import opened PolicyEngine
  import opened PolicyTheorems

  /** What is evaluated, apart from the decisions and the time. */
  datatype Matter = Matter(H: Hash, parse: Parse, request: Request, policy: Policy, identities: map<string, Identity>)

  function Evaluated(m: Matter, ds: seq<Decision>, at: string): Option<PolicyResult> {
    Evaluate(m.H, m.parse, m.request, ds, m.policy, m.identities, at)
  }

  // ------------------------------------------------------------------- the rules

  /** By name or by a role on the roster; and not the requester, if duties are separated. */
  predicate MayVote(m: Matter, approver: string) {
    && (|| approver in m.policy.allowedApprovers
        || (approver in m.identities
            && exists role :: role in m.identities[approver].roles && "role:" + role in m.policy.allowedApprovers))
    && (m.policy.separationOfDuties ==> approver != m.request.requestedBy)
  }

  /** The request's closing time parses, so does its creation time, the age limit can be added to it,
      and both have an offset or neither has. */
  predicate Told(m: Matter) {
    && m.parse(m.request.notValidAfter).Some? && m.parse(m.request.createdAt).Some?
    && var closes, created := m.parse(m.request.notValidAfter).value, m.parse(m.request.createdAt).value;
       && (closes.offset.Some? <==> created.offset.Some?)
       && 0 <= created.wall + m.policy.maxAgeSeconds * 1000000 < WALL_END
  }

  /** Neither after the closing time nor older than the age limit allows. */
  predicate InTime(m: Matter, instant: int)
    requires Told(m)
  {
    && instant <= Instant(m.parse(m.request.notValidAfter).value)
    && instant <= Instant(m.parse(m.request.createdAt).value) + m.policy.maxAgeSeconds * 1000000
  }

  /** The time can be compared with the request's. */
  predicate Comparable(m: Matter, text: string)
    requires Told(m)
  {
    m.parse(text).Some? && (m.parse(text).value.offset.Some? <==> m.parse(m.request.notValidAfter).value.offset.Some?)
  }

  /** A decision that counts: bound to this very request, by someone who may vote, in time. */
  predicate Ballot(m: Matter, d: Decision)
    requires Told(m)
  {
    && d.contextDigest == ContextDigest(m.H, m.request)
    && MayVote(m, d.approverId)
    && Comparable(m, d.decidedAt) && InTime(m, Instant(m.parse(d.decidedAt).value))
  }

  /** The ballot that stands for its approver: no other of theirs has a later stamp, or the same stamp
      and a later place. */
  ghost predicate Stands(m: Matter, ds: seq<Decision>, i: nat)
    requires Told(m) && i < |ds|
  {
    && Ballot(m, ds[i])
    && forall j :: 0 <= j < |ds| && j != i && Ballot(m, ds[j]) && ds[j].approverId == ds[i].approverId ==>
         if ds[j].decidedAt == ds[i].decidedAt then j < i else StrLe(ds[j].decidedAt, ds[i].decidedAt)
  }

  ghost predicate Cast(m: Matter, ds: seq<Decision>, approver: string, verdict: string)
    requires Told(m)
  {
    exists i :: 0 <= i < |ds| && ds[i].approverId == approver && Stands(m, ds, i) && ds[i].verdict == verdict
  }

  /** The answer that is due at an instant. */
  ghost predicate Due(m: Matter, ds: seq<Decision>, instant: int, r: PolicyResult)
    requires Told(m)
  {
    var rejected := m.policy.rejectIsTerminal && exists a :: Cast(m, ds, a, "reject");
    var enough := |r.satisfiedBy| >= m.policy.threshold
                  && forall role :: role in m.policy.requireDistinctRoles ==>
                       exists a :: a in r.satisfiedBy && a in m.identities && role in m.identities[a].roles;
    && StrictlySorted(r.satisfiedBy)
    && (forall a :: a in r.satisfiedBy <==> Cast(m, ds, a, if r.status.Rejected? then "reject" else "approve"))
    && (r.status.Rejected? <==> rejected)
    && (r.status.Approved? <==> !rejected && enough)
    && (r.status.Expired? <==> !rejected && !enough && !InTime(m, instant))
  }

  /** Every decision whose time is looked at has one that can be compared. */
  predicate TimesRead(m: Matter, ds: seq<Decision>)
    requires Told(m)
  {
    forall d :: d in ds && d.contextDigest == ContextDigest(m.H, m.request) && MayVote(m, d.approverId) ==> Comparable(m, d.decidedAt)
  }

  // ------------------------------------------------------------ the engine meets them

  function TheCase(m: Matter): Option<Case> {
    CaseOf(m.H, m.parse, m.request, m.policy, m.identities)
  }

  /** The deadline is told exactly so, and is the earlier of its two bounds. */
  lemma CaseIsTold(m: Matter)
    ensures TheCase(m).Some? <==> Told(m)
    ensures TheCase(m).Some? ==>
              var c := TheCase(m).value;
              && c.parse == m.parse && c.context == ContextDigest(m.H, m.request) && c.requestedBy == m.request.requestedBy
              && c.policy == m.policy && c.identities == m.identities
              && c.aware == Aware(m.parse(m.request.notValidAfter).value)
              && forall t :: t <= c.deadline <==> InTime(m, t)
  {
    hide ContextDigest;
  }

  lemma VotersMayVote(m: Matter, approver: string)
    ensures MayVote(m, approver)
       <==> Eligible(approver, m.policy, m.identities)
            && !(m.policy.separationOfDuties && approver == m.request.requestedBy)
  {
  }

  lemma BallotsCount(m: Matter, d: Decision)
    requires Told(m)
    ensures TheCase(m).Some?
    ensures Ballot(m, d) <==> Counts(TheCase(m).value, d)
    ensures (d.contextDigest == ContextDigest(m.H, m.request) && MayVote(m, d.approverId) ==> Comparable(m, d.decidedAt))
       <==> PolicyEngine.Readable(TheCase(m).value, d)
  {
    hide ContextDigest, MayVote, Eligible, CaseOf, InTime;
    CaseIsTold(m);
    VotersMayVote(m, d.approverId);
  }

  lemma StandingSpeaks(m: Matter, ds: seq<Decision>, i: nat)
    requires Told(m) && i < |ds|
    ensures TheCase(m).Some? && (Stands(m, ds, i) <==> Speaks(TheCase(m).value, ds, i))
  {
    hide Ballot, Counts, StrLe, CaseOf;
    CaseIsTold(m);
    forall d: Decision
      ensures Ballot(m, d) <==> Counts(TheCase(m).value, d)
    {
      BallotsCount(m, d);
    }
    forall j | 0 <= j < |ds|
      ensures Superseded(ds, j, i) <==> if ds[j].decidedAt == ds[i].decidedAt then j < i else StrLe(ds[j].decidedAt, ds[i].decidedAt)
    {
      StrLeTotal(ds[i].decidedAt, ds[i].decidedAt);
    }
  }

  lemma CastSays(m: Matter, ds: seq<Decision>, approver: string, verdict: string)
    requires Told(m)
    ensures TheCase(m).Some? && (Cast(m, ds, approver, verdict) <==> Says(TheCase(m).value, ds, approver, verdict))
  {
    hide Stands, Speaks, CaseOf;
    CaseIsTold(m);
    forall i | 0 <= i < |ds|
      ensures Stands(m, ds, i) <==> Speaks(TheCase(m).value, ds, i)
    {
      StandingSpeaks(m, ds, i);
    }
  }

  lemma DueIsJustified(m: Matter, ds: seq<Decision>, instant: int, r: PolicyResult)
    requires Told(m)
    ensures TheCase(m).Some? && (Due(m, ds, instant, r) <==> Justified(TheCase(m).value, ds, instant, r))
  {
    hide Cast, Says, StrictlySorted, CaseOf, InTime;
    CaseIsTold(m);
    forall a, v
      ensures Cast(m, ds, a, v) <==> Says(TheCase(m).value, ds, a, v)
    {
      CastSays(m, ds, a, v);
    }
    assert REJECT == "reject" && APPROVE == "approve";
  }

  /** Only one answer is due. */
  lemma DueIsUnique(m: Matter, ds: seq<Decision>, instant: int, r: PolicyResult, s: PolicyResult)
    requires Told(m) && Due(m, ds, instant, r) && Due(m, ds, instant, s)
    ensures r == s
  {
    hide Due, Justified, CaseOf;
    DueIsJustified(m, ds, instant, r);
    DueIsJustified(m, ds, instant, s);
    JustifiedIsUnique(TheCase(m).value, ds, instant, r, s);
  }

  /** Approved or rejected, which is known without comparing the time. */
  ghost predicate Settled(m: Matter, ds: seq<Decision>, instant: int)
    requires Told(m)
  {
    exists r :: Due(m, ds, instant, r) && (r.status.Approved? || r.status.Rejected?)
  }

  /** `evaluate` returns exactly when the deadline can be told, every time it looks at can be compared,
      and its own time can, unless it is not needed; and what it returns is what is due. */
  lemma EvaluateExactly(m: Matter, ds: seq<Decision>, at: string)
    ensures Evaluated(m, ds, at).Some?
       <==> && m.parse(at).Some? && Told(m) && TimesRead(m, ds)
            && (Comparable(m, at) || Settled(m, ds, Instant(m.parse(at).value)))
    ensures Evaluated(m, ds, at).Some? ==> Due(m, ds, Instant(m.parse(at).value), Evaluated(m, ds, at).value)
  {
    hide Due, Justified, CaseOf, Judge, Voices, PolicyEngine.Readable, ContextDigest, MayVote, Comparable;
    CaseIsTold(m);
    if m.parse(at).Some? && Told(m) {
      var c, now := TheCase(m).value, Instant(m.parse(at).value);
      var r := Judge(c, Voices(c, ds), now);
      TimesReadAlike(m, ds);
      JudgeIsJustified(c, ds, now);
      DueIsJustified(m, ds, now, r);
      assert Comparable(m, at) <==> Aware(m.parse(at).value) == c.aware by {
        ComparableIsAware(m, at);
      }
      if Settled(m, ds, now) {
        var s :| Due(m, ds, now, s) && (s.status.Approved? || s.status.Rejected?);
        DueIsUnique(m, ds, now, r, s);
      }
    }
  }

  lemma ComparableIsAware(m: Matter, at: string)
    requires Told(m) && m.parse(at).Some?
    ensures Comparable(m, at) <==> Aware(m.parse(at).value) == Aware(m.parse(m.request.notValidAfter).value)
  {
  }

  lemma TimesReadAlike(m: Matter, ds: seq<Decision>)
    requires Told(m)
    ensures TheCase(m).Some? && (TimesRead(m, ds) <==> forall d :: d in ds ==> PolicyEngine.Readable(TheCase(m).value, d))
  {
    hide PolicyEngine.Readable, Comparable, MayVote, ContextDigest, CaseOf;
    CaseIsTold(m);
    forall d: Decision
      ensures (d.contextDigest == ContextDigest(m.H, m.request) && MayVote(m, d.approverId) ==> Comparable(m, d.decidedAt))
         <==> PolicyEngine.Readable(TheCase(m).value, d)
    {
      BallotsCount(m, d);
    }
  }

  // -------------------------------------------------- only ballots on this request

  /** Whoever an answer names has decided so, on this very request, being allowed to and in time. */
  lemma NamesHaveBallots(m: Matter, ds: seq<Decision>, at: string, a: string)
    requires Evaluated(m, ds, at).Some? && a in Evaluated(m, ds, at).value.satisfiedBy
    ensures Told(m)
    ensures exists d :: d in ds && d.approverId == a
              && d.verdict == (if Evaluated(m, ds, at).value.status.Rejected? then "reject" else "approve")
              && d.contextDigest == ContextDigest(m.H, m.request)
              && m.parse(d.decidedAt).Some? && InTime(m, Instant(m.parse(d.decidedAt).value))
              && (m.policy.separationOfDuties ==> a != m.request.requestedBy)
  {
    hide ContextDigest, Evaluate, InTime, Settled, StrictlySorted;
    EvaluateExactly(m, ds, at);
    var r := Evaluated(m, ds, at).value;
    var verdict := if r.status.Rejected? then "reject" else "approve";
    assert Cast(m, ds, a, verdict);
    var i :| 0 <= i < |ds| && ds[i].approverId == a && Stands(m, ds, i) && ds[i].verdict == verdict;
    assert ds[i] in ds && Ballot(m, ds[i]);
  }

  lemma {:induction false} CountedConcat(c: Case, a: seq<Decision>, b: seq<Decision>)
    ensures Counted(c, a + b) == Counted(c, a) + Counted(c, b)
  {
    hide Counts;
    if b == [] {
      assert a + b == a;
    } else {
      var n := |b| - 1;
      assert (a + b)[..|a| + n] == a + b[..n];
      CountedConcat(c, a, b[..n]);
    }
  }

  /** A decision bound to another request body, wherever it stands in the list and whatever else it
      says, leaves the answer as it was. */
  lemma MisboundIsIgnored(m: Matter, before: seq<Decision>, d: Decision, after: seq<Decision>, at: string)
    requires d.contextDigest != ContextDigest(m.H, m.request)
    ensures Evaluated(m, before + [d] + after, at) == Evaluated(m, before + after, at)
  {
    hide ContextDigest, Counts, Counted, Conclude, Deadline;
    var c := TheCase(m);
    if c.Some? {
      MisboundIsUncounted(m, d);
      CountedConcat(c.value, before + [d], after);
      CountedConcat(c.value, before, [d]);
      CountedConcat(c.value, before, after);
      CountedNone(c.value, d);
      assert Counted(c.value, before) + [] == Counted(c.value, before);
      var all := before + [d] + after;
      assert forall e :: e in all <==> e in before + after || e == d;
    }
  }

  lemma CountedNone(c: Case, d: Decision)
    ensures Counted(c, [d]) == if Counts(c, d) then [d] else []
  {
    hide Counts;
    assert [d][..0] == [];
  }

  lemma MisboundIsUncounted(m: Matter, d: Decision)
    requires TheCase(m).Some? && d.contextDigest != ContextDigest(m.H, m.request)
    ensures !Counts(TheCase(m).value, d) && PolicyEngine.Readable(TheCase(m).value, d)
  {
    hide ContextDigest, Eligible, Deadline;
  }
}
