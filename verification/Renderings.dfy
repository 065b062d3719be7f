/** What a stored view shows, said in terms of the record it renders. */
module Renderings {
  import opened ByteStrings
  import opened JsonText
  import opened Canonical
  import opened Models
  import opened PolicyEngine
  import opened Verifier
  import opened Ceremony
  import opened Reads
  import opened Records
  import opened Operations
  import V = Verdicts

  function MatterOf(env: Env, r: Request): V.Matter
    requires r.policyId in env.policies
  {
    V.Matter(env.gate.H, env.gate.trust.parse, r, env.policies[r.policyId], env.gate.identities)
  }

  /** The view shows this record: the request's own fields, the status with who brought it about, and,
      while it is pending, exactly the members of the roster who may still vote, in order. */
  ghost predicate Shows(env: Env, record: Record, at: string, lastSeq: int, v: View)
    requires record.request.policyId in env.policies
  {
    var r, result := record.request, record.result;
    && v.requestId == RequestId(env.gate.H, r) && v.kind == r.kind && v.requestedBy == r.requestedBy && v.policyId == r.policyId
    && v.subject == r.subject && v.createdAt == r.createdAt && v.notValidAfter == r.notValidAfter
    && v.status == result.status && v.approvers == result.satisfiedBy && v.threshold == env.policies[r.policyId].threshold
    && v.approvals == (if result.status.Rejected? then 0 else |result.satisfiedBy|)
    && v.updatedAt == at && v.lastSeq == lastSeq
    && StrictlySorted(v.pendingFor)
    && forall a :: a in v.pendingFor <==> AwaitedFrom(env, record, a)
  }

  predicate AwaitedFrom(env: Env, record: Record, a: string)
    requires record.request.policyId in env.policies
  {
    && record.result.status.Pending? && a in env.gate.identities && V.MayVote(MatterOf(env, record.request), a)
    && forall d :: d in record.decisions ==> d.approverId != a
  }

  lemma BuiltShows(env: Env, record: Record, lastSeq: int, at: string)
    requires record.request.policyId in env.policies
    ensures Shows(env, record, at, lastSeq,
                  BuildView(env.gate.H, record, env.policies[record.request.policyId], env.gate.identities, lastSeq, at))
  {
    hide RequestId, StrictlySorted, EligibleApprovers, Undecided, V.MayVote, Eligible;
    var p, identities := env.policies[record.request.policyId], env.gate.identities;
    var v := BuildView(env.gate.H, record, p, identities, lastSeq, at);
    if record.result.status.Pending? {
      UndecidedSorted(record, p, identities);
      forall a
        ensures a in v.pendingFor <==> AwaitedFrom(env, record, a)
      {
        PendingForExactly(env.gate.H, record, p, identities, lastSeq, at, a);
        V.VotersMayVote(MatterOf(env, record.request), a);
      }
    } else {
      NoneIsSorted();
    }
  }

  lemma NoneIsSorted()
    ensures StrictlySorted([])
  {
  }

  lemma UndecidedSorted(record: Record, p: Policy, identities: map<string, Identity>)
    ensures StrictlySorted(Undecided(EligibleApprovers(record.request, p, identities), set d | d in record.decisions :: d.approverId))
  {
    hide CouldVote;
    LeavingOutKeepsSorted(EligibleApprovers(record.request, p, identities), set d | d in record.decisions :: d.approverId);
  }

  lemma {:induction false} LeavingOutKeepsSorted(eligible: seq<string>, decided: set<string>)
    requires StrictlySorted(eligible)
    ensures StrictlySorted(Undecided(eligible, decided))
    ensures forall a :: a in Undecided(eligible, decided) ==> a in eligible
  {
    hide StrLe, StrictlySorted;
    if eligible != [] {
      var first, rest := eligible[0], eligible[1..];
      TailIsSorted(eligible);
      LeavingOutKeepsSorted(rest, decided);
      var left := Undecided(rest, decided);
      if first !in decided {
        if left != [] {
          assert left[0] in left;
        }
        PrependSorted(first, left);
      } else {
        assert [] + left == left;
      }
    }
  }

  /** The views after storing this one: it is there, unless one of a later position already is, and no
      other has changed. */
  ghost predicate Stored(env: Env, before: map<string, View>, after: map<string, View>, record: Record, at: string, lastSeq: int)
    requires record.request.policyId in env.policies
  {
    var id := RequestId(env.gate.H, record.request);
    && id in after
    && (if id in before && before[id].lastSeq > lastSeq then after[id] == before[id] else Shows(env, record, at, lastSeq, after[id]))
    && forall k :: k != id ==> (k in after <==> k in before) && (k in before ==> after[k] == before[k])
  }

  lemma ProjectedIsStored(s: Service, views: map<string, View>, record: Record, at: string, lastSeq: int)
    requires record.request.policyId in s.env.policies
    ensures var after := ProjectRecord(s, views, record, at, lastSeq);
            if s.projects then Stored(s.env, views, after, record, at, lastSeq) else after == views
  {
    hide Shows, BuildView;
    BuiltShows(s.env, record, lastSeq, at);
    BuiltIsFiled(s.env, record, lastSeq, at);
  }

  lemma BuiltIsFiled(env: Env, record: Record, lastSeq: int, at: string)
    requires record.request.policyId in env.policies
    ensures var v := BuildView(env.gate.H, record, env.policies[record.request.policyId], env.gate.identities, lastSeq, at);
            v.requestId == RequestId(env.gate.H, record.request) && v.lastSeq == lastSeq
  {
    hide RequestId, EligibleApprovers, Undecided;
  }
}
