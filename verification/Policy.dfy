/** The policy engine: from a request, its verified decisions and the roster to a status. */
module PolicyEngine {
  import opened ByteStrings
  import opened JsonText
  import opened Models
  import opened Datetime

  datatype Identity = Identity(id: string, roles: seq<string>)

  datatype Policy = Policy(
    id: string,
    kind: string,
    allowedApprovers: seq<string>,
    threshold: int,
    requireDistinctRoles: seq<string>,
    separationOfDuties: bool,
    rejectIsTerminal: bool,
    maxAgeSeconds: int,
    requiredSubjectFields: seq<string>,
    schema: string)

  datatype Verdict = Pending | Approved | Rejected | Expired

  datatype PolicyResult = PolicyResult(status: Verdict, satisfiedBy: seq<string>)

  const APPROVE := "approve"
  const REJECT := "reject"

  // ------------------------------------------------------------- who may vote

  function HoldsAllowedRole(roles: seq<string>, allowed: seq<string>): bool {
    exists r :: r in roles && "role:" + r in allowed
  }

  /** `_eligible` */
  predicate Eligible(approver: string, policy: Policy, identities: map<string, Identity>) {
    approver in policy.allowedApprovers
    || (approver in identities && HoldsAllowedRole(identities[approver].roles, policy.allowedApprovers))
  }

  /** `_roles_satisfied`: every required role is held by some approver. */
  predicate RolesSatisfied(approvers: set<string>, policy: Policy, identities: map<string, Identity>) {
    forall role :: role in policy.requireDistinctRoles ==>
      exists a :: a in approvers && a in identities && role in identities[a].roles
  }

  // ------------------------------------------------------ which decisions count

  /** What one evaluation holds fixed; `deadline` is the instant of the deadline, `aware` whether it
      has an offset. */
  datatype Case = Case(
    parse: Parse,
    context: string,
    requestedBy: string,
    deadline: int,
    aware: bool,
    policy: Policy,
    identities: map<string, Identity>)

  /** The three checks that come before a decision's own time is read. */
  predicate Admissible(c: Case, d: Decision) {
    && d.contextDigest == c.context
    && Eligible(d.approverId, c.policy, c.identities)
    && !(c.policy.separationOfDuties && d.approverId == c.requestedBy)
  }

  /** The instant of a decision that can be compared with the deadline. */
  function Decided(c: Case, d: Decision): Option<int> {
    var t :- c.parse(d.decidedAt);
    if Aware(t) == c.aware then Some(Instant(t)) else None
  }

  predicate Counts(c: Case, d: Decision) {
    Admissible(c, d) && Decided(c, d).Some? && Decided(c, d).value <= c.deadline
  }

  /** Comparing the time of an admissible decision with the deadline does not raise. */
  predicate Readable(c: Case, d: Decision) {
    Admissible(c, d) ==> Decided(c, d).Some?
  }

  function Counted(c: Case, ds: seq<Decision>): seq<Decision> {
    if ds == [] then []
    else
      var n := |ds| - 1;
      Counted(c, ds[..n]) + if Counts(c, ds[n]) then [ds[n]] else []
  }

  // ------------------------------------------------------- one voice an approver

  /** Decision `j` is superseded by decision `i`: its stamp is smaller, or equal and it came
      earlier in the list. */
  predicate Superseded(ds: seq<Decision>, j: nat, i: nat)
    requires j < |ds| && i < |ds|
  {
    StrLe(ds[j].decidedAt, ds[i].decidedAt) && (ds[j].decidedAt != ds[i].decidedAt || j < i)
  }

  /** Decision `i` is its approver's voice: it counts, and supersedes all of the approver's others
      that count. */
  ghost predicate Speaks(c: Case, ds: seq<Decision>, i: nat)
    requires i < |ds|
  {
    && Counts(c, ds[i])
    && forall j :: 0 <= j < |ds| && j != i && Counts(c, ds[j]) && ds[j].approverId == ds[i].approverId ==>
         Superseded(ds, j, i)
  }

  /** Let `d` speak for its approver unless a later stamp already does. */
  function Hear(latest: map<string, Decision>, d: Decision): map<string, Decision> {
    if d.approverId in latest && !StrLe(latest[d.approverId].decidedAt, d.decidedAt) then latest
    else latest[d.approverId := d]
  }

  function Latest(ds: seq<Decision>): map<string, Decision> {
    if ds == [] then map[] else Hear(Latest(ds[..|ds| - 1]), ds[|ds| - 1])
  }

  /** Each approver's one voice among the decisions that count. */
  function Voices(c: Case, ds: seq<Decision>): map<string, Decision> {
    Latest(Counted(c, ds))
  }

  lemma CountedSnoc(c: Case, ds: seq<Decision>, d: Decision)
    ensures Counted(c, ds + [d]) == if Counts(c, d) then Counted(c, ds) + [d] else Counted(c, ds)
    ensures Voices(c, ds + [d]) == if Counts(c, d) then Hear(Voices(c, ds), d) else Voices(c, ds)
  {
    hide Counts, Hear;
    assert (ds + [d])[..|ds|] == ds;
    assert (Counted(c, ds) + [d])[..|Counted(c, ds)|] == Counted(c, ds);
  }

  /** The dictionary maps an approver to the decision that speaks for it, and holds every approver
      with a decision that counts. */
  lemma {:induction false} VoicesSpeak(c: Case, ds: seq<Decision>)
    ensures forall a :: a in Voices(c, ds) ==>
              exists i :: 0 <= i < |ds| && ds[i] == Voices(c, ds)[a] && ds[i].approverId == a && Speaks(c, ds, i)
    ensures forall d :: d in ds && Counts(c, d) ==> d.approverId in Voices(c, ds)
  {
    hide StrLe, Counts, Voices, Speaks, Superseded;
    if ds == [] {
      NoneCounted(c);
    } else {
      var n := |ds| - 1;
      var init, d := ds[..n], ds[n];
      var latest := Voices(c, ds);
      VoicesSpeak(c, init);
      CountedSnoc(c, init, d);
      assert ds == init + [d];
      forall a | a in latest
        ensures exists i :: 0 <= i < |ds| && ds[i] == latest[a] && ds[i].approverId == a && Speaks(c, ds, i)
      {
        if a in Voices(c, init) {
          var i :| 0 <= i < |init| && init[i] == Voices(c, init)[a] && init[i].approverId == a && Speaks(c, init, i);
          if a == d.approverId && Counts(c, d) {
            SpeakerAgainst(c, ds, i);
          } else {
            SpeaksOn(c, ds, i);
          }
        } else {
          FirstToSpeak(c, ds);
        }
      }
    }
  }

  lemma NoneCounted(c: Case)
    ensures Voices(c, []) == map[]
  {
  }

  lemma FirstToSpeak(c: Case, ds: seq<Decision>)
    requires ds != [] && Counts(c, ds[|ds| - 1])
    requires forall d :: d in ds[..|ds| - 1] && Counts(c, d) ==> d.approverId != ds[|ds| - 1].approverId
    ensures Speaks(c, ds, |ds| - 1)
  {
    hide Counts, StrLe;
    var init := ds[..|ds| - 1];
    assert forall j :: 0 <= j < |init| ==> ds[j] == init[j] && init[j] in init;
  }

  lemma SpeaksOn(c: Case, ds: seq<Decision>, i: nat)
    requires i < |ds| - 1 && Speaks(c, ds[..|ds| - 1], i)
    requires ds[|ds| - 1].approverId != ds[i].approverId || !Counts(c, ds[|ds| - 1])
    ensures Speaks(c, ds, i)
  {
    hide StrLe, Counts;
    var init := ds[..|ds| - 1];
    forall j | 0 <= j < |ds| && j != i && Counts(c, ds[j]) && ds[j].approverId == ds[i].approverId
      ensures Superseded(ds, j, i)
    {
      assert Superseded(init, j, i);
    }
  }

  /** The voice so far against a new decision of the same approver. */
  lemma SpeakerAgainst(c: Case, ds: seq<Decision>, i: nat)
    requires i < |ds| - 1 && Speaks(c, ds[..|ds| - 1], i)
    requires ds[|ds| - 1].approverId == ds[i].approverId && Counts(c, ds[|ds| - 1])
    ensures Speaks(c, ds, if StrLe(ds[i].decidedAt, ds[|ds| - 1].decidedAt) then |ds| - 1 else i)
  {
    hide StrLe, Counts;
    var n := |ds| - 1;
    var init := ds[..n];
    var later := StrLe(ds[i].decidedAt, ds[n].decidedAt);
    StrLeTotal(ds[i].decidedAt, ds[n].decidedAt);
    var w := if later then n else i;
    forall j | 0 <= j < |ds| && j != w && Counts(c, ds[j]) && ds[j].approverId == ds[w].approverId
      ensures Superseded(ds, j, w)
    {
      if j != i && j != n {
        assert Superseded(init, j, i);
        if later {
          StrLeTransitive(ds[j].decidedAt, ds[i].decidedAt, ds[n].decidedAt);
        }
      }
    }
  }

  /** At most one decision speaks for an approver. */
  lemma OneVoice(c: Case, ds: seq<Decision>, i: nat, j: nat)
    requires i < |ds| && j < |ds| && ds[i].approverId == ds[j].approverId
    requires Speaks(c, ds, i) && Speaks(c, ds, j)
    ensures i == j
  {
    hide Counts;
    if i != j {
      assert Superseded(ds, i, j) && Superseded(ds, j, i);
      StrLeAntisymmetric(ds[i].decidedAt, ds[j].decidedAt);
    }
  }

  // ------------------------------------------------------------------- the status

  function Voters(latest: map<string, Decision>, verdict: string): set<string> {
    set a | a in latest && latest[a].verdict == verdict
  }

  /** The status from each approver's voice and the time. */
  function Judge(c: Case, latest: map<string, Decision>, now: int): PolicyResult {
    var rejecters, approvers := Voters(latest, REJECT), Voters(latest, APPROVE);
    if c.policy.rejectIsTerminal && rejecters != {} then PolicyResult(Rejected, SortedKeys(rejecters))
    else if |approvers| >= c.policy.threshold && RolesSatisfied(approvers, c.policy, c.identities) then
      PolicyResult(Approved, SortedKeys(approvers))
    else PolicyResult(if now > c.deadline then Expired else Pending, SortedKeys(approvers))
  }

  /** The earlier of the closing time and the creation time plus the policy's age limit; `None` is
      `ValueError`, `OverflowError` or `TypeError`. */
  function Deadline(parse: Parse, r: Request, policy: Policy): Option<DateTime> {
    var closes :- parse(r.notValidAfter);
    var created :- parse(r.createdAt);
    var aged :- Plus(created, policy.maxAgeSeconds * 1000000);
    var earlier :- Less(aged, closes);
    Some(if earlier then aged else closes)
  }

  /** The fixed part of an evaluation; `None` when the deadline cannot be told. */
  function CaseOf(H: Hash, parse: Parse, r: Request, policy: Policy, identities: map<string, Identity>): Option<Case> {
    var deadline :- Deadline(parse, r, policy);
    Some(Case(parse, ContextDigest(H, r), r.requestedBy, Instant(deadline), Aware(deadline), policy, identities))
  }

  /** The answer at a time; only when neither side has decided is the time compared with the
      deadline, and `None` is the `TypeError` of that. */
  function Conclude(c: Case, voices: map<string, Decision>, now: DateTime): Option<PolicyResult> {
    var r := Judge(c, voices, Instant(now));
    if (r.status.Pending? || r.status.Expired?) && Aware(now) != c.aware then None else Some(r)
  }

  /** What `evaluate` returns; `None` is an exception. */
  function Evaluate(H: Hash, parse: Parse, r: Request, ds: seq<Decision>, policy: Policy,
                    identities: map<string, Identity>, atTime: string): Option<PolicyResult> {
    var now :- parse(atTime);
    var c :- CaseOf(H, parse, r, policy, identities);
    if forall d :: d in ds ==> Readable(c, d) then Conclude(c, Voices(c, ds), now) else None
  }

  // ---------------------------------------------------- the engine as it is coded

  /** `d` after every element whose stamp is not greater: where a stable sort puts a later element. */
  function InsertStable(sorted: seq<Decision>, d: Decision): (r: seq<Decision>)
    ensures |r| == |sorted| + 1
  {
    if sorted == [] || StrLe(sorted[|sorted| - 1].decidedAt, d.decidedAt) then sorted + [d]
    else InsertStable(sorted[..|sorted| - 1], d) + [sorted[|sorted| - 1]]
  }

  /** `sorted(ds, key=lambda d: d.decided_at)` */
  function SortByStamp(ds: seq<Decision>): (r: seq<Decision>)
    ensures |r| == |ds|
  {
    if ds == [] then [] else InsertStable(SortByStamp(ds[..|ds| - 1]), ds[|ds| - 1])
  }

  ghost predicate StampSorted(ds: seq<Decision>) {
    forall i :: 0 < i < |ds| ==> StrLe(ds[i - 1].decidedAt, ds[i].decidedAt)
  }

  /** Overwriting a dictionary in list order: the last one in the list stays. */
  function Overwrite(ds: seq<Decision>): map<string, Decision> {
    if ds == [] then map[]
    else Overwrite(ds[..|ds| - 1])[ds[|ds| - 1].approverId := ds[|ds| - 1]]
  }

  lemma {:induction false} InsertKeepsSorted(s: seq<Decision>, d: Decision)
    requires StampSorted(s)
    ensures StampSorted(InsertStable(s, d))
    ensures InsertStable(s, d)[|s|] == (if s == [] || StrLe(s[|s| - 1].decidedAt, d.decidedAt) then d else s[|s| - 1])
  {
    hide StrLe;
    if s != [] {
      var n := |s| - 1;
      var last := s[n];
      StrLeTotal(last.decidedAt, d.decidedAt);
      if !StrLe(last.decidedAt, d.decidedAt) {
        assert StampSorted(s[..n]);
        InsertKeepsSorted(s[..n], d);
      }
    }
  }

  lemma {:induction false} LastIsGreatest(s: seq<Decision>, a: string)
    requires StampSorted(s) && a in Overwrite(s)
    ensures s != [] && StrLe(Overwrite(s)[a].decidedAt, s[|s| - 1].decidedAt)
  {
    hide StrLe;
    var n := |s| - 1;
    StrLeTotal(s[n].decidedAt, s[n].decidedAt);
    if a != s[n].approverId {
      assert StampSorted(s[..n]);
      LastIsGreatest(s[..n], a);
      StrLeTransitive(Overwrite(s[..n])[a].decidedAt, s[n - 1].decidedAt, s[n].decidedAt);
    }
  }

  lemma OverwriteSnoc(s: seq<Decision>, d: Decision)
    ensures Overwrite(s + [d]) == Overwrite(s)[d.approverId := d]
  {
    assert (s + [d])[..|s|] == s;
  }

  lemma HearLast(s: seq<Decision>, d: Decision)
    requires StampSorted(s) && (s == [] || StrLe(s[|s| - 1].decidedAt, d.decidedAt))
    ensures Hear(Overwrite(s), d) == Overwrite(s)[d.approverId := d]
  {
    hide StrLe, Overwrite;
    if d.approverId in Overwrite(s) {
      LastIsGreatest(s, d.approverId);
      StrLeTransitive(Overwrite(s)[d.approverId].decidedAt, s[|s| - 1].decidedAt, d.decidedAt);
    }
  }

  /** A decision heard before a strictly later one might as well be heard after it. */
  lemma HearEarlier(m: map<string, Decision>, last: Decision, d: Decision)
    requires !StrLe(last.decidedAt, d.decidedAt)
    ensures Hear(m, d)[last.approverId := last] == Hear(m[last.approverId := last], d)
  {
    hide StrLe;
  }

  /** Inserting one more decision into the sorted list lets it be heard. */
  lemma {:induction false} OverwriteInserted(s: seq<Decision>, d: Decision)
    requires StampSorted(s)
    ensures Overwrite(InsertStable(s, d)) == Hear(Overwrite(s), d)
  {
    hide StrLe, Overwrite, Hear;
    if s == [] || StrLe(s[|s| - 1].decidedAt, d.decidedAt) {
      OverwriteSnoc(s, d);
      HearLast(s, d);
    } else {
      var init, last := s[..|s| - 1], s[|s| - 1];
      assert s == init + [last];
      OverwriteInserted(init, d);
      OverwriteSnoc(InsertStable(init, d), last);
      OverwriteSnoc(init, last);
      HearEarlier(Overwrite(init), last, d);
    }
  }

  /** Sorting stably and overwriting leaves every approver's winner. */
  lemma {:induction false} SortAndOverwrite(ds: seq<Decision>)
    ensures StampSorted(SortByStamp(ds)) && Overwrite(SortByStamp(ds)) == Latest(ds)
  {
    hide StrLe, InsertStable, Hear;
    if ds != [] {
      var init := ds[..|ds| - 1];
      SortAndOverwrite(init);
      InsertKeepsSorted(SortByStamp(init), ds[|ds| - 1]);
      OverwriteInserted(SortByStamp(init), ds[|ds| - 1]);
    }
  }

  /** The filtering loop of the source: three tests, then the decision's time. */
  method Filter(c: Case, ds: seq<Decision>) returns (counted: Option<seq<Decision>>)
    ensures counted == if forall d :: d in ds ==> Readable(c, d) then Some(Counted(c, ds)) else None
  {
    var kept: seq<Decision> := [];
    for i := 0 to |ds|
      invariant forall j :: 0 <= j < i ==> Readable(c, ds[j])
      invariant kept == Counted(c, ds[..i])
    {
      var d := ds[i];
      assert ds[..i + 1][..i] == ds[..i] && ds[..i + 1][i] == d && d in ds;
      if d.contextDigest != c.context {
        continue;
      }
      if !Eligible(d.approverId, c.policy, c.identities) {
        continue;
      }
      if c.policy.separationOfDuties && d.approverId == c.requestedBy {
        continue;
      }
      var decided := Decided(c, d);
      if decided.None? {
        return None;
      }
      if decided.value > c.deadline {
        continue;
      }
      kept := kept + [d];
    }
    assert ds[..|ds|] == ds;
    return Some(kept);
  }

  /** One voice per approver: sort by stamp, then overwrite one dictionary in that order. */
  method OneVoiceEach(counted: seq<Decision>) returns (latest: map<string, Decision>)
    ensures latest == Latest(counted)
  {
    hide StrLe, SortByStamp, Latest;
    latest := map[];
    var sorted := SortByStamp(counted);
    for i := 0 to |sorted|
      invariant latest == Overwrite(sorted[..i])
    {
      assert sorted[..i + 1][..i] == sorted[..i];
      latest := latest[sorted[i].approverId := sorted[i]];
    }
    assert sorted[..|sorted|] == sorted;
    SortAndOverwrite(counted);
  }

  /** `evaluate`: filter, let each approver's last voice stand, then decide. */
  method RunEngine(H: Hash, parse: Parse, r: Request, ds: seq<Decision>, policy: Policy,
                   identities: map<string, Identity>, atTime: string) returns (result: Option<PolicyResult>)
    ensures result == Evaluate(H, parse, r, ds, policy, identities, atTime)
  {
    hide ContextDigest, Readable, Counted, Latest, Judge, Deadline;
    var now := parse(atTime);
    if now.None? {
      return None;
    }
    var c := CaseOf(H, parse, r, policy, identities);
    if c.None? {
      return None;
    }
    var counted := Filter(c.value, ds);
    if counted.None? {
      return None;
    }
    var latest := OneVoiceEach(counted.value);
    return Conclude(c.value, latest, now.value);
  }
}
