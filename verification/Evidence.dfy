/**
 The Builder's evidence store: candidates, verifications, reviews and approvals bound to exact commit SHAs, and
 the operations that add, refresh and invalidate them. Each operation is one step; GitHub, hooks,
 reviewer and the run/task gates are inputs. `lastSha` remembers what was registered last per task.
 */
module Evidence {
  import opened Wrappers

  type Id = nat
  type Sha = string
  type TaskId = string

  datatype CandidateStatus = Proposed | Verifying | IsVerified | Rejected | Superseded

  /** ci_status and ci_conclusion; the empty string stands for null. */
  datatype Ci = Ci(status: string, conclusion: string)

  const CI_SUCCESS: Ci := Ci("completed", "success")

  datatype Candidate = Candidate(
    task: TaskId, sha: Sha, branch: string, pr: Option<int>, url: string, ci: Ci,
    status: CandidateStatus, verification: Option<Id>, review: Option<Id>)

  /** The landing fields a snapshot records; a PR number that is not a number is None. */
  datatype Snapshot = Snapshot(sha: Sha, branch: string, pr: Option<int>, ci: Ci)

  /** A verification check; `snapshot` is what parsing its detail yields. */
  datatype Check = Check(name: string, ok: Option<bool>, authoritative: bool, snapshot: Option<Snapshot>)

  datatype VerificationResult = Pass | Fail | Blocked

  datatype VerificationRow = VerificationRow(candidate: Id, sha: Sha, result: VerificationResult, checks: seq<Check>, invalidated: bool)

  datatype ReviewStatus = ReviewPass | RequestChanges | ReviewBlocked

  datatype ReviewRow = ReviewRow(candidate: Id, sha: Sha, status: ReviewStatus, bound: Option<Id>, invalidated: bool)

  datatype ApprovalStatus = ApprovalPending | ApprovalApproved | ApprovalRejected | ApprovalInvalidated | ApprovalConsumed

  datatype ApprovalRow = ApprovalRow(task: TaskId, candidate: Option<Id>, status: ApprovalStatus)

  datatype Store = Store(
    candidates: map<Id, Candidate>, verifications: map<Id, VerificationRow>, reviews: map<Id, ReviewRow>,
    approvals: map<Id, ApprovalRow>, next: Id, lastSha: map<TaskId, Sha>)

  const EMPTY: Store := Store(map[], map[], map[], map[], 0, map[])

  const SNAPSHOT_NAME := "landing_evidence_snapshot"

  // ----- authority -----

  /** Number(x) of a nullable PR number. */
  function PrNumber(pr: Option<int>): int {
    if pr.Some? then pr.value else 0
  }

  /** The first check carrying the snapshot's name, parsed. */
  function SnapshotOf(checks: seq<Check>): Option<Snapshot> {
    if checks == [] then None
    else if checks[0].name == SNAPSHOT_NAME then checks[0].snapshot
    else SnapshotOf(checks[1..])
  }

  predicate SnapshotMatches(s: Snapshot, c: Candidate) {
    && s.sha == c.sha && s.branch == c.branch
    && s.pr == Some(PrNumber(c.pr)) && s.ci == c.ci
  }

  predicate VerificationAuthoritative(st: Store, v: Id) {
    && v in st.verifications && !st.verifications[v].invalidated && st.verifications[v].result.Pass?
    && st.verifications[v].candidate in st.candidates
    && var c := st.candidates[st.verifications[v].candidate];
    && c.status.IsVerified? && c.verification == Some(v) && c.sha == st.verifications[v].sha
    && SnapshotOf(st.verifications[v].checks).Some?
    && SnapshotMatches(SnapshotOf(st.verifications[v].checks).value, c)
  }

  predicate ReviewAuthoritative(st: Store, r: Id) {
    && r in st.reviews && !st.reviews[r].invalidated && st.reviews[r].status.ReviewPass?
    && st.reviews[r].candidate in st.candidates
    && var c := st.candidates[st.reviews[r].candidate];
    && c.status.IsVerified? && c.review == Some(r) && c.sha == st.reviews[r].sha
    && c.verification.Some? && st.reviews[r].bound == c.verification
    && VerificationAuthoritative(st, c.verification.value)
  }

  // ----- invalidation -----

  function VoidVerification(vs: map<Id, VerificationRow>, v: Option<Id>): map<Id, VerificationRow> {
    if v.Some? && v.value in vs then vs[v.value := vs[v.value].(invalidated := true)] else vs
  }

  function VoidReview(rs: map<Id, ReviewRow>, r: Option<Id>): map<Id, ReviewRow> {
    if r.Some? && r.value in rs then rs[r.value := rs[r.value].(invalidated := true)] else rs
  }

  function VoidVerificationsOf(vs: map<Id, VerificationRow>, c: Id): map<Id, VerificationRow> {
    map v | v in vs :: if vs[v].candidate == c then vs[v].(invalidated := true) else vs[v]
  }

  function VoidReviewsOf(rs: map<Id, ReviewRow>, c: Id): map<Id, ReviewRow> {
    map r | r in rs :: if rs[r].candidate == c then rs[r].(invalidated := true) else rs[r]
  }

  // ----- registration -----

  datatype Landing = Landing(pr: Option<int>, url: string, ci: Ci)

  /** The candidates a registration of `sha` supersedes. */
  function Outdated(cs: map<Id, Candidate>, task: TaskId, sha: Sha): set<Id> {
    set c | c in cs && cs[c].task == task && cs[c].sha != sha && !cs[c].status.Superseded?
  }

  function Supersede(cs: map<Id, Candidate>, which: set<Id>): map<Id, Candidate> {
    map c | c in cs :: if c in which then cs[c].(status := Superseded) else cs[c]
  }

  /** The verifications (reviews) the candidates of `which` refer to. */
  function VerificationRefs(cs: map<Id, Candidate>, which: set<Id>): set<Id> {
    set c | c in which && c in cs && cs[c].verification.Some? :: cs[c].verification.value
  }

  function ReviewRefs(cs: map<Id, Candidate>, which: set<Id>): set<Id> {
    set c | c in which && c in cs && cs[c].review.Some? :: cs[c].review.value
  }

  function VoidVerifications(vs: map<Id, VerificationRow>, ids: set<Id>): map<Id, VerificationRow> {
    map v | v in vs :: if v in ids then vs[v].(invalidated := true) else vs[v]
  }

  function VoidReviews(rs: map<Id, ReviewRow>, ids: set<Id>): map<Id, ReviewRow> {
    map r | r in rs :: if r in ids then rs[r].(invalidated := true) else rs[r]
  }

  /** The task's APPROVED approvals of the candidates in `which` are invalidated. */
  function VoidApprovals(aps: map<Id, ApprovalRow>, task: TaskId, which: set<Id>): map<Id, ApprovalRow> {
    map a | a in aps :: if Approves(aps[a], task, which) then aps[a].(status := ApprovalInvalidated) else aps[a]
  }

  predicate Approves(ap: ApprovalRow, task: TaskId, which: set<Id>) {
    ap.task == task && ap.status.ApprovalApproved? && ap.candidate.Some? && ap.candidate.value in which
  }

  function Register(st: Store, task: TaskId, sha: Sha, branch: string, landing: Landing): Store {
    var gone := Outdated(st.candidates, task, sha);
    var c := Candidate(task, sha, branch, landing.pr, landing.url, landing.ci, Proposed, None, None);
    Store(Supersede(st.candidates, gone)[st.next := c],
          VoidVerifications(st.verifications, VerificationRefs(st.candidates, gone)),
          VoidReviews(st.reviews, ReviewRefs(st.candidates, gone)),
          VoidApprovals(st.approvals, task, gone),
          st.next + 1, st.lastSha[task := sha])
  }

  /** invalidateTaskEvidence: the whole task is superseded and everything about it voided. */
  function InvalidateTask(st: Store, task: TaskId): Store {
    var cs := set c | c in st.candidates && st.candidates[c].task == task;
    st.(candidates := Supersede(st.candidates, cs),
        verifications := map v | v in st.verifications ::
          if st.verifications[v].candidate in cs then st.verifications[v].(invalidated := true) else st.verifications[v],
        reviews := map r | r in st.reviews ::
          if st.reviews[r].candidate in cs then st.reviews[r].(invalidated := true) else st.reviews[r])
  }

  // ----- landing evidence -----

  function SetLanding(c: Candidate, l: Landing): Candidate {
    c.(pr := l.pr, url := l.url, ci := l.ci)
  }

  /** refreshCandidateLanding once GitHub confirmed commit, PR head and branch. */
  function Refresh(st: Store, id: Id, l: Landing): Store {
    if id !in st.candidates then st
    else
      var c := st.candidates[id];
      var changed := PrNumber(c.pr) != PrNumber(l.pr) || c.url != l.url || c.ci != l.ci;
      if changed && c.verification.Some? then
        var status := if c.status.IsVerified? then Proposed else c.status;
        st.(candidates := st.candidates[id := SetLanding(c, l).(status := status, verification := None, review := None)],
            verifications := VoidVerification(st.verifications, c.verification),
            reviews := VoidReview(st.reviews, c.review))
      else st.(candidates := st.candidates[id := SetLanding(c, l)])
  }

  /** A poll of the CI wait whose PR matched: the landing fields are overwritten, nothing is voided. */
  function Observe(st: Store, id: Id, l: Landing): Store {
    if id !in st.candidates then st
    else st.(candidates := st.candidates[id := SetLanding(st.candidates[id], l)])
  }

  /** A poll of the CI wait that met another branch or head. */
  function ObserveMismatch(st: Store, id: Id): Store {
    if id !in st.candidates then st
    else st.(verifications := VoidVerification(st.verifications, st.candidates[id].verification),
             reviews := VoidReview(st.reviews, st.candidates[id].review))
  }

  // ----- verification -----

  /** A test or build hook: the name and verdict it returns, and what its output parses to. */
  datatype Hook = Hook(name: string, ok: bool, output: Option<Snapshot>)

  datatype Github = NoClient | Unavailable | HardMismatch | Landed(landing: Landing)

  function HookChecks(hooks: seq<Hook>): (cs: seq<Check>)
    ensures |cs| == |hooks|
    ensures forall i | 0 <= i < |cs| :: cs[i] == Check(hooks[i].name, Some(hooks[i].ok), true, hooks[i].output)
  {
    seq(|hooks|, i requires 0 <= i < |hooks| => Check(hooks[i].name, Some(hooks[i].ok), true, hooks[i].output))
  }

  function CiOk(ci: Ci): Option<bool> {
    if ci == CI_SUCCESS then Some(true) else if ci.conclusion == "failure" then Some(false) else None
  }

  function GithubChecks(g: Github): seq<Check> {
    match g
    case Landed(l) => [Check("github_landing", Some(true), true, None), Check("github_ci", CiOk(l.ci), true, None)]
    case HardMismatch => [Check("github_landing", Some(false), true, None), Check("github_ci", None, true, None)]
    case _ => [Check("github_landing", None, true, None), Check("github_ci", None, true, None)]
  }

  function ClaimChecks(claim: bool): seq<Check> {
    if claim then [Check("worker_self_certification", None, false, None)] else []
  }

  predicate SomeCheck(cs: seq<Check>, name: string, ok: Option<bool>) {
    exists i | 0 <= i < |cs| :: cs[i].authoritative && cs[i].name == name && cs[i].ok == ok
  }

  predicate AnyCheck(cs: seq<Check>, ok: Option<bool>) {
    exists i | 0 <= i < |cs| :: cs[i].authoritative && cs[i].ok == ok
  }

  function Judge(cs: seq<Check>): VerificationResult {
    if AnyCheck(cs, Some(false)) then Fail
    else if !SomeCheck(cs, "github_landing", Some(true)) || !SomeCheck(cs, "github_ci", Some(true)) || AnyCheck(cs, None) then Blocked
    else if !AnyCheck(cs, Some(true)) then Blocked
    else Pass
  }

  function TakenSnapshot(c: Candidate, l: Landing): Snapshot {
    Snapshot(c.sha, c.branch, Some(PrNumber(l.pr)), l.ci)
  }

  predicate Eligible(st: Store, id: Id) {
    id in st.candidates && !st.candidates[id].status.Superseded? && !st.candidates[id].status.Rejected?
  }

  function StatusAfter(result: VerificationResult): CandidateStatus {
    match result
    case Pass => IsVerified
    case Fail => Rejected
    case Blocked => Verifying
  }

  function VerificationChecks(c: Candidate, hooks: seq<Hook>, claim: bool, g: Github): seq<Check> {
    var cs := ClaimChecks(claim) + HookChecks(hooks) + GithubChecks(g);
    if g.Landed? then cs + [Check(SNAPSHOT_NAME, Some(Judge(cs).Pass?), false, Some(TakenSnapshot(c, g.landing)))] else cs
  }

  /** verifyExactCandidate past its gates. */
  function Verify(st: Store, id: Id, hooks: seq<Hook>, claim: bool, g: Github): Store {
    if !Eligible(st, id) then st
    else
      var c := st.candidates[id];
      var landed := if g.Landed? then SetLanding(c, g.landing) else c;
      var result := Judge(ClaimChecks(claim) + HookChecks(hooks) + GithubChecks(g));
      Store(st.candidates[id := landed.(status := StatusAfter(result), verification := Some(st.next), review := None)],
            VoidVerificationsOf(st.verifications, id)
              [st.next := VerificationRow(id, c.sha, result, VerificationChecks(c, hooks, claim, g), false)],
            VoidReviewsOf(st.reviews, id),
            st.approvals, st.next + 1, st.lastSha)
  }

  /** verifyExactCandidate when a hook throws: the earlier rows are already voided, no new one is written. */
  function AbortVerify(st: Store, id: Id): Store {
    if !Eligible(st, id) then st
    else st.(candidates := st.candidates[id := st.candidates[id].(review := None)],
             verifications := VoidVerificationsOf(st.verifications, id),
             reviews := VoidReviewsOf(st.reviews, id))
  }

  // ----- review -----

  /** What the reviewer side yields: nothing usable, or a parsed verdict. */
  datatype ReviewAnswer = NoAnswer | Verdict(status: ReviewStatus)

  function ReviewFor(required: bool, answer: ReviewAnswer, id: Id, sha: Sha, v: Id): ReviewRow {
    if !required then ReviewRow(id, sha, ReviewPass, Some(v), false)
    else if answer.NoAnswer? then ReviewRow(id, sha, ReviewBlocked, None, false)
    else ReviewRow(id, sha, answer.status, Some(v), false)
  }

  /** The candidate's stored verification is authoritative and about this candidate. */
  predicate Reviewable(st: Store, id: Id) {
    && id in st.candidates && st.candidates[id].verification.Some?
    && var v := st.candidates[id].verification.value;
    && VerificationAuthoritative(st, v) && st.verifications[v].candidate == id
  }

  /** reviewExactCandidate past its gates. */
  function Review(st: Store, id: Id, required: bool, answer: ReviewAnswer): Store {
    if !Reviewable(st, id) then st
    else
      var c := st.candidates[id];
      var row := ReviewFor(required, answer, id, c.sha, c.verification.value);
      var status := if row.status.RequestChanges? then Rejected else c.status;
      st.(candidates := st.candidates[id := c.(review := Some(st.next), status := status)],
          reviews := st.reviews[st.next := row], next := st.next + 1)
  }

  // ----- approval -----

  /** recordApproval: any candidate id is taken, live or not. */
  function Approve(st: Store, task: TaskId, candidate: Option<Id>, status: ApprovalStatus): Store {
    st.(approvals := st.approvals[st.next := ApprovalRow(task, candidate, status)], next := st.next + 1)
  }

  // ----- runs -----

  datatype Op =
    | DoRegister(task: TaskId, sha: Sha, branch: string, landing: Landing)
    | DoRefresh(id: Id, landing: Landing)
    | DoObserve(id: Id, landing: Landing)
    | DoMismatch(id: Id)
    | DoVerify(id: Id, hooks: seq<Hook>, claim: bool, github: Github)
    | DoAbortVerify(id: Id)
    | DoApprove(task: TaskId, candidate: Option<Id>, approval: ApprovalStatus)
    | DoReview(id: Id, required: bool, answer: ReviewAnswer)
    | DoVoidVerification(id: Id)
    | DoVoidReview(id: Id)
    | DoInvalidateTask(task: TaskId)

  function Apply(st: Store, op: Op): Store {
    match op
    case DoRegister(t, sha, branch, l) => Register(st, t, sha, branch, l)
    case DoRefresh(id, l) => Refresh(st, id, l)
    case DoObserve(id, l) => Observe(st, id, l)
    case DoMismatch(id) => ObserveMismatch(st, id)
    case DoVerify(id, hooks, claim, g) => Verify(st, id, hooks, claim, g)
    case DoAbortVerify(id) => AbortVerify(st, id)
    case DoApprove(t, c, status) => Approve(st, t, c, status)
    case DoReview(id, required, answer) => Review(st, id, required, answer)
    case DoVoidVerification(v) => st.(verifications := VoidVerification(st.verifications, Some(v)))
    case DoVoidReview(r) => st.(reviews := VoidReview(st.reviews, Some(r)))
    case DoInvalidateTask(t) => InvalidateTask(st, t)
  }

  function Run(st: Store, ops: seq<Op>): Store
    decreases |ops|
  {
    if ops == [] then st else Apply(Run(st, ops[..|ops| - 1]), ops[|ops| - 1])
  }
}
