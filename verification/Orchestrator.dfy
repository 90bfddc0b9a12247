/**
 One owner task through launch, landing, CI wait, verification, review and bounded repair, over the
 evidence store and the task's runs. Worker, GitHub, hooks, reviewer and clock are inputs per attempt.
 */
module Orchestrator {
  import opened Wrappers
  import opened Evidence
  import opened EvidenceStore
  import opened EvidenceGuarantees
  import B = BuilderRuns
  import C = CiWait

  // ----- gates -----

  datatype Gate = Gate(ok: bool, status: VerificationResult)

  function EvaluateReviewGate(required: bool, ver: Option<VerificationRow>, review: Option<ReviewRow>): Gate {
    if ver.None? || ver.value.invalidated then Gate(false, Blocked)
    else if !ver.value.result.Pass? then Gate(false, ver.value.result)
    else if !required then Gate(true, Pass)
    else if review.None? || review.value.invalidated then Gate(false, Blocked)
    else if review.value.sha != ver.value.sha then Gate(false, Blocked)
    else if review.value.candidate != ver.value.candidate then Gate(false, Blocked)
    else match review.value.status
      case ReviewPass => Gate(true, Pass)
      case RequestChanges => Gate(false, Fail)
      case ReviewBlocked => Gate(false, Blocked)
  }

  /** The gate opens exactly for a live PASS verification that, when review is required, has a live PASS review of
      the same candidate and SHA; it says FAIL for a failed verification or requested changes, else BLOCKED. */
  lemma GateMeans(required: bool, ver: Option<VerificationRow>, review: Option<ReviewRow>)
    ensures var gate := EvaluateReviewGate(required, ver, review);
      var passed := ver.Some? && !ver.value.invalidated && ver.value.result.Pass?;
      var own := review.Some? && !review.value.invalidated && ver.Some? && review.value.sha == ver.value.sha && review.value.candidate == ver.value.candidate;
      && (gate.ok <==> passed && (required ==> own && review.value.status.ReviewPass?)) && (gate.status.Pass? <==> gate.ok)
      && (gate.status.Fail? <==>
            || (ver.Some? && !ver.value.invalidated && ver.value.result.Fail?)
            || (passed && required && own && review.value.status.RequestChanges?))
  {
  }

  datatype Decision = Done | Retry | DecidedBlocked

  function DecideAfterGates(required: bool, result: VerificationResult, review: Option<ReviewRow>, gate: Gate): Decision {
    match result
    case Fail => Retry
    case Blocked => DecidedBlocked
    case Pass =>
      if required && !gate.ok then
        if review.Some? && review.value.status.RequestChanges? then Retry else DecidedBlocked
      else Done
  }

  // ----- inputs -----

  /** One pass of the rebind loop: whether recording the candidate is refused, what the landing refresh
      found (None: it threw), and the polls and the clock of the CI wait. */
  datatype Bind = Bind(refused: bool, refreshed: Option<Landing>, polls: nat -> C.Poll, start: int, delay: nat -> nat)

  datatype Landed = NoLanding | LandedAt(sha: Sha, branch: string, landing: Landing)

  datatype Attempt = Attempt(
    launch: B.Launch, waitTimedOut: bool, workerStatus: B.ProviderStatus, retryable: bool, collectThrows: bool,
    collected: B.ProviderStatus, landed: Landed, client: bool, binds: nat -> Bind, ciPollMs: int, ciTimeoutMs: int, hooks: seq<Hook>,
    hookThrows: bool, github: Github,
    invoker: bool, answer: ReviewAnswer, now: int)

  const MAX_REBINDS := 2

  /** What the verifier learns from GitHub; nothing without a client. */
  function Seen(a: Attempt): Github {
    if a.client then a.github else NoClient
  }

  /** Candidate `id` was just verified as row `v` with `result`, and nothing has happened since. */
  ghost predicate JustVerified(st: Store, id: Id, v: Id, result: VerificationResult, a: Attempt) {
    && id in st.candidates && v in st.verifications
    && st.candidates[id].verification == Some(v) && st.candidates[id].status == StatusAfter(result)
    && st.verifications[v].candidate == id && st.verifications[v].sha == st.candidates[id].sha
    && st.verifications[v].result == result && !st.verifications[v].invalidated
    && st.verifications[v].checks == VerificationChecks(st.candidates[id], a.hooks, false, Seen(a))
    && (result.Pass? <==> Passes(a)) && (result.Fail? <==> Fails(a))
    && (Seen(a).Landed? ==> st.candidates[id].pr == Seen(a).landing.pr && st.candidates[id].ci == Seen(a).landing.ci)
  }

  lemma VerifyGives(st: Store, id: Id, a: Attempt)
    requires Eligible(st, id)
    ensures var st' := Verify(st, id, a.hooks, false, Seen(a));
      && JustVerified(st', id, st.next, st'.verifications[st.next].result, a)
      && st'.candidates[id].sha == st.candidates[id].sha
  {
    PassExactlyWhen(a.hooks, false, Seen(a));
    FailExactlyWhen(a.hooks, false, Seen(a));
  }

  /** Landing refresh and CI wait never supersede or reject the candidate, nor touch its SHA. */
  predicate StillEligible(st: Store, id: Id, sha: Sha) {
    Eligible(st, id) && st.candidates[id].sha == sha
  }

  ghost predicate OwnOps(ops: seq<Op>, id: Id) {
    forall i | 0 <= i < |ops| :: (ops[i].DoObserve? || ops[i].DoMismatch?) && ops[i].id == id
  }

  /** Neither the landing refresh nor the CI wait supersedes, rejects or rebinds the candidate. */
  lemma {:induction false} WaitKeeps(st: Store, id: Id, ops: seq<Op>, sha: Sha)
    requires StillEligible(st, id, sha) && OwnOps(ops, id)
    ensures StillEligible(Run(st, ops), id, sha)
    decreases |ops|
  {
    if ops != [] { WaitKeeps(st, id, ops[..|ops| - 1], sha); }
  }

  /** The polls of a bind as the wait sees them: GitHub's answers about the candidate as it is stored. */
  function Readings(polls: nat -> C.Poll, sha: Sha, branch: string): nat -> C.Poll {
    (n: nat) => polls(n).(sha := sha, branch := branch)
  }

  method ApplyOps(reg: Registry, id: Id, ops: seq<Op>)
    requires OwnOps(ops, id)
    modifies reg
    ensures reg.Snap() == Run(old(reg.Snap()), ops)
  {
    ghost var st := reg.Snap();
    for i := 0 to |ops|
      invariant reg.Snap() == Run(st, ops[..i])
    {
      assert ops[..i + 1][..i] == ops[..i];
      if ops[i].DoObserve? {
        reg.ObserveCi(id, ops[i].landing);
      } else {
        reg.MismatchCi(id);
      }
    }
    assert ops[..|ops|] == ops;
  }

  /** The landing refresh and the CI wait of one bind. None: something threw. Otherwise the wait ended as
      CiWait says, and the store holds what the refresh and the polls wrote. */
  method WaitForCi(reg: Registry, id: Id, sha: Sha, branch: string, a: Attempt, b: Bind)
    returns (outcome: Option<C.Outcome>, head: Sha, polls: nat)
    requires StillEligible(reg.Snap(), id, sha) && reg.candidates[id].branch == branch
    modifies reg
    ensures StillEligible(reg.Snap(), id, sha)
    ensures outcome.None? ==>
      || b.refreshed.None? || a.ciPollMs < 1 || a.ciTimeoutMs < 1 || branch == "" || b.refreshed.value.pr.None?
      || C.EndsWith(Readings(b.polls, sha, branch), sha, C.ThrewShaMismatch, polls)
    ensures outcome.Some? ==> !outcome.value.ThrewShaMismatch? && !outcome.value.ThrewInvalid?
    ensures outcome.Some? && outcome.value.HeadChanged? ==> polls > 0
    ensures outcome.None? || C.EndsWith(Readings(b.polls, sha, branch), sha, outcome.value, polls)
    ensures polls > 0 ==> (polls - 1) * a.ciPollMs < a.ciTimeoutMs
    ensures outcome.Some? && outcome.value.HeadChanged? ==> head == b.polls(polls - 1).prHead && head != sha
    ensures b.refreshed.Some? || (outcome.None? && reg.Snap() == old(reg.Snap()))
    ensures b.refreshed.None? ||
      reg.Snap() == Run(Refresh(old(reg.Snap()), id, b.refreshed.value), C.Gather(C.OpsOf(Readings(b.polls, sha, branch), sha, id), polls))
  {
    outcome, head, polls := None, "", 0;
    if b.refreshed.None? {
      return;
    }
    reg.RefreshCandidateLanding(id, b.refreshed.value);
    var seen := Readings(b.polls, sha, branch);
    var ended, ops;
    ended, head, polls, ops := C.WaitForExactCandidateCi(id, reg.candidates[id], a.ciPollMs, a.ciTimeoutMs, b.start, b.delay, seen);
    C.OpsAreItsOwn(seen, sha, id, polls);
    WaitKeeps(reg.Snap(), id, ops, sha);
    ApplyOps(reg, id, ops);
    if !ended.ThrewInvalid? && !ended.ThrewShaMismatch? {
      outcome := Some(ended);
    }
  }

  /** One registration of an attempt: the SHA it bound and how its CI wait ended. */
  datatype Bound = Bound(sha: Sha, outcome: C.Outcome, polls: nat)

  /** The wait of the i-th registration ended as CiWait says, within its poll budget. */
  ghost predicate Waited(a: Attempt, i: nat, b: Bound, branch: string) {
    C.EndsWith(Readings(a.binds(i).polls, b.sha, branch), b.sha, b.outcome, b.polls)
    && (b.polls > 0 ==> (b.polls - 1) * a.ciPollMs < a.ciTimeoutMs)
    && (b.polls > 0 && b.outcome in {C.Success, C.Failure, C.UnknownCi, C.HeadChanged, C.PrMismatch} ==>
          var p := a.binds(i).polls(b.polls - 1);
          && p.commit == b.sha && (b.outcome.PrMismatch? <==> p.prRef != branch)
          && (!b.outcome.PrMismatch? ==> (b.outcome.HeadChanged? <==> p.prHead != b.sha)))
  }

  lemma LastPollMeans(polls: nat -> C.Poll, sha: Sha, branch: string, outcome: C.Outcome, n: nat)
    requires n > 0 && outcome in {C.Success, C.Failure, C.UnknownCi, C.HeadChanged, C.PrMismatch}
    requires C.EndsWith(Readings(polls, sha, branch), sha, outcome, n)
    ensures var p := polls(n - 1);
      && p.commit == sha && (outcome.PrMismatch? <==> p.prRef != branch)
      && (!outcome.PrMismatch? ==> (outcome.HeadChanged? <==> p.prHead != sha))
  {
    C.EndingsMean(Readings(polls, sha, branch)(n - 1), sha);
    C.SuccessExactlyWhenLanded(Readings(polls, sha, branch)(n - 1), sha);
  }

  /** That wait ended on a changed head, and `sha` is the head its last poll saw. */
  ghost predicate MovedTo(a: Attempt, i: nat, b: Bound, sha: Sha) {
    b.outcome.HeadChanged? && b.polls > 0 && sha == a.binds(i).polls(b.polls - 1).prHead && sha != "" && sha != b.sha
  }

  /** The registrations of an attempt: at most three; the first binds the worker's SHA, and each further one
      follows a wait that ended on a changed head and binds that head. */
  ghost predicate Rebinds(a: Attempt, bounds: seq<Bound>) {
    && |bounds| <= MAX_REBINDS + 1 && (bounds != [] ==> a.landed.LandedAt? && bounds[0].sha == a.landed.sha)
    && (!a.client ==> |bounds| <= 1)
    && (forall i | 0 <= i < |bounds| && a.client :: Waited(a, i, bounds[i], a.landed.branch))
    && (forall i | 0 <= i < |bounds| - 1 :: MovedTo(a, i, bounds[i], bounds[i + 1].sha))
  }

  lemma OneMoreBound(a: Attempt, bounds: seq<Bound>, b: Bound)
    requires Rebinds(a, bounds) && |bounds| <= MAX_REBINDS && a.client && a.landed.LandedAt?
    requires Waited(a, |bounds|, b, a.landed.branch)
    requires if bounds == [] then b.sha == a.landed.sha else MovedTo(a, |bounds| - 1, bounds[|bounds| - 1], b.sha)
    ensures Rebinds(a, bounds + [b])
  {
  }

  /** Register and wait for CI. None: something threw. */
  method BindOnce(reg: Registry, task: TaskId, a: Attempt, i: nat, sha: Sha) returns (id: Id, bound: Option<Bound>, head: Sha)
    requires a.landed.LandedAt? && a.client
    modifies reg
    ensures StillEligible(reg.Snap(), id, sha)
    ensures bound.Some? ==> bound.value.sha == sha && Waited(a, i, bound.value, a.landed.branch)
    ensures bound.None? ==> WaitThrows(a, i, sha)
    ensures bound.Some? && bound.value.outcome.HeadChanged? ==> bound.value.polls > 0 && head == a.binds(i).polls(bound.value.polls - 1).prHead
    ensures bound.Some? && bound.value.outcome.HeadChanged? && head != "" ==> MovedTo(a, i, bound.value, head)
  {
    id := reg.RegisterExactCandidate(task, sha, a.landed.branch, a.landed.landing);
    var outcome, polls;
    outcome, head, polls := WaitForCi(reg, id, sha, a.landed.branch, a, a.binds(i));
    bound := if outcome.None? then None else Some(Bound(sha, outcome.value, polls));
    if bound.Some? && polls > 0 && outcome.value in {C.Success, C.Failure, C.UnknownCi, C.HeadChanged, C.PrMismatch} {
      LastPollMeans(a.binds(i).polls, sha, a.landed.branch, outcome.value, polls);
    }
  }

  /** Why no candidate is bound: recording is refused, refresh or wait throw, the pull request shows another
      branch, or a third head changed, or one without a SHA. */
  ghost predicate GivesUp(a: Attempt, bounds: seq<Bound>)
    requires a.landed.LandedAt?
  {
    var n := |bounds|;
    || (n <= MAX_REBINDS && a.binds(n).refused)
    || (n <= MAX_REBINDS && exists sha: Sha :: WaitThrows(a, n, sha))
    || (n > 0 && bounds[n - 1].outcome.PrMismatch?)
    || (n > 0 && bounds[n - 1].outcome.HeadChanged? && bounds[n - 1].polls > 0
        && (n > MAX_REBINDS || a.binds(n - 1).polls(bounds[n - 1].polls - 1).prHead == ""))
  }

  /** The landing refresh or the CI wait of the i-th registration throws. */
  ghost predicate WaitThrows(a: Attempt, i: nat, sha: Sha)
    requires a.landed.LandedAt?
  {
    var b := a.binds(i);
    || b.refreshed.None? || a.ciPollMs < 1 || a.ciTimeoutMs < 1 || a.landed.branch == "" || b.refreshed.value.pr.None?
    || exists polls: nat :: C.EndsWith(Readings(b.polls, sha, a.landed.branch), sha, C.ThrewShaMismatch, polls)
  }

  /** The rebind loop. */
  method BindCandidate(reg: Registry, task: TaskId, a: Attempt) returns (ok: bool, id: Id, bounds: seq<Bound>)
    requires a.landed.LandedAt? && a.client
    modifies reg
    ensures Rebinds(a, bounds)
    ensures ok ==> bounds != [] && StillEligible(reg.Snap(), id, bounds[|bounds| - 1].sha)
    ensures ok ==> !bounds[|bounds| - 1].outcome.HeadChanged? && !bounds[|bounds| - 1].outcome.PrMismatch?
    ensures !ok ==> GivesUp(a, bounds)
  {
    ok, id, bounds := false, 0, [];
    var sha := a.landed.sha;
    for rebind := 0 to MAX_REBINDS + 1
      invariant |bounds| == rebind && Rebinds(a, bounds)
      invariant rebind == 0 ==> sha == a.landed.sha
      invariant rebind > 0 ==> MovedTo(a, rebind - 1, bounds[rebind - 1], sha)
    {
      if a.binds(rebind).refused {
        return;
      }
      var bound, head;
      id, bound, head := BindOnce(reg, task, a, rebind, sha);
      if bound.None? {
        return;
      }
      OneMoreBound(a, bounds, bound.value);
      bounds := bounds + [bound.value];
      if bound.value.outcome.PrMismatch? {
        return;
      }
      if !bound.value.outcome.HeadChanged? {
        ok := true;
        return;
      }
      if head == "" || rebind >= MAX_REBINDS {
        return;
      }
      sha := head;
    }
  }

  /** `sha` is what the attempt bound last, after a CI wait that met neither a new head nor another branch. */
  ghost predicate SettledOn(a: Attempt, sha: Sha) {
    exists bounds: seq<Bound> :: Rebinds(a, bounds) && bounds != [] && bounds[|bounds| - 1].sha == sha
      && (a.client ==> !bounds[|bounds| - 1].outcome.HeadChanged? && !bounds[|bounds| - 1].outcome.PrMismatch?)
  }

  /** registerAndVerify: at most three registrations, then the last registered candidate is verified. */
  method RegisterAndVerify(reg: Registry, task: TaskId, a: Attempt)
    returns (ok: bool, id: Id, v: Id, result: VerificationResult, bounds: seq<Bound>)
    modifies reg
    ensures Rebinds(a, bounds)
    ensures ok ==> bounds != [] && JustVerified(reg.Snap(), id, v, result, a)
    ensures ok ==> reg.candidates[id].sha == bounds[|bounds| - 1].sha
    ensures ok && a.client ==> !bounds[|bounds| - 1].outcome.HeadChanged? && !bounds[|bounds| - 1].outcome.PrMismatch?
    ensures ok ==> !a.hookThrows && a.landed.LandedAt?
    ensures !ok && !a.client ==> a.landed.NoLanding? || a.binds(0).refused || a.hookThrows
    ensures !ok && a.client && !a.hookThrows && a.landed.LandedAt? ==> GivesUp(a, bounds)
  {
    ok, id, v, result, bounds := false, 0, 0, Blocked, [];
    if a.landed.NoLanding? {
      return;
    }
    if a.client {
      var bound;
      bound, id, bounds := BindCandidate(reg, task, a);
      if !bound {
        return;
      }
    } else {
      if a.binds(0).refused {
        return;
      }
      id := reg.RegisterExactCandidate(task, a.landed.sha, a.landed.branch, a.landed.landing);
      bounds := [Bound(a.landed.sha, C.Timeout, 0)];
    }
    if a.hookThrows {
      reg.AbortVerification(id);
      return;
    }
    v := reg.next;
    VerifyGives(reg.Snap(), id, a);
    var verified := reg.VerifyExactCandidate(id, a.hooks, false, Seen(a));
    result := verified.value;
    ok := true;
  }

  /** What DONE stands on. */
  ghost predicate DoneJustified(st: Store, required: bool, id: Id, v: Id, r: Id, a: Attempt) {
    && VerificationAuthoritative(st, v) && st.verifications[v].candidate == id
    && SomeCheck(st.verifications[v].checks, "github_landing", Some(true)) && SomeCheck(st.verifications[v].checks, "github_ci", Some(true))
    && (required ==> ReviewAuthoritative(st, r) && st.reviews[r].candidate == id
                     && st.reviews[r].sha == st.verifications[v].sha == st.candidates[id].sha)
    && Passes(a) && Approved(required, a)
  }

  /** Every hook passed, and GitHub confirmed the landing with a successful CI. */
  ghost predicate Passes(a: Attempt) {
    (forall i | 0 <= i < |a.hooks| :: a.hooks[i].ok) && a.client && a.github.Landed? && a.github.landing.ci == CI_SUCCESS
  }

  /** A hook failed, or GitHub contradicted the landing or reported a failed CI. */
  ghost predicate Fails(a: Attempt) {
    (exists i | 0 <= i < |a.hooks| :: !a.hooks[i].ok)
    || (a.client && a.github.HardMismatch?)
    || (a.client && a.github.Landed? && a.github.landing.ci != CI_SUCCESS && a.github.landing.ci.conclusion == "failure")
  }

  /** No review was required, or the reviewer was there and passed the candidate. */
  predicate Approved(required: bool, a: Attempt) {
    required ==> a.invoker && a.answer == ReviewAnswer.Verdict(ReviewPass)
  }

  predicate ChangesRequested(required: bool, a: Attempt) {
    required && a.invoker && a.answer == ReviewAnswer.Verdict(RequestChanges)
  }

  /** DONE needs a pass and the approval; RETRY a registration or verification that failed, or requested changes;
      and each follows from these, unless a hook takes the name of the landing snapshot. */
  ghost predicate Says(required: bool, a: Attempt, verified: bool, d: Decision) {
    && (d.Done? ==> verified && Passes(a) && Approved(required, a))
    && (d.Retry? ==> !verified || Fails(a) || (Passes(a) && ChangesRequested(required, a)))
    && (!verified || Fails(a) ==> d.Retry?)
    && (verified && Passes(a) && !Named(a.hooks) && Approved(required, a) ==> d.Done?)
    && (verified && Passes(a) && !Named(a.hooks) && ChangesRequested(required, a) ==> d.Retry?)
  }

  lemma ChecksNamed(st: Store, id: Id, v: Id, a: Attempt)
    requires JustVerified(st, id, v, Pass, a)
    ensures SomeCheck(st.verifications[v].checks, "github_landing", Some(true)) && SomeCheck(st.verifications[v].checks, "github_ci", Some(true))
  {
    var cs := st.verifications[v].checks;
    var k := |a.hooks|;
    assert cs[k] == GithubChecks(Seen(a))[0] && cs[k + 1] == GithubChecks(Seen(a))[1];
  }

  /** Review of a just-verified PASS, and the decision; `threw` when review is impossible. */
  method ReviewAndDecide(reg: Registry, required: bool, id: Id, v: Id, result: VerificationResult, a: Attempt)
    returns (threw: bool, d: Decision, r: Id)
    requires JustVerified(reg.Snap(), id, v, result, a)
    modifies reg
    ensures !threw && d.Done? ==> result.Pass? && DoneJustified(reg.Snap(), required, id, v, r, a)
    ensures threw <==> result.Pass? && ((required && !a.invoker) || !Reviewable(old(reg.Snap()), id))
    ensures !threw ==> (d.Done? <==> result.Pass? && Approved(required, a))
    ensures !threw ==> (d.Retry? <==> result.Fail? || (result.Pass? && ChangesRequested(required, a)))
    ensures v in reg.verifications && reg.verifications[v].sha == old(reg.verifications)[v].sha
  {
    threw, d, r := false, DecidedBlocked, 0;
    if !result.Pass? {
      d := DecideAfterGates(required, result, None, Gate(false, Blocked));
      return;
    }
    if required && !a.invoker {
      return true, d, r;
    }
    ghost var st := reg.Snap();
    ChecksNamed(st, id, v, a);
    r := reg.next;
    var recorded := reg.ReviewExactCandidate(id, required, a.answer);
    if !recorded {
      return true, d, r;
    }
    assert reg.Snap() == Review(st, id, required, a.answer);
    var review := reg.reviews[r];
    var gate := EvaluateReviewGate(required, Some(reg.verifications[v]), Some(review));
    GateMeans(required, Some(reg.verifications[v]), Some(review));
    d := DecideAfterGates(required, result, Some(review), gate);
    if d.Done? {
      ReviewLeadsToAuthority(st, id, v, required, a);
    }
  }

  /** Without a hook of the snapshot's name, a PASS can be reviewed. */
  lemma PassIsReviewable(st: Store, id: Id, v: Id, a: Attempt)
    requires JustVerified(st, id, v, Pass, a) && !Named(a.hooks)
    ensures Reviewable(st, id)
  {
    SnapshotRead(st.candidates[id], a.hooks, false, Seen(a).landing);
  }

  lemma ReviewLeadsToAuthority(st: Store, id: Id, v: Id, required: bool, a: Attempt)
    requires JustVerified(st, id, v, Pass, a) && Reviewable(st, id)
    requires Review(st, id, required, a.answer).reviews[st.next].status.ReviewPass?
    ensures VerificationAuthoritative(Review(st, id, required, a.answer), v)
    ensures ReviewAuthoritative(Review(st, id, required, a.answer), st.next)
  {
  }

  // ----- the attempt loop -----

  datatype Verdict = IsDone | IsBlocked | NeedsOwner | Threw

  function AfterRepair(r: B.Repair): Verdict {
    if r.AttemptCap? then NeedsOwner else IsBlocked
  }

  /** What one cycle came to: an answer, or a repair that lets the loop go on. */
  datatype Cycle = Finished(verdict: Verdict) | Repaired

  /** Register, verify, review and decide; a failed registration or verification asks for a retry, a review
      that cannot be held blocks. */
  method RunGates(reg: Registry, task: TaskId, required: bool, a: Attempt) returns (verified: bool, d: Decision, id: Id, v: Id, r: Id)
    modifies reg
    ensures d.Done? ==> DoneJustified(reg.Snap(), required, id, v, r, a) && SettledOn(a, reg.verifications[v].sha)
    ensures Says(required, a, verified, d)
    ensures verified ==> !a.hookThrows && a.landed.LandedAt?
    ensures !verified && !a.client ==> a.landed.NoLanding? || a.binds(0).refused || a.hookThrows
  {
    d, r := Retry, 0;
    var result, bounds;
    verified, id, v, result, bounds := RegisterAndVerify(reg, task, a);
    if verified {
      var threw;
      if result.Pass? && !Named(a.hooks) { PassIsReviewable(reg.Snap(), id, v, a); }
      threw, d, r := ReviewAndDecide(reg, required, id, v, result, a);
      if threw {
        d := DecidedBlocked;
      }
    }
  }

  /** The worker timed out or its run failed, was cancelled or is stale. */
  predicate Unworked(a: Attempt, launched: B.RunStatus) {
    a.waitTimedOut || launched.RunCancelled? || launched.RunStale?
    || a.workerStatus in {B.ProviderError, B.ProviderTimeout, B.ProviderExpired, B.ProviderCancelled}
  }

  /** The worker's result was collected and is not cancelled. */
  predicate Worked(a: Attempt, launched: B.RunStatus) {
    !Unworked(a, launched) && !a.collectThrows && !a.collected.ProviderCancelled?
  }

  ghost predicate GatesSay(required: bool, a: Attempt, verified: bool, verdict: Option<Verdict>) {
    && verdict in {None, Some(IsDone), Some(IsBlocked)}
    && Says(required, a, verified, match verdict case None => Retry case Some(w) => if w.IsDone? then Done else DecidedBlocked)
  }

  /** The launched worker's run: wait, collect, verify, review, decide. None: there is something to repair. */
  method WorkAndGate(core: B.Runs, reg: Registry, task: TaskId, required: bool, a: Attempt)
    returns (verdict: Option<Verdict>, retryable: bool, verified: bool, id: Id, v: Id, r: Id)
    requires core.Valid() && core.runs != []
    modifies core, reg
    ensures core.Valid() && |core.runs| == |old(core.runs)|
    ensures Unworked(a, old(core.runs)[|core.runs| - 1].status) ==> verdict.None? && retryable == (a.waitTimedOut || a.retryable)
    ensures !Unworked(a, old(core.runs)[|core.runs| - 1].status) && a.collectThrows ==> verdict == Some(Threw)
    ensures !Unworked(a, old(core.runs)[|core.runs| - 1].status) && !a.collectThrows && a.collected.ProviderCancelled? ==> verdict == Some(IsBlocked)
    ensures Worked(a, old(core.runs)[|core.runs| - 1].status) ==> retryable && GatesSay(required, a, verified, verdict)
    ensures verdict == Some(IsDone) ==> DoneJustified(reg.Snap(), required, id, v, r, a) && SettledOn(a, reg.verifications[v].sha)
  {
    verdict, retryable, verified, id, v, r := None, true, false, 0, 0, 0;
    if a.waitTimedOut {
      return;
    }
    var settled := core.Observe(a.workerStatus, a.now);
    if settled.RunFailed? || settled.RunCancelled? || settled.RunStale? {
      retryable := a.retryable;
      return;
    }
    if a.collectThrows {
      verdict := Some(Threw);
      return;
    }
    settled := core.Observe(a.collected, a.now);
    if settled.RunStale? || settled.RunCancelled? {
      verdict := Some(IsBlocked);                  // stale_or_cancelled_run
      return;
    }
    var d;
    verified, d, id, v, r := RunGates(reg, task, required, a);
    if !d.Retry? {
      verdict := Some(if d.Done? then IsDone else IsBlocked);
    }
  }

  /** A worker was launched and has a provider id. */
  predicate Started(a: Attempt, launched: bool) {
    launched && a.launch.Launched? && a.launch.providerId
  }

  /** The worker or the gates leave something that may be repaired, and nothing else. */
  ghost predicate AsksForRepair(required: bool, a: Attempt, verified: bool)
    requires a.launch.Launched?
  {
    var status := B.MapProviderStatus(a.launch.status);
    if Unworked(a, status) then a.waitTimedOut || a.retryable
    else Worked(a, status) && !GatesSay(required, a, verified, Some(IsBlocked)) && !GatesSay(required, a, verified, Some(IsDone))
  }

  /** The cycle's answer once a worker was started. A failure that may be repaired ends in a repair, in NEEDS_OWNER
      or, with the runtime spent, in BLOCKED; one that may not is BLOCKED; collected work goes by the gates. */
  ghost predicate CycleSays(required: bool, a: Attempt, verified: bool, cycle: Cycle)
    requires a.launch.Launched?
  {
    var status := B.MapProviderStatus(a.launch.status);
    var tried := cycle.Repaired? || cycle == Finished(NeedsOwner) || cycle == Finished(IsBlocked);
    && (Unworked(a, status) ==> if a.waitTimedOut || a.retryable then tried else cycle == Finished(IsBlocked))
    && (!Unworked(a, status) && a.collectThrows ==> cycle == Finished(Threw))
    && (!Unworked(a, status) && !a.collectThrows && a.collected.ProviderCancelled? ==> cycle == Finished(IsBlocked))
    && (Worked(a, status) ==>
          || (GatesSay(required, a, verified, None) && tried)
          || (GatesSay(required, a, verified, Some(IsDone)) && cycle == Finished(IsDone))
          || (GatesSay(required, a, verified, Some(IsBlocked)) && cycle == Finished(IsBlocked)))
  }

  /** Work and gates of a started worker; then repair if there is something to repair. */
  method WorkAndRepair(core: B.Runs, reg: Registry, task: TaskId, policy: B.Policy, required: bool, a: Attempt)
    returns (cycle: Cycle, verified: bool, id: Id, v: Id, r: Id)
    requires core.Valid() && core.runs != [] && a.launch.Launched?
    requires core.runs[|core.runs| - 1].status == B.MapProviderStatus(a.launch.status)
    modifies core, reg
    ensures core.Valid() && CycleSays(required, a, verified, cycle)
    ensures cycle.Finished? ==> |core.runs| == |old(core.runs)|
    ensures cycle.Repaired? ==> |core.runs| == |old(core.runs)| + 1 <= policy.maxAttempts && B.Reusable(core.runs)
    ensures cycle == Finished(NeedsOwner) ==> |core.runs| >= policy.maxAttempts
    ensures cycle == Finished(IsBlocked) && AsksForRepair(required, a, verified) ==> |core.runs| < policy.maxAttempts
    ensures cycle != Finished(IsDone) || DoneJustified(reg.Snap(), required, id, v, r, a)
    ensures cycle != Finished(IsDone) || SettledOn(a, reg.verifications[v].sha)
  {
    var verdict, retryable;
    verdict, retryable, verified, id, v, r := WorkAndGate(core, reg, task, required, a);
    if verdict.Some? {
      cycle := Finished(verdict.value);
      return;
    }
    var repair := core.BeginRepairAttempt(policy, retryable, a.now);
    cycle := if repair.Allowed? then Repaired else Finished(AfterRepair(repair));
  }

  /** Launch, work, gates; then repair if there is something to repair. */
  method RunCycle(core: B.Runs, reg: Registry, task: TaskId, policy: B.Policy, required: bool, a: Attempt)
    returns (cycle: Cycle, launched: bool, verified: bool, id: Id, v: Id, r: Id)
    requires core.Valid()
    modifies core, reg
    ensures core.Valid()
    ensures launched <==> !a.launch.LaunchRefused? && !B.Busy(old(core.runs))
    ensures !Started(a, launched) ==> cycle == Finished(if launched && a.launch.Launched? then IsBlocked else Threw)
    ensures Started(a, launched) ==> CycleSays(required, a, verified, cycle)
    ensures cycle == Finished(NeedsOwner) ==> |core.runs| >= policy.maxAttempts
    ensures Started(a, launched) && cycle == Finished(IsBlocked) && AsksForRepair(required, a, verified) ==> |core.runs| < policy.maxAttempts
    ensures cycle.Finished? ==> |core.runs| <= |old(core.runs)| + (if B.Reusable(old(core.runs)) then 0 else 1)
    ensures cycle.Repaired? ==>
      && launched && |core.runs| == |old(core.runs)| + (if B.Reusable(old(core.runs)) then 1 else 2)
      && |core.runs| <= policy.maxAttempts && B.Reusable(core.runs)
    ensures cycle != Finished(IsDone) || (launched && DoneJustified(reg.Snap(), required, id, v, r, a))
    ensures cycle != Finished(IsDone) || SettledOn(a, reg.verifications[v].sha)
  {
    cycle, verified, id, v, r := Finished(Threw), false, 0, 0, 0;
    var started;
    launched, started := core.LaunchWorker(a.launch, a.now);
    if !started {
      if launched && a.launch.Launched? {
        cycle := Finished(IsBlocked);                // provider_run_id_missing
      }
      return;
    }
    cycle, verified, id, v, r := WorkAndRepair(core, reg, task, policy, required, a);
  }

  /** The attempt came to this: a started worker's cycle says so, or none was started. */
  ghost predicate CameTo(required: bool, a: Attempt, cycle: Cycle) {
    if a.launch.Launched? && a.launch.providerId then exists verified: bool :: CycleSays(required, a, verified, cycle)
    else cycle == Finished(IsBlocked) || cycle == Finished(Threw)
  }

  /** runOwnerSoftwareTask for a freshly locked task. At most max_attempts workers are launched and at most
      max_attempts runs exist; with a cycle cap of at least max_attempts the loop itself always answers;
      every attempt but the last came to a repair, and the last to the verdict; DONE rests on authoritative
      evidence. */
  method RunOwnerSoftwareTask(core: B.Runs, reg: Registry, task: TaskId, maxAttempts: Option<int>, maxRuntimeMs: Option<int>,
                              maxCycles: Option<int>, required: bool, attempts: nat -> Attempt)
    returns (verdict: Verdict, insideLoop: bool, attempt: nat, launches: nat, id: Id, v: Id, r: Id)
    requires core.Valid() && core.runs == [] && (maxAttempts.Some? ==> maxAttempts.value >= 1)
    modifies core, reg
    ensures var limit := if maxAttempts.None? then 2 else maxAttempts.value;
      && launches <= attempt && launches <= limit && |core.runs| <= limit
      && (maxCycles.None? || maxCycles.value >= limit ==> insideLoop)
      && (!insideLoop ==> verdict == NeedsOwner && attempt < limit)
    ensures verdict != IsDone || (attempt > 0 && DoneJustified(reg.Snap(), required, id, v, r, attempts(attempt - 1)))
    ensures verdict != IsDone || SettledOn(attempts(attempt - 1), reg.verifications[v].sha)
    ensures forall i: nat | i < attempt && !(insideLoop && i == attempt - 1) :: CameTo(required, attempts(i), Repaired)
    ensures insideLoop ==> attempt > 0 && CameTo(required, attempts(attempt - 1), Finished(verdict))
    ensures verdict == NeedsOwner && insideLoop ==> |core.runs| >= if maxAttempts.None? then 2 else maxAttempts.value
  {
    var policy := B.ResolveRetryPolicy(maxAttempts, maxRuntimeMs);
    var cycleCap := if maxCycles.None? then policy.maxAttempts else maxCycles.value;
    attempt, launches, id, v, r := 0, 0, 0, 0, 0;
    while attempt < cycleCap
      invariant core.Valid() && launches == attempt
      invariant attempt == 0 ==> core.runs == []
      invariant attempt > 0 ==> |core.runs| == attempt + 1 <= policy.maxAttempts && B.Reusable(core.runs)
      invariant forall i: nat | i < attempt :: CameTo(required, attempts(i), Repaired)
    {
      var launched, cycle, verified;
      cycle, launched, verified, id, v, r := RunCycle(core, reg, task, policy, required, attempts(attempt));
      attempt := attempt + 1;
      if launched {
        launches := launches + 1;
      }
      if cycle.Finished? {
        return cycle.verdict, true, attempt, launches, id, v, r;
      }
    }
    return NeedsOwner, false, attempt, launches, id, v, r;
  }
}
