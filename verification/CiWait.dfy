/**
 The bounded wait for CI on an exact candidate SHA: how check runs are summarised, what ends the wait,
 and how often it polls. GitHub, the stored candidate at each poll and how long
 every step takes are inputs.
 */
module CiWait {
  import opened Wrappers
  import opened Evidence

  /** A check run; "" is a null conclusion or an untagged head. */
  datatype CheckRun = CheckRun(status: string, conclusion: string, head: Sha)

  predicate Bad(conclusion: string) {
    conclusion in ["failure", "timed_out", "action_required", "cancelled"]
  }

  predicate Good(conclusion: string) {
    conclusion in ["success", "neutral", "skipped"]
  }

  /** `combined` is the combined status state; "" when there is none. */
  function SummarizeCi(runs: seq<CheckRun>, combined: string): Ci {
    if runs != [] then
      if exists r | r in runs :: r.status != "completed" then Ci("pending", "")
      else if exists r | r in runs :: Bad(r.conclusion) then Ci("completed", "failure")
      else if forall r | r in runs :: Good(r.conclusion) then Ci("completed", "success")
      else Ci("completed", "neutral")
    else if combined == "pending" then Ci("pending", "")
    else if combined == "success" then Ci("completed", "success")
    else if combined == "failure" then Ci("completed", "failure")
    else Ci("unknown", "")
  }

  datatype Outcome = Success | Failure | Timeout | UnknownCi | HeadChanged | PrMismatch | ThrewShaMismatch | ThrewInvalid

  datatype Verdict = Continue | End(outcome: Outcome)

  function ClassifyCiSummary(ci: Ci): Verdict {
    if ci.status == "pending" then Continue
    else if ci.status == "completed" && ci.conclusion == "success" then End(Success)
    else if ci.status == "completed" && ci.conclusion in ["failure", "cancelled", "timed_out"] then End(Failure)
    else if ci.status == "completed" && ci.conclusion == "neutral" then End(UnknownCi)
    else Continue
  }

  /** What one poll finds: the stored candidate, and GitHub's commit, pull request and CI for it. */
  datatype Poll = Poll(sha: Sha, branch: string, commit: Sha, prRef: string, prHead: Sha, pr: int, url: string,
                       runs: seq<CheckRun>, combined: string)

  predicate Foreign(p: Poll) {
    exists r | r in p.runs :: r.head != "" && r.head != p.sha
  }

  function PollVerdict(p: Poll, bound: Sha): Verdict {
    if p.sha != bound then End(HeadChanged)
    else if p.commit != p.sha then End(ThrewShaMismatch)
    else if p.prRef != p.branch then End(PrMismatch)
    else if p.prHead != p.sha then End(HeadChanged)
    else if Foreign(p) then End(ThrewShaMismatch)
    else ClassifyCiSummary(SummarizeCi(p.runs, p.combined))
  }

  /** What the poll writes to the candidate's evidence. */
  function PollOps(p: Poll, bound: Sha, id: Id): seq<Op> {
    if p.sha != bound || p.commit != p.sha then []
    else if p.prRef != p.branch || p.prHead != p.sha then [DoMismatch(id)]
    else if Foreign(p) then []
    else [DoObserve(id, Landing(Some(p.pr), p.url, SummarizeCi(p.runs, p.combined)))]
  }

  /** Everything the first `n` polls write. */
  function Gather(writes: nat -> seq<Op>, n: nat): seq<Op> {
    if n == 0 then [] else Gather(writes, n - 1) + writes(n - 1)
  }

  function OpsOf(poll: nat -> Poll, bound: Sha, id: Id): nat -> seq<Op> {
    (i: nat) => PollOps(poll(i), bound, id)
  }

  function VerdictOf(poll: nat -> Poll, bound: Sha): nat -> Verdict {
    (i: nat) => PollVerdict(poll(i), bound)
  }

  /** The wait writes observations of its own candidate and nothing else. */
  lemma {:induction false} OpsAreItsOwn(poll: nat -> Poll, bound: Sha, id: Id, n: nat)
    ensures forall i | 0 <= i < |Gather(OpsOf(poll, bound, id), n)| ::
      var op := Gather(OpsOf(poll, bound, id), n)[i]; (op.DoObserve? || op.DoMismatch?) && op.id == id
  {
    if n > 0 {
      OpsAreItsOwn(poll, bound, id, n - 1);
      assert OpsOf(poll, bound, id)(n - 1) == PollOps(poll(n - 1), bound, id);
    }
  }

  // ----- what SUCCESS means -----

  /** GitHub shows the bound commit at the head of the candidate's branch, and its CI is through. */
  ghost predicate Landed(p: Poll, bound: Sha) {
    && p.sha == bound && p.commit == bound && p.prRef == p.branch && p.prHead == bound
    && (forall i | 0 <= i < |p.runs| :: p.runs[i].head == "" || p.runs[i].head == bound)
    && (if p.runs == [] then p.combined == "success"
        else AllDone(p.runs) && forall i | 0 <= i < |p.runs| :: Good(p.runs[i].conclusion))
  }

  ghost predicate AllDone(runs: seq<CheckRun>) {
    forall i | 0 <= i < |runs| :: runs[i].status == "completed"
  }

  /** What the summary means: pending while a run is, failed when all are done and one is bad, successful
      when all are done and good; without runs the combined status decides. */
  lemma SummaryMeaning(runs: seq<CheckRun>, combined: string)
    ensures var ci := SummarizeCi(runs, combined);
      && (ci.status == "pending" <==> if runs == [] then combined == "pending" else !AllDone(runs))
      && (ci == Ci("completed", "failure") <==>
            if runs == [] then combined == "failure" else AllDone(runs) && exists i | 0 <= i < |runs| :: Bad(runs[i].conclusion))
      && (ci == CI_SUCCESS <==>
            if runs == [] then combined == "success" else AllDone(runs) && forall i | 0 <= i < |runs| :: Good(runs[i].conclusion))
  {
    if runs != [] {
      assert (exists r | r in runs :: r.status != "completed") <==> !AllDone(runs);
      assert (exists r | r in runs :: Bad(r.conclusion)) <==> exists i | 0 <= i < |runs| :: Bad(runs[i].conclusion);
      assert forall r | r in runs :: Good(r.conclusion) ==> !Bad(r.conclusion);
    }
  }

  /** A poll ends the wait with SUCCESS exactly when it finds the bound candidate landed. */
  lemma SuccessExactlyWhenLanded(p: Poll, bound: Sha)
    ensures PollVerdict(p, bound) == End(Success) <==> Landed(p, bound)
  {
    SummaryMeaning(p.runs, p.combined);
    assert Foreign(p) <==> exists i | 0 <= i < |p.runs| :: p.runs[i].head != "" && p.runs[i].head != p.sha by {
      if Foreign(p) {
        var r :| r in p.runs && r.head != "" && r.head != p.sha;
        var i :| 0 <= i < |p.runs| && p.runs[i] == r;
      }
    }
  }

  /** And for the other endings: a changed head is a moved stored SHA, or another head on the candidate's own
      branch; a pull request of another branch mismatches; a commit or check run of another SHA throws; a failed
      CI fails and a neutral one is unknown; everything else goes on. */
  lemma EndingsMean(p: Poll, bound: Sha)
    ensures var v := PollVerdict(p, bound);
      var own := p.sha == bound && p.commit == bound;
      var at := own && p.prRef == p.branch && p.prHead == bound;
      var single := forall i | 0 <= i < |p.runs| :: p.runs[i].head == "" || p.runs[i].head == bound;
      && (v == End(HeadChanged) <==> p.sha != bound || (own && p.prRef == p.branch && p.prHead != bound))
      && (v == End(PrMismatch) <==> own && p.prRef != p.branch)
      && (v == End(ThrewShaMismatch) <==> p.sha == bound && (p.commit != bound || (at && !single)))
      && (v == End(Failure) <==> at && single && (if p.runs == [] then p.combined == "failure" else AllDone(p.runs) && exists i | 0 <= i < |p.runs| :: Bad(p.runs[i].conclusion)))
      && (v == End(UnknownCi) <==>
            && at && single && p.runs != [] && AllDone(p.runs)
            && (forall i | 0 <= i < |p.runs| :: !Bad(p.runs[i].conclusion)) && exists i | 0 <= i < |p.runs| :: !Good(p.runs[i].conclusion))
  {
    SummaryMeaning(p.runs, p.combined);
    assert Foreign(p) <==> exists i | 0 <= i < |p.runs| :: p.runs[i].head != "" && p.runs[i].head != p.sha by {
      if Foreign(p) {
        var r :| r in p.runs && r.head != "" && r.head != p.sha;
        var i :| 0 <= i < |p.runs| && p.runs[i] == r;
      }
    }
    assert forall i | 0 <= i < |p.runs| :: p.runs[i] in p.runs;
  }

  // ----- the loop -----

  function Min(a: int, b: int): int {
    if a < b then a else b
  }

  ghost predicate Waits(verdict: nat -> Verdict, n: nat) {
    forall i: nat | i < n :: verdict(i).Continue?
  }

  /** The wait's last poll settled it, or no poll did and it timed out. */
  ghost predicate EndsWith(poll: nat -> Poll, bound: Sha, outcome: Outcome, polls: nat) {
    if outcome.Timeout? then Waits(VerdictOf(poll, bound), polls)
    else polls > 0 && Waits(VerdictOf(poll, bound), polls - 1) && VerdictOf(poll, bound)(polls - 1) == End(outcome)
  }

  /** The bounded polling loop, whatever a poll finds and writes. The clock shows `start` when the deadline
      is set; `delay` says by how much each later reading runs on beyond the time slept. */
  method PollUntilTerminal(pollMs: int, timeoutMs: int, start: int, delay: nat -> nat, verdict: nat -> Verdict, writes: nat -> seq<Op>)
    returns (v: Verdict, polls: nat, ops: seq<Op>)
    requires pollMs >= 1 && timeoutMs >= 1
    ensures v.End? ==> polls > 0 && Waits(verdict, polls - 1) && verdict(polls - 1) == v
    ensures v.Continue? ==> Waits(verdict, polls)
    ensures polls > 0 ==> (polls - 1) * pollMs < timeoutMs
    ensures ops == Gather(writes, polls)
  {
    v, polls, ops := Continue, 0, [];
    var deadline := start + timeoutMs;
    var now := start + delay(0);
    while now < deadline
      invariant Waits(verdict, polls) && ops == Gather(writes, polls)
      invariant now >= start + Min(polls * pollMs, timeoutMs)
      invariant polls > 0 ==> (polls - 1) * pollMs < timeoutMs
      decreases deadline - now
    {
      var k := polls;
      polls := polls + 1;
      ops := ops + writes(k);
      if verdict(k).End? {
        v := verdict(k);
        return;
      }
      now := now + delay(2 * k + 1);
      if deadline - now <= 0 {
        break;
      }
      assert (k + 1) * pollMs == k * pollMs + pollMs;
      now := now + Min(pollMs, deadline - now) + delay(2 * k + 2);
    }
  }

  /** waitForExactCandidateCi for the stored candidate `c`. SUCCESS only from a last poll that found the
      candidate landed; every earlier poll was inconclusive; at most ceil(timeout / poll) polls; the wait
      writes only what its polls write, and on SUCCESS the last of it records a completed, successful CI. */
  method WaitForExactCandidateCi(id: Id, c: Candidate, pollMs: int, timeoutMs: int, start: int, delay: nat -> nat, poll: nat -> Poll)
    returns (outcome: Outcome, head: Sha, polls: nat, ops: seq<Op>)
    ensures outcome.ThrewInvalid? <==> pollMs < 1 || timeoutMs < 1 || c.branch == "" || c.pr.None?
    ensures outcome.ThrewInvalid? ==> polls == 0
    ensures !outcome.ThrewInvalid? ==> EndsWith(poll, c.sha, outcome, polls)
    ensures outcome.Success? ==> polls > 0 && Landed(poll(polls - 1), c.sha)
    ensures outcome.HeadChanged? && poll(polls - 1).sha == c.sha ==> head == poll(polls - 1).prHead && head != c.sha
    ensures !outcome.HeadChanged? || poll(polls - 1).sha != c.sha ==> head == ""
    ensures polls > 0 ==> (polls - 1) * pollMs < timeoutMs
    ensures ops == Gather(OpsOf(poll, c.sha, id), polls)
    ensures outcome.Success? ==> ops != [] && ops[|ops| - 1].DoObserve? && ops[|ops| - 1].landing.ci == CI_SUCCESS
  {
    head, polls, ops := "", 0, [];
    if pollMs < 1 || timeoutMs < 1 || c.branch == "" || c.pr.None? {
      return ThrewInvalid, head, polls, ops;
    }
    var v;
    v, polls, ops := PollUntilTerminal(pollMs, timeoutMs, start, delay, VerdictOf(poll, c.sha), OpsOf(poll, c.sha, id));
    if v.Continue? {
      return Timeout, head, polls, ops;
    }
    outcome := v.outcome;
    var last := poll(polls - 1);
    PollWrites(last, c.sha, id);
    if outcome.HeadChanged? && last.sha == c.sha {
      head := last.prHead;
    }
  }

  /** What a poll writes: on the bound commit with the pull request on its branch and head, and no check run of
      another SHA, the pull request, its URL and the summarised CI; on the bound commit with another branch or
      head, the mismatch; otherwise nothing. A successful poll records the success. */
  lemma PollWrites(p: Poll, bound: Sha, id: Id)
    ensures PollVerdict(p, bound) != End(Timeout) && PollVerdict(p, bound) != End(ThrewInvalid)
    ensures PollVerdict(p, bound) == End(Success) ==>
      var ops := PollOps(p, bound, id);
      Landed(p, bound) && |ops| == 1 && ops[0].DoObserve? && ops[0].landing.ci == CI_SUCCESS
    ensures var ops, v := PollOps(p, bound, id), PollVerdict(p, bound);
      && |ops| <= 1
      && (ops != [] && ops[0].DoObserve? <==> !v.End? || v in {End(Success), End(Failure), End(UnknownCi)})
      && (ops != [] && ops[0].DoObserve? ==>
            ops[0].id == id && ops[0].landing.pr == Some(p.pr) && ops[0].landing.url == p.url && ops[0].landing.ci == SummarizeCi(p.runs, p.combined))
      && (ops == [DoMismatch(id)] <==> v == End(PrMismatch) || (v == End(HeadChanged) && p.sha == bound))
  {
    SuccessExactlyWhenLanded(p, bound);
    SummaryMeaning(p.runs, p.combined);
  }
}
