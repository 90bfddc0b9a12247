/**
 The evidence operations as loops over stored rows, each proved to do what module Evidence says.
 */
module EvidenceStore {
  import opened Wrappers
  import opened Evidence

  lemma SupersedeOneMore(cs: map<Id, Candidate>, done: set<Id>, c: Id)
    requires c in cs
    ensures Supersede(cs, done)[c := Supersede(cs, done)[c].(status := Superseded)] == Supersede(cs, done + {c})
  {
  }

  lemma VoidOneMoreVerification(cs: map<Id, Candidate>, vs: map<Id, VerificationRow>, done: set<Id>, c: Id)
    requires c in cs
    ensures VoidVerification(VoidVerifications(vs, VerificationRefs(cs, done)), cs[c].verification)
         == VoidVerifications(vs, VerificationRefs(cs, done + {c}))
  {
    var before, after := VerificationRefs(cs, done), VerificationRefs(cs, done + {c});
    assert forall v :: v in after <==> v in before || cs[c].verification == Some(v);
  }

  lemma VoidOneMoreReview(cs: map<Id, Candidate>, rs: map<Id, ReviewRow>, done: set<Id>, c: Id)
    requires c in cs
    ensures VoidReview(VoidReviews(rs, ReviewRefs(cs, done)), cs[c].review)
         == VoidReviews(rs, ReviewRefs(cs, done + {c}))
  {
    var before, after := ReviewRefs(cs, done), ReviewRefs(cs, done + {c});
    assert forall r :: r in after <==> r in before || cs[c].review == Some(r);
  }

  lemma VoidApprovalsOneMore(aps: map<Id, ApprovalRow>, task: TaskId, done: set<Id>, c: Id)
    ensures VoidApprovals(VoidApprovals(aps, task, done), task, {c}) == VoidApprovals(aps, task, done + {c})
  {
  }

  class Registry {
    var candidates: map<Id, Candidate>
    var verifications: map<Id, VerificationRow>
    var reviews: map<Id, ReviewRow>
    var approvals: map<Id, ApprovalRow>
    var next: Id
    var lastSha: map<TaskId, Sha>

    constructor ()
      ensures Snap() == EMPTY
    {
      candidates, verifications, reviews, approvals, next, lastSha := map[], map[], map[], map[], 0, map[];
    }

    function Snap(): Store
      reads this
    {
      Store(candidates, verifications, reviews, approvals, next, lastSha)
    }

    method InvalidateVerification(v: Option<Id>)
      modifies this`verifications
      ensures verifications == VoidVerification(old(verifications), v)
    {
      if v.Some? && v.value in verifications {
        verifications := verifications[v.value := verifications[v.value].(invalidated := true)];
      }
    }

    method InvalidateReview(r: Option<Id>)
      modifies this`reviews
      ensures reviews == VoidReview(old(reviews), r)
    {
      if r.Some? && r.value in reviews {
        reviews := reviews[r.value := reviews[r.value].(invalidated := true)];
      }
    }

    /** Skips rows already invalidated; voids the rest one by one. */
    method InvalidatePriorVerifications(c: Id)
      modifies this`verifications
      ensures verifications == VoidVerificationsOf(old(verifications), c)
    {
      var todo := set v | v in verifications && verifications[v].candidate == c;
      while todo != {}
        invariant forall v | v in todo :: v in verifications && verifications[v] == old(verifications)[v]
        invariant verifications.Keys == old(verifications).Keys
        invariant forall v | v in verifications && v !in todo :: verifications[v] == VoidVerificationsOf(old(verifications), c)[v]
        invariant forall v | v in todo :: verifications[v].candidate == c
        decreases todo
      {
        var v :| v in todo;
        if !verifications[v].invalidated {
          InvalidateVerification(Some(v));
        }
        todo := todo - {v};
      }
    }

    method InvalidatePriorReviews(c: Id)
      modifies this`reviews
      ensures reviews == VoidReviewsOf(old(reviews), c)
    {
      var todo := set r | r in reviews && reviews[r].candidate == c;
      while todo != {}
        invariant forall r | r in todo :: r in reviews && reviews[r] == old(reviews)[r]
        invariant reviews.Keys == old(reviews).Keys
        invariant forall r | r in reviews && r !in todo :: reviews[r] == VoidReviewsOf(old(reviews), c)[r]
        invariant forall r | r in todo :: reviews[r].candidate == c
        decreases todo
      {
        var r :| r in todo;
        if !reviews[r].invalidated {
          InvalidateReview(Some(r));
        }
        todo := todo - {r};
      }
    }

    /** The loop over the task's approvals inside the supersede loop. */
    method InvalidateApprovals(task: TaskId, c: Id)
      modifies this`approvals
      ensures approvals == VoidApprovals(old(approvals), task, {c})
    {
      var todo := set a | a in approvals && approvals[a].task == task;
      while todo != {}
        invariant approvals.Keys == old(approvals).Keys && todo <= approvals.Keys
        invariant forall a | a in todo :: approvals[a] == old(approvals)[a] && approvals[a].task == task
        invariant forall a | a in approvals && a !in todo :: approvals[a] == VoidApprovals(old(approvals), task, {c})[a]
        decreases todo
      {
        var a :| a in todo;
        if approvals[a].candidate == Some(c) && approvals[a].status.ApprovalApproved? {
          approvals := approvals[a := approvals[a].(status := ApprovalInvalidated)];
        }
        todo := todo - {a};
      }
    }

    /** The supersede-and-invalidate loop over the task's earlier candidates. */
    method SupersedeOthers(task: TaskId, sha: Sha)
      modifies this`candidates, this`verifications, this`reviews, this`approvals
      ensures var gone := Outdated(old(candidates), task, sha);
        && candidates == Supersede(old(candidates), gone)
        && verifications == VoidVerifications(old(verifications), VerificationRefs(old(candidates), gone))
        && reviews == VoidReviews(old(reviews), ReviewRefs(old(candidates), gone))
        && approvals == VoidApprovals(old(approvals), task, gone)
    {
      ghost var gone := Outdated(candidates, task, sha);
      var todo := set c | c in candidates && candidates[c].task == task;
      ghost var done: set<Id> := {};
      while todo != {}
        invariant todo <= old(candidates).Keys && done <= gone <= done + todo && done !! todo
        invariant candidates == Supersede(old(candidates), done)
        invariant verifications == VoidVerifications(old(verifications), VerificationRefs(old(candidates), done))
        invariant reviews == VoidReviews(old(reviews), ReviewRefs(old(candidates), done))
        invariant approvals == VoidApprovals(old(approvals), task, done)
        decreases todo
      {
        var c :| c in todo;
        var prior := candidates[c];
        assert prior == old(candidates)[c];
        if prior.sha != sha && !prior.status.Superseded? && prior.task == task {
          SupersedeOneMore(old(candidates), done, c);
          VoidOneMoreVerification(old(candidates), old(verifications), done, c);
          VoidOneMoreReview(old(candidates), old(reviews), done, c);
          candidates := candidates[c := prior.(status := Superseded)];
          InvalidateVerification(prior.verification);
          InvalidateReview(prior.review);
          InvalidateApprovals(task, c);
          VoidApprovalsOneMore(old(approvals), task, done, c);
          done := done + {c};
        }
        todo := todo - {c};
      }
      assert done == gone;
    }

    method RegisterExactCandidate(task: TaskId, sha: Sha, branch: string, landing: Landing) returns (id: Id)
      modifies this
      ensures Snap() == Register(old(Snap()), task, sha, branch, landing) && id == old(next)
    {
      SupersedeOthers(task, sha);
      id := next;
      candidates := candidates[id := Candidate(task, sha, branch, landing.pr, landing.url, landing.ci, Proposed, None, None)];
      next := id + 1;
      lastSha := lastSha[task := sha];
    }

    method RefreshCandidateLanding(id: Id, l: Landing)
      modifies this
      ensures Snap() == Refresh(old(Snap()), id, l)
    {
      if id !in candidates {
        return;
      }
      var c := candidates[id];
      var changed := PrNumber(c.pr) != PrNumber(l.pr) || c.url != l.url || c.ci != l.ci;
      var updated := c.(pr := l.pr, url := l.url, ci := l.ci);
      if changed && c.verification.Some? {
        InvalidateVerification(c.verification);
        InvalidateReview(c.review);
        updated := updated.(status := if c.status.IsVerified? then Proposed else c.status, verification := None, review := None);
      }
      candidates := candidates[id := updated];
    }

    /** What a matching poll of the CI wait stores. */
    method ObserveCi(id: Id, l: Landing)
      modifies this`candidates
      ensures Snap() == Observe(old(Snap()), id, l)
    {
      if id in candidates {
        candidates := candidates[id := candidates[id].(pr := l.pr, url := l.url, ci := l.ci)];
      }
    }

    /** What a poll of the CI wait does when the pull request no longer matches. */
    method MismatchCi(id: Id)
      modifies this`verifications, this`reviews
      ensures Snap() == ObserveMismatch(old(Snap()), id)
    {
      if id in candidates {
        InvalidateVerification(candidates[id].verification);
        InvalidateReview(candidates[id].review);
      }
    }

    /** The checks in the order they are pushed. */
    static method CollectChecks(hooks: seq<Hook>, claim: bool, g: Github) returns (checks: seq<Check>)
      ensures checks == ClaimChecks(claim) + HookChecks(hooks) + GithubChecks(g)
    {
      checks := [];
      if claim {
        checks := checks + [Check("worker_self_certification", None, false, None)];
      }
      for i := 0 to |hooks|
        invariant checks == ClaimChecks(claim) + HookChecks(hooks)[..i]
      {
        checks := checks + [Check(hooks[i].name, Some(hooks[i].ok), true, hooks[i].output)];
      }
      assert HookChecks(hooks)[..|hooks|] == HookChecks(hooks);
      checks := checks + GithubChecks(g);
    }

    /** Refused for a superseded or rejected candidate. */
    method VerifyExactCandidate(id: Id, hooks: seq<Hook>, claim: bool, g: Github) returns (result: Option<VerificationResult>)
      modifies this
      ensures Snap() == Verify(old(Snap()), id, hooks, claim, g)
      ensures result.Some? <==> Eligible(old(Snap()), id)
      ensures result.Some? ==> old(next) in verifications && verifications[old(next)].result == result.value
    {
      if id !in candidates || candidates[id].status.Superseded? || candidates[id].status.Rejected? {
        return None;
      }
      InvalidatePriorVerifications(id);
      InvalidatePriorReviews(id);
      var checks := CollectChecks(hooks, claim, g);
      var judged := Judge(checks);
      var c := candidates[id];
      var landed := c;
      if g.Landed? {
        landed := c.(pr := g.landing.pr, url := g.landing.url, ci := g.landing.ci);
        checks := checks + [Check(SNAPSHOT_NAME, Some(judged.Pass?), false, Some(TakenSnapshot(c, g.landing)))];
      }
      verifications := verifications[next := VerificationRow(id, c.sha, judged, checks, false)];
      candidates := candidates[id := landed.(status := StatusAfter(judged), verification := Some(next), review := None)];
      next := next + 1;
      result := Some(judged);
    }

    /** A hook throws after the earlier rows were voided. */
    method AbortVerification(id: Id)
      modifies this
      ensures Snap() == AbortVerify(old(Snap()), id)
    {
      if id !in candidates || candidates[id].status.Superseded? || candidates[id].status.Rejected? {
        return;
      }
      InvalidatePriorVerifications(id);
      InvalidatePriorReviews(id);
      candidates := candidates[id := candidates[id].(review := None)];
    }

    method RecordApproval(task: TaskId, candidate: Option<Id>, status: ApprovalStatus) returns (a: Id)
      modifies this`approvals, this`next
      ensures Snap() == Approve(old(Snap()), task, candidate, status) && a == old(next)
    {
      a := next;
      approvals := approvals[a := ApprovalRow(task, candidate, status)];
      next := a + 1;
    }

    /** Refused unless the candidate's stored verification is authoritative. */
    method ReviewExactCandidate(id: Id, required: bool, answer: ReviewAnswer) returns (recorded: bool)
      modifies this
      ensures Snap() == Review(old(Snap()), id, required, answer)
      ensures recorded <==> Reviewable(old(Snap()), id)
    {
      recorded := false;
      if id !in candidates || candidates[id].verification.None? {
        return;
      }
      var c := candidates[id];
      var v := c.verification.value;
      if !VerificationAuthoritative(Snap(), v) || verifications[v].candidate != id {
        return;
      }
      var row := ReviewFor(required, answer, id, c.sha, v);
      reviews := reviews[next := row];
      candidates := candidates[id := c.(review := Some(next), status := if row.status.RequestChanges? then Rejected else c.status)];
      next := next + 1;
      recorded := true;
    }

    method SupersedeCandidate(c: Id)
      requires c in candidates
      modifies this`candidates
      ensures candidates == old(candidates)[c := old(candidates)[c].(status := Superseded)]
    {
      if !candidates[c].status.Superseded? {
        candidates := candidates[c := candidates[c].(status := Superseded)];
      }
    }

    /** Void everything of one candidate, then the next candidate of the task. */
    method InvalidateTaskEvidence(task: TaskId)
      modifies this`candidates, this`verifications, this`reviews
      ensures Snap() == InvalidateTask(old(Snap()), task)
    {
      var todo := set c | c in candidates && candidates[c].task == task;
      ghost var cs := todo;
      ghost var done: set<Id> := {};
      while todo != {}
        invariant todo <= cs && done == cs - todo && cs <= old(candidates).Keys
        invariant candidates == Supersede(old(candidates), done)
        invariant verifications == VoidVerificationsIn(old(verifications), done)
        invariant reviews == VoidReviewsIn(old(reviews), done)
        decreases todo
      {
        var c :| c in todo;
        SupersedeOneMore(old(candidates), done, c);
        SupersedeCandidate(c);
        InvalidatePriorVerifications(c);
        InvalidatePriorReviews(c);
        VoidInOneMore(old(verifications), old(reviews), done, c);
        todo := todo - {c};
        done := done + {c};
      }
    }
  }

  function VoidVerificationsIn(vs: map<Id, VerificationRow>, cs: set<Id>): map<Id, VerificationRow> {
    map v | v in vs :: if vs[v].candidate in cs then vs[v].(invalidated := true) else vs[v]
  }

  function VoidReviewsIn(rs: map<Id, ReviewRow>, cs: set<Id>): map<Id, ReviewRow> {
    map r | r in rs :: if rs[r].candidate in cs then rs[r].(invalidated := true) else rs[r]
  }

  lemma VoidInOneMore(vs: map<Id, VerificationRow>, rs: map<Id, ReviewRow>, done: set<Id>, c: Id)
    ensures VoidVerificationsOf(VoidVerificationsIn(vs, done), c) == VoidVerificationsIn(vs, done + {c})
    ensures VoidReviewsOf(VoidReviewsIn(rs, done), c) == VoidReviewsIn(rs, done + {c})
  {
  }
}
