/**
 What every run of the evidence operations keeps, and which verifications and reviews can carry
 authority.
 */
module EvidenceGuarantees {
  import opened Wrappers
  import opened Evidence

  // ----- the invariant, row by row -----

  predicate CandidateOk(st: Store, c: Id) {
    c in st.candidates ==>
      var x := st.candidates[c];
      && c < st.next
      && x.task in st.lastSha && (x.status.Superseded? || x.sha == st.lastSha[x.task])
      && (x.verification.Some? ==> x.verification.value in st.verifications && st.verifications[x.verification.value].candidate == c)
      && (x.review.Some? ==> x.review.value in st.reviews && st.reviews[x.review.value].candidate == c)
  }

  predicate VerificationOk(st: Store, v: Id) {
    v in st.verifications ==>
      var x := st.verifications[v];
      && v < st.next && x.candidate in st.candidates
      && x.sha == st.candidates[x.candidate].sha
      && (!x.invalidated ==> st.candidates[x.candidate].verification == Some(v))
  }

  predicate ReviewOk(st: Store, r: Id) {
    r in st.reviews ==>
      && r < st.next && st.reviews[r].candidate in st.candidates
      && st.reviews[r].sha == st.candidates[st.reviews[r].candidate].sha
  }

  predicate RowsOk(st: Store, x: Id) {
    CandidateOk(st, x) && VerificationOk(st, x) && ReviewOk(st, x) && (x in st.approvals ==> x < st.next)
  }

  ghost predicate Inv(st: Store) {
    forall x: Id :: RowsOk(st, x)
  }

  /** What stays of a candidate or verification once it exists. */
  predicate Persists(st: Store, st': Store, x: Id) {
    && (x in st.candidates ==>
          && x in st'.candidates && st'.candidates[x].task == st.candidates[x].task
          && st'.candidates[x].sha == st.candidates[x].sha && st'.candidates[x].branch == st.candidates[x].branch
          && (st.candidates[x].status.Superseded? ==> st'.candidates[x].status.Superseded?))
    && (x in st.verifications ==>
          && x in st'.verifications
          && st'.verifications[x] == st.verifications[x].(invalidated := st'.verifications[x].invalidated))
    && (x in st.reviews ==>
          && x in st'.reviews
          && st'.reviews[x] == st.reviews[x].(invalidated := st'.reviews[x].invalidated))
  }

  lemma RegisterKeeps(st: Store, task: TaskId, sha: Sha, branch: string, l: Landing, x: Id)
    requires Inv(st)
    ensures RowsOk(Register(st, task, sha, branch, l), x) && Persists(st, Register(st, task, sha, branch, l), x)
  {
    assert RowsOk(st, x) && RowsOk(st, st.next);
  }

  lemma RefreshKeeps(st: Store, id: Id, l: Landing, x: Id)
    requires Inv(st)
    ensures RowsOk(Refresh(st, id, l), x)
  {
    assert RowsOk(st, x) && RowsOk(st, id);
  }

  lemma RefreshPersists(st: Store, id: Id, l: Landing, x: Id)
    ensures Persists(st, Refresh(st, id, l), x)
  {
  }

  lemma ObserveKeeps(st: Store, id: Id, l: Landing, x: Id)
    requires Inv(st)
    ensures RowsOk(Observe(st, id, l), x) && Persists(st, Observe(st, id, l), x)
  {
    assert RowsOk(st, x);
  }

  lemma MismatchKeeps(st: Store, id: Id, x: Id)
    requires Inv(st)
    ensures RowsOk(ObserveMismatch(st, id), x) && Persists(st, ObserveMismatch(st, id), x)
  {
    assert RowsOk(st, x);
  }

  lemma VerifyKeeps(st: Store, id: Id, hooks: seq<Hook>, claim: bool, g: Github, x: Id)
    requires Inv(st)
    ensures RowsOk(Verify(st, id, hooks, claim, g), x)
  {
    assert RowsOk(st, x) && RowsOk(st, st.next);
  }

  lemma VerifyPersists(st: Store, id: Id, hooks: seq<Hook>, claim: bool, g: Github, x: Id)
    requires RowsOk(st, st.next)
    ensures Persists(st, Verify(st, id, hooks, claim, g), x)
  {
  }

  lemma AbortKeeps(st: Store, id: Id, x: Id)
    requires Inv(st)
    ensures RowsOk(AbortVerify(st, id), x) && Persists(st, AbortVerify(st, id), x)
  {
    assert RowsOk(st, x);
  }

  lemma ApproveKeeps(st: Store, task: TaskId, c: Option<Id>, status: ApprovalStatus, x: Id)
    requires Inv(st)
    ensures RowsOk(Approve(st, task, c, status), x) && Persists(st, Approve(st, task, c, status), x)
  {
    assert RowsOk(st, x) && RowsOk(st, st.next);
  }

  lemma ReviewKeeps(st: Store, id: Id, required: bool, answer: ReviewAnswer, x: Id)
    requires Inv(st)
    ensures RowsOk(Review(st, id, required, answer), x) && Persists(st, Review(st, id, required, answer), x)
  {
    assert RowsOk(st, x) && RowsOk(st, st.next);
  }

  lemma InvalidateTaskKeeps(st: Store, task: TaskId, x: Id)
    requires Inv(st)
    ensures RowsOk(InvalidateTask(st, task), x) && Persists(st, InvalidateTask(st, task), x)
  {
    assert RowsOk(st, x);
  }

  lemma ApplyKeeps(st: Store, op: Op, x: Id)
    requires Inv(st)
    ensures RowsOk(Apply(st, op), x) && Persists(st, Apply(st, op), x)
  {
    match op
    case DoRegister(t, sha, branch, l) => RegisterKeeps(st, t, sha, branch, l, x);
    case DoRefresh(id, l) =>
      RefreshKeeps(st, id, l, x);
      RefreshPersists(st, id, l, x);
    case DoObserve(id, l) => ObserveKeeps(st, id, l, x);
    case DoMismatch(id) => MismatchKeeps(st, id, x);
    case DoVerify(id, hooks, claim, g) =>
      VerifyKeeps(st, id, hooks, claim, g, x);
      VerifyPersists(st, id, hooks, claim, g, x);
    case DoAbortVerify(id) => AbortKeeps(st, id, x);
    case DoApprove(t, c, status) => ApproveKeeps(st, t, c, status, x);
    case DoReview(id, required, answer) => ReviewKeeps(st, id, required, answer, x);
    case DoVoidVerification(v) => assert RowsOk(st, x);
    case DoVoidReview(r) => assert RowsOk(st, x);
    case DoInvalidateTask(t) => InvalidateTaskKeeps(st, t, x);
  }

  lemma {:induction false} RunKeeps(ops: seq<Op>)
    ensures Inv(Run(EMPTY, ops))
    decreases |ops|
  {
    if ops != [] {
      RunKeeps(ops[..|ops| - 1]);
      forall x: Id ensures RowsOk(Run(EMPTY, ops), x) { ApplyKeeps(Run(EMPTY, ops[..|ops| - 1]), ops[|ops| - 1], x); }
    }
  }

  // ----- SHAs -----

  /** In every reachable state each candidate that is not superseded carries the SHA its task
      registered last. */
  lemma LiveCandidatesCarryTheLastSha(ops: seq<Op>, c: Id)
    requires c in Run(EMPTY, ops).candidates && !Run(EMPTY, ops).candidates[c].status.Superseded?
    ensures var st := Run(EMPTY, ops);
      st.candidates[c].task in st.lastSha && st.candidates[c].sha == st.lastSha[st.candidates[c].task]
  {
    RunKeeps(ops);
    assert RowsOk(Run(EMPTY, ops), c);
  }

  lemma StepSetsLastSha(st: Store, op: Op)
    ensures Apply(st, op).lastSha == if op.DoRegister? then st.lastSha[op.task := op.sha] else st.lastSha
  {
  }

  /** lastSha is what the last registration of the task in the history says. */
  lemma {:induction false} LastShaIsTheLastRegistered(ops: seq<Op>, m: nat)
    requires m < |ops| && ops[m].DoRegister?
    requires forall i | m < i < |ops| && ops[i].DoRegister? :: ops[i].task != ops[m].task
    ensures ops[m].task in Run(EMPTY, ops).lastSha && Run(EMPTY, ops).lastSha[ops[m].task] == ops[m].sha
    decreases |ops|
  {
    StepSetsLastSha(Run(EMPTY, ops[..|ops| - 1]), ops[|ops| - 1]);
    if m < |ops| - 1 {
      LastShaIsTheLastRegistered(ops[..|ops| - 1], m);
    }
  }

  /** At most one verification per candidate is un-invalidated, and it is the candidate's current one. */
  lemma OneLiveVerification(ops: seq<Op>, v: Id, w: Id)
    requires var st := Run(EMPTY, ops);
      && v in st.verifications && w in st.verifications && st.verifications[v].candidate == st.verifications[w].candidate
      && !st.verifications[v].invalidated && !st.verifications[w].invalidated
    ensures v == w
    ensures var st := Run(EMPTY, ops);
      st.verifications[v].candidate in st.candidates && st.candidates[st.verifications[v].candidate].verification == Some(v)
  {
    RunKeeps(ops);
    assert RowsOk(Run(EMPTY, ops), v) && RowsOk(Run(EMPTY, ops), w);
  }

  lemma RegisterSupersedes(st: Store, task: TaskId, sha: Sha, branch: string, l: Landing, c: Id)
    requires RowsOk(st, c) && c in st.candidates && st.candidates[c].task == task && st.candidates[c].sha != sha
    ensures c in Register(st, task, sha, branch, l).candidates && Register(st, task, sha, branch, l).candidates[c].status.Superseded?
  {
  }

  lemma RunOneMore(ops: seq<Op>, op: Op)
    ensures Run(EMPTY, ops + [op]) == Apply(Run(EMPTY, ops), op)
  {
    assert (ops + [op])[..|ops|] == ops;
  }

  lemma JustRegistered(ops: seq<Op>, op: Op, c: Id)
    requires op.DoRegister? && c in Run(EMPTY, ops).candidates
    requires Run(EMPTY, ops).candidates[c].task == op.task && Run(EMPTY, ops).candidates[c].sha != op.sha
    ensures c in Run(EMPTY, ops + [op]).candidates && Run(EMPTY, ops + [op]).candidates[c].status.Superseded?
  {
    assert RowsOk(Run(EMPTY, ops), c) by { RunKeeps(ops); }
    RegisterSupersedes(Run(EMPTY, ops), op.task, op.sha, op.branch, op.landing, c);
    RunOneMore(ops, op);
  }

  lemma PersistsOneMore(ops: seq<Op>, op: Op, x: Id)
    ensures Persists(Run(EMPTY, ops), Run(EMPTY, ops + [op]), x)
  {
    RunOneMore(ops, op);
    RunKeeps(ops);
    ApplyKeeps(Run(EMPTY, ops), op, x);
  }

  /** What no operation ends stays. */
  lemma {:induction false} Forever(good: seq<Op> -> bool, ops: seq<Op>, more: seq<Op>)
    requires good(ops) && forall before, op :: good(before) ==> good(before + [op])
    ensures good(ops + more)
    decreases |more|
  {
    if more == [] {
      assert ops + more == ops;
    } else {
      Forever(good, ops, more[..|more| - 1]);
      assert ops + more == (ops + more[..|more| - 1]) + [more[|more| - 1]];
    }
  }

  lemma StaysSuperseded(ops: seq<Op>, more: seq<Op>, c: Id)
    requires c in Run(EMPTY, ops).candidates && Run(EMPTY, ops).candidates[c].status.Superseded?
    ensures c in Run(EMPTY, ops + more).candidates && Run(EMPTY, ops + more).candidates[c].status.Superseded?
  {
    var good := (before: seq<Op>) => c in Run(EMPTY, before).candidates && Run(EMPTY, before).candidates[c].status.Superseded?;
    forall before, op | good(before) ensures good(before + [op]) { PersistsOneMore(before, op, c); }
    Forever(good, ops, more);
  }

  lemma SupersededHasNone(st: Store, c: Id, x: Id)
    requires c in st.candidates && st.candidates[c].status.Superseded?
    ensures x in st.verifications && st.verifications[x].candidate == c ==> !VerificationAuthoritative(st, x)
    ensures x in st.reviews && st.reviews[x].candidate == c ==> !ReviewAuthoritative(st, x)
  {
  }

  /** Once a different SHA is registered for the task, no verification or review `x` of an earlier
      candidate is authoritative at any later point of the run. */
  lemma NewShaEndsAuthority(before: seq<Op>, op: Op, more: seq<Op>, c: Id, x: Id)
    requires op.DoRegister? && c in Run(EMPTY, before).candidates
    requires Run(EMPTY, before).candidates[c].task == op.task && Run(EMPTY, before).candidates[c].sha != op.sha
    ensures var st := Run(EMPTY, before + [op] + more);
      && (x in st.verifications && st.verifications[x].candidate == c ==> !VerificationAuthoritative(st, x))
      && (x in st.reviews && st.reviews[x].candidate == c ==> !ReviewAuthoritative(st, x))
  {
    JustRegistered(before, op, c);
    StaysSuperseded(before + [op], more, c);
    SupersededHasNone(Run(EMPTY, before + [op] + more), c, x);
  }

  /** Every verification of the candidate is voided. */
  ghost predicate NoneLive(st: Store, c: Id) {
    forall v | v in st.verifications && st.verifications[v].candidate == c :: st.verifications[v].invalidated
  }

  lemma NoneLiveStep(st: Store, op: Op, c: Id)
    requires NoneLive(st, c) && !(op.DoVerify? && op.id == c)
    ensures NoneLive(Apply(st, op), c)
  {
  }

  lemma Aborted(ops: seq<Op>, c: Id)
    requires Eligible(Run(EMPTY, ops), c)
    ensures NoneLive(Run(EMPTY, ops + [DoAbortVerify(c)]), c)
  {
    RunOneMore(ops, DoAbortVerify(c));
  }

  lemma NoneLiveOneMore(ops: seq<Op>, op: Op, c: Id)
    requires NoneLive(Run(EMPTY, ops), c) && !(op.DoVerify? && op.id == c)
    ensures NoneLive(Run(EMPTY, ops + [op]), c)
  {
    RunOneMore(ops, op);
    NoneLiveStep(Run(EMPTY, ops), op, c);
  }

  lemma {:induction false} StaysUnverified(ops: seq<Op>, c: Id, more: seq<Op>)
    requires NoneLive(Run(EMPTY, ops), c) && forall i | 0 <= i < |more| :: !(more[i].DoVerify? && more[i].id == c)
    ensures NoneLive(Run(EMPTY, ops + more), c)
    decreases |more|
  {
    if more == [] {
      assert ops + more == ops;
    } else {
      var init, last := more[..|more| - 1], more[|more| - 1];
      StaysUnverified(ops, c, init);
      assert ops + more == (ops + init) + [last];
      NoneLiveOneMore(ops + init, last, c);
    }
  }

  /** A verification whose hook throws takes all authority from its candidate, until it is verified anew. */
  lemma AbortEndsAuthority(ops: seq<Op>, c: Id, more: seq<Op>, v: Id)
    requires Eligible(Run(EMPTY, ops), c)
    requires forall i | 0 <= i < |more| :: !(more[i].DoVerify? && more[i].id == c)
    ensures var st := Run(EMPTY, ops + [DoAbortVerify(c)] + more);
      v in st.verifications && st.verifications[v].candidate == c ==> !VerificationAuthoritative(st, v)
  {
    Aborted(ops, c);
    StaysUnverified(ops + [DoAbortVerify(c)], c, more);
  }

  // ----- approvals -----

  /** The registration voids this approval: it finds its candidate live and outdated. */
  predicate Voids(st: Store, op: Op, ap: ApprovalRow) {
    && op.DoRegister? && ap.status.ApprovalApproved? && ap.task == op.task && ap.candidate.Some? && ap.candidate.value in st.candidates
    && var c := st.candidates[ap.candidate.value];
    && c.task == op.task && c.sha != op.sha && !c.status.Superseded?
  }

  /** An approval's row changes by being voided and in no other way. */
  lemma ApprovalStep(st: Store, op: Op, a: Id)
    requires RowsOk(st, st.next) && a in st.approvals
    ensures a in Apply(st, op).approvals
    ensures Apply(st, op).approvals[a] ==
      if Voids(st, op, st.approvals[a]) then st.approvals[a].(status := ApprovalInvalidated) else st.approvals[a]
  {
  }

  /** Some operation of `more`, after `ops`, is a hit where it is met. */
  ghost predicate SomeStep(hits: (seq<Op>, Op) -> bool, ops: seq<Op>, more: seq<Op>)
    decreases |more|
  {
    more != [] && (SomeStep(hits, ops, more[..|more| - 1]) || hits(ops + more[..|more| - 1], more[|more| - 1]))
  }

  /** Some operation of `more`, after `ops`, voids the approval `ap`. */
  ghost predicate VoidedBy(ops: seq<Op>, more: seq<Op>, ap: ApprovalRow) {
    SomeStep((before: seq<Op>, op: Op) => Voids(Run(EMPTY, before), op, ap), ops, more)
  }

  /** A flag that every hit raises and nothing else changes, on what is there to stay. */
  lemma {:induction false} FlagHistory(has: seq<Op> -> bool, flag: seq<Op> -> bool, hits: (seq<Op>, Op) -> bool, ops: seq<Op>, more: seq<Op>)
    requires has(ops)
    requires forall before, op :: has(before) ==> has(before + [op]) && (flag(before + [op]) <==> flag(before) || hits(before, op))
    ensures has(ops + more) && (flag(ops + more) <==> flag(ops) || SomeStep(hits, ops, more))
    decreases |more|
  {
    if more == [] {
      assert ops + more == ops;
    } else {
      var init, last := more[..|more| - 1], more[|more| - 1];
      FlagHistory(has, flag, hits, ops, init);
      assert ops + more == (ops + init) + [last];
    }
  }

  lemma ApprovalHistory(ops: seq<Op>, more: seq<Op>, a: Id)
    requires a in Run(EMPTY, ops).approvals
    ensures a in Run(EMPTY, ops + more).approvals
    ensures var ap := Run(EMPTY, ops).approvals[a];
      Run(EMPTY, ops + more).approvals[a] == if VoidedBy(ops, more, ap) then ap.(status := ApprovalInvalidated) else ap
  {
    var ap := Run(EMPTY, ops).approvals[a];
    var has := (before: seq<Op>) => a in Run(EMPTY, before).approvals && Run(EMPTY, before).approvals[a] in {ap, ap.(status := ApprovalInvalidated)};
    var flag := (before: seq<Op>) => a in Run(EMPTY, before).approvals && Run(EMPTY, before).approvals[a] != ap;
    var hits := (before: seq<Op>, op: Op) => Voids(Run(EMPTY, before), op, ap);
    forall before, op | has(before)
      ensures has(before + [op]) && (flag(before + [op]) <==> flag(before) || hits(before, op))
    {
      ApprovalOneMore(before, op, a);
    }
    FlagHistory(has, flag, hits, ops, more);
  }

  lemma ApprovalOneMore(ops: seq<Op>, op: Op, a: Id)
    requires a in Run(EMPTY, ops).approvals
    ensures a in Run(EMPTY, ops + [op]).approvals
    ensures var ap := Run(EMPTY, ops).approvals[a];
      Run(EMPTY, ops + [op]).approvals[a] == if Voids(Run(EMPTY, ops), op, ap) then ap.(status := ApprovalInvalidated) else ap
  {
    RunOneMore(ops, op);
    RunKeeps(ops);
    ApprovalStep(Run(EMPTY, ops), op, a);
  }

  /** An approval recorded as APPROVED is APPROVED at a later point of the run exactly when no registration
      of another SHA for its task has found its candidate not yet superseded. */
  lemma ApprovedExactlyWhen(ops: seq<Op>, task: TaskId, c: Option<Id>, more: seq<Op>)
    ensures var a := Run(EMPTY, ops).next;
      var recorded := ops + [DoApprove(task, c, ApprovalApproved)];
      && a in Run(EMPTY, recorded + more).approvals
      && (Run(EMPTY, recorded + more).approvals[a].status.ApprovalApproved? <==>
          !VoidedBy(recorded, more, ApprovalRow(task, c, ApprovalApproved)))
  {
    var op, a := DoApprove(task, c, ApprovalApproved), Run(EMPTY, ops).next;
    assert a in Run(EMPTY, ops + [op]).approvals && Run(EMPTY, ops + [op]).approvals[a] == ApprovalRow(task, c, ApprovalApproved) by {
      RunOneMore(ops, op);
    }
    ApprovalHistory(ops + [op], more, a);
  }

  /** The candidate the approval names is superseded, or it names none. */
  predicate NamesNoLiveCandidate(st: Store, a: Id) {
    a in st.approvals &&
    (st.approvals[a].candidate.Some? ==>
      st.approvals[a].candidate.value in st.candidates && st.candidates[st.approvals[a].candidate.value].status.Superseded?)
  }

  lemma {:induction false} SupersededKeepsApproval(ops: seq<Op>, more: seq<Op>, a: Id)
    requires NamesNoLiveCandidate(Run(EMPTY, ops), a)
    ensures !VoidedBy(ops, more, Run(EMPTY, ops).approvals[a])
    decreases |more|
  {
    if more != [] {
      var ap := Run(EMPTY, ops).approvals[a];
      SupersededKeepsApproval(ops, more[..|more| - 1], a);
      if ap.candidate.Some? { StaysSuperseded(ops, more[..|more| - 1], ap.candidate.value); }
    }
  }

  /** The approval names a candidate of the task, or none. */
  predicate NamesTask(st: Store, a: Id, task: TaskId) {
    a in st.approvals &&
    (st.approvals[a].candidate.Some? ==>
      st.approvals[a].candidate.value in st.candidates && st.candidates[st.approvals[a].candidate.value].task == task)
  }

  lemma TaskVoided(ops: seq<Op>, task: TaskId, a: Id)
    requires NamesTask(Run(EMPTY, ops), a, task)
    ensures NamesNoLiveCandidate(Run(EMPTY, ops + [DoInvalidateTask(task)]), a)
    ensures Run(EMPTY, ops + [DoInvalidateTask(task)]).approvals[a] == Run(EMPTY, ops).approvals[a]
  {
    RunOneMore(ops, DoInvalidateTask(task));
  }

  /** Voiding a task's evidence shields its approvals: every candidate of the task is then superseded, and no
      later registration touches an approval of any of them. */
  lemma InvalidatedTaskKeepsApprovals(ops: seq<Op>, task: TaskId, more: seq<Op>, a: Id)
    requires NamesTask(Run(EMPTY, ops), a, task)
    ensures var end := Run(EMPTY, ops + [DoInvalidateTask(task)] + more);
      a in end.approvals && end.approvals[a] == Run(EMPTY, ops).approvals[a]
  {
    var voided := ops + [DoInvalidateTask(task)];
    TaskVoided(ops, task, a);
    SupersededKeepsApproval(voided, more, a);
    ApprovalHistory(voided, more, a);
  }

  // ----- what PASS means -----

  predicate AllPass(cs: seq<Check>) {
    forall i | 0 <= i < |cs| :: cs[i].authoritative ==> cs[i].ok == Some(true)
  }

  lemma AllPassSplits(a: seq<Check>, b: seq<Check>)
    ensures AllPass(a + b) <==> AllPass(a) && AllPass(b)
  {
    var cs := a + b;
    if AllPass(cs) {
      forall i | 0 <= i < |a| ensures a[i].authoritative ==> a[i].ok == Some(true) { assert cs[i] == a[i]; }
      forall i | 0 <= i < |b| ensures b[i].authoritative ==> b[i].ok == Some(true) { assert cs[|a| + i] == b[i]; }
    }
  }

  lemma SomeCheckBehind(a: seq<Check>, b: seq<Check>, name: string)
    requires SomeCheck(b, name, Some(true))
    ensures SomeCheck(a + b, name, Some(true))
  {
    var i :| 0 <= i < |b| && b[i].authoritative && b[i].name == name && b[i].ok == Some(true);
    assert (a + b)[|a| + i] == b[i];
  }

  lemma JudgedPass(cs: seq<Check>)
    ensures Judge(cs).Pass? <==> AllPass(cs) && SomeCheck(cs, "github_landing", Some(true)) && SomeCheck(cs, "github_ci", Some(true))
  {
    if AllPass(cs) {
      assert !AnyCheck(cs, Some(false)) && !AnyCheck(cs, None);
    } else {
      var i :| 0 <= i < |cs| && cs[i].authoritative && cs[i].ok != Some(true);
      match cs[i].ok
      case None => assert AnyCheck(cs, None);
      case Some(b) =>
        assert b == false;
        assert AnyCheck(cs, Some(b));
    }
  }

  lemma HooksPass(hooks: seq<Hook>)
    ensures AllPass(HookChecks(hooks)) <==> forall i | 0 <= i < |hooks| :: hooks[i].ok
  {
    var cs := HookChecks(hooks);
    forall i | 0 <= i < |hooks| ensures (cs[i].authoritative ==> cs[i].ok == Some(true)) <==> hooks[i].ok { }
  }

  lemma GithubPasses(g: Github)
    ensures AllPass(GithubChecks(g)) <==> g.Landed? && g.landing.ci == CI_SUCCESS
    ensures AllPass(GithubChecks(g)) ==>
      SomeCheck(GithubChecks(g), "github_landing", Some(true)) && SomeCheck(GithubChecks(g), "github_ci", Some(true))
  {
    var cs := GithubChecks(g);
    assert cs[0].authoritative && cs[1].authoritative && cs[0].name == "github_landing" && cs[1].name == "github_ci";
  }

  /** PASS is given exactly when every hook passed and GitHub confirmed the landing with a completed,
      successful CI; hook names cannot bring it about. */
  lemma PassExactlyWhen(hooks: seq<Hook>, claim: bool, g: Github)
    ensures Judge(ClaimChecks(claim) + HookChecks(hooks) + GithubChecks(g)).Pass?
      <==> (forall i | 0 <= i < |hooks| :: hooks[i].ok) && g.Landed? && g.landing.ci == CI_SUCCESS
  {
    var local := ClaimChecks(claim) + HookChecks(hooks);
    JudgedPass(local + GithubChecks(g));
    AllPassSplits(local, GithubChecks(g));
    AllPassSplits(ClaimChecks(claim), HookChecks(hooks));
    assert AllPass(ClaimChecks(claim));
    HooksPass(hooks);
    GithubPasses(g);
    if AllPass(GithubChecks(g)) {
      SomeCheckBehind(local, GithubChecks(g), "github_landing");
      SomeCheckBehind(local, GithubChecks(g), "github_ci");
    }
  }

  /** FAIL is given exactly when a hook failed, GitHub contradicted the landing, or the CI failed. */
  lemma FailExactlyWhen(hooks: seq<Hook>, claim: bool, g: Github)
    ensures Judge(ClaimChecks(claim) + HookChecks(hooks) + GithubChecks(g)).Fail?
      <==> (exists i | 0 <= i < |hooks| :: !hooks[i].ok) || g.HardMismatch? || (g.Landed? && g.landing.ci != CI_SUCCESS && g.landing.ci.conclusion == "failure")
  {
    var a, b, cs := ClaimChecks(claim), HookChecks(hooks), GithubChecks(g);
    var all := a + b + cs;
    assert Judge(all).Fail? <==> AnyCheck(all, Some(false));
    if i: int :| 0 <= i < |hooks| && !hooks[i].ok {
      assert all[|a| + i] == b[i];
    }
    if g.HardMismatch? {
      assert all[|a| + |b|] == cs[0];
    }
    if g.Landed? && CiOk(g.landing.ci) == Some(false) {
      assert all[|a| + |b| + 1] == cs[1];
    }
    if i: int :| 0 <= i < |all| && all[i].authoritative && all[i].ok == Some(false) {
      if |a| <= i < |a| + |b| {
        assert all[i] == b[i - |a|] && !hooks[i - |a|].ok;
      } else if i >= |a| + |b| {
        assert all[i] == cs[i - |a| - |b|];
      }
    }
  }

  /** What a verification leaves of its candidate: VERIFIED by PASS, REJECTED by FAIL, VERIFYING otherwise, with the
      new row as its only reference, and GitHub's landing fields if it saw them. */
  lemma VerifiedCandidate(st: Store, id: Id, hooks: seq<Hook>, claim: bool, g: Github)
    requires Eligible(st, id)
    ensures var st' := Verify(st, id, hooks, claim, g);
      && id in st'.candidates && st.next in st'.verifications
      && var c, c', row := st.candidates[id], st'.candidates[id], st'.verifications[st.next];
      && row.candidate == id && row.sha == c.sha && !row.invalidated
      && c'.verification == Some(st.next) && c'.review == None
      && (c'.status.IsVerified? <==> row.result.Pass?) && (c'.status.Rejected? <==> row.result.Fail?) && (c'.status.Verifying? <==> row.result.Blocked?)
      && c'.sha == c.sha && c'.branch == c.branch && c'.task == c.task
      && (if g.Landed? then c'.pr == g.landing.pr && c'.url == g.landing.url && c'.ci == g.landing.ci
          else c'.pr == c.pr && c'.url == c.url && c'.ci == c.ci)
  {
  }

  predicate Named(hooks: seq<Hook>) {
    exists i | 0 <= i < |hooks| :: hooks[i].name == SNAPSHOT_NAME
  }

  /** The output of the first hook that calls itself the landing snapshot. */
  function Forged(hooks: seq<Hook>): Option<Snapshot>
    requires Named(hooks)
  {
    if hooks[0].name == SNAPSHOT_NAME then hooks[0].output else Forged(hooks[1..])
  }

  lemma {:induction false} SnapshotAfter(a: seq<Check>, b: seq<Check>)
    requires forall i | 0 <= i < |a| :: a[i].name != SNAPSHOT_NAME
    ensures SnapshotOf(a + b) == SnapshotOf(b)
    decreases |a|
  {
    if a == [] {
      assert a + b == b;
    } else {
      assert (a + b)[1..] == a[1..] + b;
      SnapshotAfter(a[1..], b);
    }
  }

  lemma {:induction false} HooksComeFirst(hooks: seq<Hook>, rest: seq<Check>)
    requires Named(hooks)
    ensures SnapshotOf(HookChecks(hooks) + rest) == Forged(hooks)
    decreases |hooks|
  {
    var cs := HookChecks(hooks) + rest;
    if hooks[0].name != SNAPSHOT_NAME {
      assert cs[1..] == HookChecks(hooks[1..]) + rest;
      HooksComeFirst(hooks[1..], rest);
    }
  }

  /** The snapshot authority is later checked against: the genuine one unless a hook took its name. */
  lemma SnapshotRead(c: Candidate, hooks: seq<Hook>, claim: bool, l: Landing)
    ensures SnapshotOf(VerificationChecks(c, hooks, claim, Landed(l)))
      == if Named(hooks) then Forged(hooks) else Some(TakenSnapshot(c, l))
  {
    var g := Landed(l);
    var cs := ClaimChecks(claim) + HookChecks(hooks) + GithubChecks(g);
    var own := [Check(SNAPSHOT_NAME, Some(Judge(cs).Pass?), false, Some(TakenSnapshot(c, l)))];
    assert GithubChecks(g)[0].name == "github_landing" && GithubChecks(g)[1].name == "github_ci";
    if Named(hooks) {
      var rest := GithubChecks(g) + own;
      assert cs + own == ClaimChecks(claim) + (HookChecks(hooks) + rest);
      SnapshotAfter(ClaimChecks(claim), HookChecks(hooks) + rest);
      HooksComeFirst(hooks, rest);
    } else {
      forall i | 0 <= i < |cs| ensures cs[i].name != SNAPSHOT_NAME {
        if |ClaimChecks(claim)| <= i < |ClaimChecks(claim)| + |hooks| {
          assert cs[i] == HookChecks(hooks)[i - |ClaimChecks(claim)|];
        }
      }
      SnapshotAfter(cs, own);
    }
  }

  // ----- authority -----

  /** A hook that takes the snapshot's name prints the candidate's own SHA, branch and a PR, but a CI that
      did not succeed. */
  predicate Dangerous(c: Candidate, hooks: seq<Hook>) {
    Named(hooks) && Forged(hooks).Some?
    && Forged(hooks).value.sha == c.sha && Forged(hooks).value.branch == c.branch
    && Forged(hooks).value.pr.Some? && Forged(hooks).value.ci != CI_SUCCESS
  }

  /** The step is not a verification with such a hook. */
  predicate Harmless(st: Store, op: Op) {
    op.DoVerify? && op.id in st.candidates ==> !Dangerous(st.candidates[op.id], op.hooks)
  }

  ghost predicate HarmlessRun(ops: seq<Op>)
    decreases |ops|
  {
    ops != [] ==> HarmlessRun(ops[..|ops| - 1]) && Harmless(Run(EMPTY, ops[..|ops| - 1]), ops[|ops| - 1])
  }

  /** A PASS row whose snapshot could ever match its candidate records a completed, successful CI. */
  predicate PassIsGenuine(st: Store, v: Id) {
    v in st.verifications && st.verifications[v].result.Pass? && st.verifications[v].candidate in st.candidates ==>
      var s, c := SnapshotOf(st.verifications[v].checks), st.candidates[st.verifications[v].candidate];
      s.Some? && s.value.sha == c.sha && s.value.branch == c.branch && s.value.pr.Some? ==> s.value.ci == CI_SUCCESS
  }

  lemma GenuineStep(st: Store, op: Op, v: Id)
    requires Inv(st) && PassIsGenuine(st, v) && Harmless(st, op)
    ensures PassIsGenuine(Apply(st, op), v)
  {
    assert RowsOk(st, v);
    ApplyKeeps(st, op, v);
    if op.DoVerify? && Eligible(st, op.id) && v == st.next {
      PassExactlyWhen(op.hooks, op.claim, op.github);
      if op.github.Landed? {
        SnapshotRead(st.candidates[op.id], op.hooks, op.claim, op.github.landing);
      }
    } else if v in st.verifications {
      ApplyKeeps(st, op, st.verifications[v].candidate);
    }
  }

  lemma {:induction false} GenuineRun(ops: seq<Op>, v: Id)
    requires HarmlessRun(ops)
    ensures PassIsGenuine(Run(EMPTY, ops), v)
    decreases |ops|
  {
    if ops != [] {
      GenuineRun(ops[..|ops| - 1], v);
      RunKeeps(ops[..|ops| - 1]);
      GenuineStep(Run(EMPTY, ops[..|ops| - 1]), ops[|ops| - 1], v);
    }
  }

  /** An authoritative verification is a PASS of the SHA its task registered last, whose snapshot equals the
      candidate's current record; and unless some verification of the run had a dangerous hook, the CI in
      both is completed and successful. */
  lemma AuthorityIsCurrent(ops: seq<Op>, v: Id)
    requires VerificationAuthoritative(Run(EMPTY, ops), v)
    ensures var st := Run(EMPTY, ops);
      var row := st.verifications[v];
      var c := st.candidates[row.candidate];
      && row.result.Pass? && c.verification == Some(v)
      && SnapshotOf(row.checks) == Some(Snapshot(c.sha, c.branch, Some(PrNumber(c.pr)), c.ci))
      && c.task in st.lastSha && row.sha == c.sha == st.lastSha[c.task]
      && (HarmlessRun(ops) ==> c.ci == CI_SUCCESS)
  {
    if HarmlessRun(ops) { GenuineRun(ops, v); }
    RunKeeps(ops);
    assert RowsOk(Run(EMPTY, ops), Run(EMPTY, ops).verifications[v].candidate);
  }

  /** Right after a verification without such hooks, its row is authoritative exactly when every hook passed
      and GitHub confirmed the landing with a completed, successful CI. */
  lemma AuthoritativeExactlyWhen(st: Store, id: Id, hooks: seq<Hook>, claim: bool, g: Github)
    requires Eligible(st, id) && !Named(hooks)
    ensures VerificationAuthoritative(Verify(st, id, hooks, claim, g), st.next)
      <==> (forall i | 0 <= i < |hooks| :: hooks[i].ok) && g.Landed? && g.landing.ci == CI_SUCCESS
  {
    PassExactlyWhen(hooks, claim, g);
    if g.Landed? { SnapshotRead(st.candidates[id], hooks, claim, g.landing); }
  }

  /** An authoritative review is a PASS of the same candidate and SHA as the authoritative verification
      it is bound to, and that is the candidate's only live verification. */
  lemma ReviewAuthorityIsBound(ops: seq<Op>, r: Id)
    requires ReviewAuthoritative(Run(EMPTY, ops), r)
    ensures var st := Run(EMPTY, ops);
      var row := st.reviews[r];
      && row.status.ReviewPass? && row.bound.Some? && VerificationAuthoritative(st, row.bound.value)
      && st.verifications[row.bound.value].candidate == row.candidate && st.verifications[row.bound.value].sha == row.sha
      && forall v | v in st.verifications && st.verifications[v].candidate == row.candidate && !st.verifications[v].invalidated :: v == row.bound.value
  {
    RunKeeps(ops);
    var st := Run(EMPTY, ops);
    var v := st.reviews[r].bound.value;
    assert RowsOk(st, st.reviews[r].candidate) && RowsOk(st, v);
    forall w | w in st.verifications && st.verifications[w].candidate == st.reviews[r].candidate && !st.verifications[w].invalidated
      ensures w == v
    {
      assert RowsOk(st, w);
    }
  }

  // ----- what a review stands on -----

  /** The m-th operation recorded review `r`. */
  ghost predicate RecordedAt(ops: seq<Op>, m: nat, r: Id) {
    && m < |ops| && ops[m].DoReview? && Run(EMPTY, ops[..m]).next == r && Reviewable(Run(EMPTY, ops[..m]), ops[m].id)
  }

  /** The row says what the review step was given: a PASS if none was required or the reviewer passed it, changes
      if they were requested, BLOCKED and bound to nothing without a usable answer. */
  predicate Reports(row: ReviewRow, st: Store, op: Op)
    requires op.DoReview? && op.id in st.candidates
  {
    && row.candidate == op.id && row.sha == st.candidates[op.id].sha
    && (row.status.ReviewPass? <==> !op.required || op.answer == Verdict(ReviewPass))
    && (row.status.RequestChanges? <==> op.required && op.answer == Verdict(RequestChanges))
    && row.bound == if op.required && op.answer.NoAnswer? then None else st.candidates[op.id].verification
  }

  lemma ReviewStep(st: Store, op: Op, r: Id)
    requires Inv(st) && r in Apply(st, op).reviews
    ensures r in st.reviews ==> Apply(st, op).reviews[r] == st.reviews[r].(invalidated := Apply(st, op).reviews[r].invalidated)
    ensures r !in st.reviews ==> op.DoReview? && st.next == r && Reviewable(st, op.id) && Reports(Apply(st, op).reviews[r], st, op)
  {
    ApplyKeeps(st, op, r);
  }

  /** Every review row of a run was recorded by one of its steps and reports what that step was given. */
  lemma {:induction false} ReviewHistory(ops: seq<Op>, r: Id) returns (m: nat)
    requires r in Run(EMPTY, ops).reviews
    ensures RecordedAt(ops, m, r) && Reports(Run(EMPTY, ops).reviews[r], Run(EMPTY, ops[..m]), ops[m])
    decreases |ops|
  {
    var init := ops[..|ops| - 1];
    RunKeeps(init);
    ReviewStep(Run(EMPTY, init), ops[|ops| - 1], r);
    if r in Run(EMPTY, init).reviews {
      m := ReviewHistory(init, r);
      assert init[..m] == ops[..m];
    } else {
      m := |ops| - 1;
    }
  }

  /** In every run an authoritative review stems from a step that required none or whose reviewer passed exactly
      this candidate and SHA, then authoritatively verified. */
  lemma AuthorityStemsFromAPass(ops: seq<Op>, r: Id) returns (m: nat)
    requires ReviewAuthoritative(Run(EMPTY, ops), r)
    ensures RecordedAt(ops, m, r) && (!ops[m].required || ops[m].answer == Verdict(ReviewPass))
    ensures ops[m].id == Run(EMPTY, ops).reviews[r].candidate
  {
    m := ReviewHistory(ops, r);
  }

  /** The candidate is out for good: REJECTED or SUPERSEDED. */
  predicate Out(st: Store, c: Id) {
    c in st.candidates && (st.candidates[c].status.Rejected? || st.candidates[c].status.Superseded?)
  }

  lemma OutStays(st: Store, op: Op, c: Id)
    requires Inv(st) && Out(st, c)
    ensures Out(Apply(st, op), c)
  {
    assert RowsOk(st, c) && RowsOk(st, st.next);
  }

  lemma {:induction false} OutForGood(ops: seq<Op>, more: seq<Op>, c: Id)
    requires Out(Run(EMPTY, ops), c)
    ensures Out(Run(EMPTY, ops + more), c)
    decreases |more|
  {
    if more == [] {
      assert ops + more == ops;
    } else {
      var init, last := more[..|more| - 1], more[|more| - 1];
      OutForGood(ops, init, c);
      assert ops + more == (ops + init) + [last];
      RunOneMore(ops + init, last);
      RunKeeps(ops + init);
      OutStays(Run(EMPTY, ops + init), last, c);
    }
  }

  lemma ChangesReject(ops: seq<Op>, op: Op)
    requires op.DoReview? && op.required && op.answer == Verdict(RequestChanges) && Reviewable(Run(EMPTY, ops), op.id)
    ensures Out(Run(EMPTY, ops + [op]), op.id)
  {
    RunOneMore(ops, op);
  }

  /** Requested changes reject the candidate: at no later point of the run is a verification or review of it
      authoritative again. */
  lemma RequestedChangesEndAuthority(ops: seq<Op>, op: Op, more: seq<Op>, x: Id)
    requires op.DoReview? && op.required && op.answer == Verdict(RequestChanges) && Reviewable(Run(EMPTY, ops), op.id)
    ensures var st := Run(EMPTY, ops + [op] + more);
      && Out(st, op.id)
      && (x in st.verifications && st.verifications[x].candidate == op.id ==> !VerificationAuthoritative(st, x))
      && (x in st.reviews && st.reviews[x].candidate == op.id ==> !ReviewAuthoritative(st, x))
  {
    ChangesReject(ops, op);
    OutForGood(ops + [op], more, op.id);
  }

  // ----- a hook that calls itself the snapshot -----

  /** After a PASS, a CI poll can leave the verification authoritative over a CI that did not succeed
      exactly when a hook named like the snapshot printed the candidate's own SHA and branch with such
      a CI. */
  lemma ForgeryExactlyWhen(st: Store, id: Id, hooks: seq<Hook>, claim: bool, l: Landing)
    requires Eligible(st, id) && Judge(ClaimChecks(claim) + HookChecks(hooks) + GithubChecks(Landed(l))).Pass?
    ensures (exists seen: Landing :: seen.ci != CI_SUCCESS
              && VerificationAuthoritative(Observe(Verify(st, id, hooks, claim, Landed(l)), id, seen), st.next))
      <==> Dangerous(st.candidates[id], hooks)
  {
    var c := st.candidates[id];
    var st1 := Verify(st, id, hooks, claim, Landed(l));
    SnapshotRead(c, hooks, claim, l);
    PassExactlyWhen(hooks, claim, Landed(l));
    if Dangerous(c, hooks) {
      var f := Forged(hooks).value;
      var seen := Landing(f.pr, l.url, f.ci);
      assert SnapshotMatches(f, Observe(st1, id, seen).candidates[id]);
      assert seen.ci != CI_SUCCESS && VerificationAuthoritative(Observe(st1, id, seen), st.next);
    }
  }

  /** Such a run exists for every commit, branch and CI that did not succeed: registered, verified with the
      forging hook, then polled; the CI did not succeed, and the verification is authoritative. */
  lemma FailedCiCanLookAuthoritative(task: TaskId, sha: Sha, branch: string, pr: int, bad: Ci) returns (ops: seq<Op>)
    requires bad != CI_SUCCESS
    ensures VerificationAuthoritative(Run(EMPTY, ops), 1)
    ensures 0 in Run(EMPTY, ops).candidates && Run(EMPTY, ops).candidates[0].ci != CI_SUCCESS
  {
    var good := Landing(Some(pr), "", CI_SUCCESS);
    var hook := Hook(SNAPSHOT_NAME, true, Some(Snapshot(sha, branch, Some(pr), bad)));
    var a := DoRegister(task, sha, branch, good);
    JustRegisteredIsOpen(a, hook);
    var st0 := Run(EMPTY, [a]);
    var seen := ForgedSuccess(st0, hook, good);
    ops := [a] + [DoVerify(0, [hook], false, Landed(good))] + [DoObserve(0, seen)];
    TwoMore([a], DoVerify(0, [hook], false, Landed(good)), DoObserve(0, seen));
  }

  lemma JustRegisteredIsOpen(a: Op, hook: Hook)
    requires a.DoRegister? && hook.name == SNAPSHOT_NAME && hook.output.Some?
    requires hook.output.value.sha == a.sha && hook.output.value.branch == a.branch && hook.output.value.pr.Some? && hook.output.value.ci != CI_SUCCESS
    ensures var st := Run(EMPTY, [a]); st.next == 1 && Eligible(st, 0) && Dangerous(st.candidates[0], [hook])
  {
    assert [a][..0] == [];
    assert [hook][0].name == SNAPSHOT_NAME;
  }

  lemma ForgedSuccess(st: Store, hook: Hook, good: Landing) returns (seen: Landing)
    requires Eligible(st, 0) && hook.ok && good.ci == CI_SUCCESS && Dangerous(st.candidates[0], [hook])
    ensures seen.ci != CI_SUCCESS
    ensures var end := Observe(Verify(st, 0, [hook], false, Landed(good)), 0, seen);
      VerificationAuthoritative(end, st.next) && 0 in end.candidates && end.candidates[0].ci == seen.ci
  {
    PassExactlyWhen([hook], false, Landed(good));
    ForgeryExactlyWhen(st, 0, [hook], false, good);
    seen :| seen.ci != CI_SUCCESS
      && VerificationAuthoritative(Observe(Verify(st, 0, [hook], false, Landed(good)), 0, seen), st.next);
  }

  lemma TwoMore(ops: seq<Op>, b: Op, c: Op)
    ensures Run(EMPTY, ops + [b] + [c]) == Apply(Apply(Run(EMPTY, ops), b), c)
  {
    RunOneMore(ops, b);
    RunOneMore(ops + [b], c);
  }
}
