/**
 What each operation on the evidence store does to each row, and hence which rows are live at any point of a run.
 */
module EvidenceSteps {
  import opened Wrappers
  import opened Evidence
  import opened EvidenceGuarantees

  /** The candidate is live, of the task, and carries another SHA. */
  predicate Replaced(c: Candidate, task: TaskId, sha: Sha) {
    c.task == task && c.sha != sha && c.status != Superseded
  }

  /** A landing refresh of a verified-once candidate brought another pull request, URL or CI. */
  predicate Outlanded(st: Store, id: Id, l: Landing) {
    && id in st.candidates && st.candidates[id].verification != None
    && (PrNumber(st.candidates[id].pr) != PrNumber(l.pr) || st.candidates[id].url != l.url || st.candidates[id].ci != l.ci)
  }

  /** A verification can be taken of it. */
  predicate Open(st: Store, id: Id) {
    id in st.candidates && st.candidates[id].status != Superseded && st.candidates[id].status != Rejected
  }

  predicate OfTask(st: Store, id: Id, task: TaskId) {
    id in st.candidates && st.candidates[id].task == task
  }

  /** The operation voids verification `v`, a row of candidate `of`. */
  predicate VoidsVerification(st: Store, op: Op, v: Id, of: Id) {
    match op
    case DoRegister(task, sha, _, _) => exists c | c in st.candidates :: Replaced(st.candidates[c], task, sha) && st.candidates[c].verification == Some(v)
    case DoRefresh(id, l) => Outlanded(st, id, l) && st.candidates[id].verification == Some(v)
    case DoMismatch(id) => id in st.candidates && st.candidates[id].verification == Some(v)
    case DoVerify(id, _, _, _) => Open(st, id) && of == id
    case DoAbortVerify(id) => Open(st, id) && of == id
    case DoVoidVerification(id) => id == v
    case DoInvalidateTask(task) => OfTask(st, of, task)
    case _ => false
  }

  /** The operation voids review `r`, a row of candidate `of`. */
  predicate VoidsReview(st: Store, op: Op, r: Id, of: Id) {
    match op
    case DoRegister(task, sha, _, _) => exists c | c in st.candidates :: Replaced(st.candidates[c], task, sha) && st.candidates[c].review == Some(r)
    case DoRefresh(id, l) => Outlanded(st, id, l) && st.candidates[id].review == Some(r)
    case DoMismatch(id) => id in st.candidates && st.candidates[id].review == Some(r)
    case DoVerify(id, _, _, _) => Open(st, id) && of == id
    case DoAbortVerify(id) => Open(st, id) && of == id
    case DoVoidReview(id) => id == r
    case DoInvalidateTask(task) => OfTask(st, of, task)
    case _ => false
  }

  lemma VerificationStep(st: Store, op: Op, v: Id)
    requires RowsOk(st, st.next) && v in st.verifications
    ensures v in Apply(st, op).verifications
    ensures var row := st.verifications[v];
      Apply(st, op).verifications[v] == if VoidsVerification(st, op, v, row.candidate) then row.(invalidated := true) else row
  {
  }

  lemma ReviewRowStep(st: Store, op: Op, r: Id)
    requires RowsOk(st, st.next) && r in st.reviews
    ensures r in Apply(st, op).reviews
    ensures var row := st.reviews[r];
      Apply(st, op).reviews[r] == if VoidsReview(st, op, r, row.candidate) then row.(invalidated := true) else row
  {
  }

  /** A candidate after an operation, where that is not its own verification or review. */
  lemma CandidateStep(st: Store, op: Op, c: Id)
    requires RowsOk(st, st.next) && c in st.candidates
    ensures c in Apply(st, op).candidates
    ensures var x, y := st.candidates[c], Apply(st, op).candidates[c];
      match op
      case DoRegister(task, sha, _, _) => y == if Replaced(x, task, sha) then x.(status := Superseded) else x
      case DoRefresh(id, l) =>
        y == if id != c then x
              else if !Outlanded(st, id, l) then x.(pr := l.pr, url := l.url, ci := l.ci)
              else x.(pr := l.pr, url := l.url, ci := l.ci, verification := None, review := None,
                        status := if x.status == IsVerified then Proposed else x.status)
      case DoObserve(id, l) => y == if id == c then x.(pr := l.pr, url := l.url, ci := l.ci) else x
      case DoVerify(id, _, _, _) => id == c || y == x
      case DoAbortVerify(id) => y == if id == c && Open(st, c) then x.(review := None) else x
      case DoReview(id, required, answer) =>
        y == if id != c || !Reviewable(st, c) then x
              else if required && answer == Verdict(RequestChanges) then x.(review := Some(st.next), status := Rejected)
              else x.(review := Some(st.next))
      case DoInvalidateTask(task) => y == if x.task == task then x.(status := Superseded) else x
      case _ => y == x
  {
  }

  /** What a registration and an approval add, and that nothing else adds a candidate or an approval. */
  lemma AddsItself(st: Store, op: Op)
    ensures var st' := Apply(st, op);
      && st'.candidates.Keys == (if op.DoRegister? then st.candidates.Keys + {st.next} else st.candidates.Keys)
      && st'.approvals.Keys == (if op.DoApprove? then st.approvals.Keys + {st.next} else st.approvals.Keys)
    ensures op.DoRegister? ==>
      Apply(st, op).candidates[st.next] == Candidate(op.task, op.sha, op.branch, op.landing.pr, op.landing.url, op.landing.ci, Proposed, None, None)
    ensures op.DoApprove? ==> Apply(st, op).approvals[st.next] == ApprovalRow(op.task, op.candidate, op.approval)
  {
  }

  /** Only a verification adds a verification, only a review a review. */
  lemma AddsJudgment(st: Store, op: Op)
    ensures Apply(st, op).verifications.Keys == st.verifications.Keys + (if op.DoVerify? && Open(st, op.id) then {st.next} else {})
    ensures Apply(st, op).reviews.Keys == st.reviews.Keys + (if op.DoReview? && Reviewable(st, op.id) then {st.next} else {})
  {
  }

  lemma VerificationOneMore(ops: seq<Op>, op: Op, v: Id)
    requires v in Run(EMPTY, ops).verifications
    ensures v in Run(EMPTY, ops + [op]).verifications
    ensures var row := Run(EMPTY, ops).verifications[v];
      Run(EMPTY, ops + [op]).verifications[v] == if VoidsVerification(Run(EMPTY, ops), op, v, row.candidate) then row.(invalidated := true) else row
  {
    RunOneMore(ops, op);
    RunKeeps(ops);
    VerificationStep(Run(EMPTY, ops), op, v);
  }

  lemma ReviewOneMore(ops: seq<Op>, op: Op, r: Id)
    requires r in Run(EMPTY, ops).reviews
    ensures r in Run(EMPTY, ops + [op]).reviews
    ensures var row := Run(EMPTY, ops).reviews[r];
      Run(EMPTY, ops + [op]).reviews[r] == if VoidsReview(Run(EMPTY, ops), op, r, row.candidate) then row.(invalidated := true) else row
  {
    RunOneMore(ops, op);
    RunKeeps(ops);
    ReviewRowStep(Run(EMPTY, ops), op, r);
  }

  /** At every later point of every run a verification is the row it was, invalidated exactly when it was already or
      some operation since has voided it: a new SHA or changed landing while its candidate refers to it, a poll of
      another branch or head, a new or thrown verification of its candidate, or an explicit or task-wide voiding. */
  lemma VerificationLiveExactlyWhen(ops: seq<Op>, more: seq<Op>, v: Id)
    requires v in Run(EMPTY, ops).verifications
    ensures var row := Run(EMPTY, ops).verifications[v];
      var voids := (before: seq<Op>, op: Op) => VoidsVerification(Run(EMPTY, before), op, v, row.candidate);
      && v in Run(EMPTY, ops + more).verifications
      && Run(EMPTY, ops + more).verifications[v] == row.(invalidated := row.invalidated || SomeStep(voids, ops, more))
  {
    var row := Run(EMPTY, ops).verifications[v];
    var has := (before: seq<Op>) => v in Run(EMPTY, before).verifications && Run(EMPTY, before).verifications[v].(invalidated := row.invalidated) == row;
    var flag := (before: seq<Op>) => v in Run(EMPTY, before).verifications && Run(EMPTY, before).verifications[v].invalidated;
    var voids := (before: seq<Op>, op: Op) => VoidsVerification(Run(EMPTY, before), op, v, row.candidate);
    forall before, op | has(before)
      ensures has(before + [op]) && (flag(before + [op]) <==> flag(before) || voids(before, op))
    {
      VerificationOneMore(before, op, v);
    }
    FlagHistory(has, flag, voids, ops, more);
  }

  /** And so is a review. */
  lemma ReviewLiveExactlyWhen(ops: seq<Op>, more: seq<Op>, r: Id)
    requires r in Run(EMPTY, ops).reviews
    ensures var row := Run(EMPTY, ops).reviews[r];
      var voids := (before: seq<Op>, op: Op) => VoidsReview(Run(EMPTY, before), op, r, row.candidate);
      && r in Run(EMPTY, ops + more).reviews
      && Run(EMPTY, ops + more).reviews[r] == row.(invalidated := row.invalidated || SomeStep(voids, ops, more))
  {
    var row := Run(EMPTY, ops).reviews[r];
    var has := (before: seq<Op>) => r in Run(EMPTY, before).reviews && Run(EMPTY, before).reviews[r].(invalidated := row.invalidated) == row;
    var flag := (before: seq<Op>) => r in Run(EMPTY, before).reviews && Run(EMPTY, before).reviews[r].invalidated;
    var voids := (before: seq<Op>, op: Op) => VoidsReview(Run(EMPTY, before), op, r, row.candidate);
    forall before, op | has(before)
      ensures has(before + [op]) && (flag(before + [op]) <==> flag(before) || voids(before, op))
    {
      ReviewOneMore(before, op, r);
    }
    FlagHistory(has, flag, voids, ops, more);
  }
}
