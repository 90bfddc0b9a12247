/**
 What claiming an action, answering, releasing and committing come to, in every state a schedule reaches.
 */
module ClaimOutcomes {
  import opened Wrappers
  import opened Effects
  import opened TenantInterleaving
  import opened ClaimInterleaving
  import C = ClaimInterleaving
  import T = TrustedExecutor

  /** The call is about to claim its action. */
  ghost predicate Claiming(w: World, t: Tid, stage: Stage) {
    && t in w.infos && t in w.base.txs && w.base.txs[t].Exec? && w.base.txs[t].call.pc.AtLoad?
    && w.infos[t].semantic.Some? && w.infos[t].stage == stage
  }

  /** Who has the committed claim of an action. */
  function HolderOf(w: World, a: T.Semantic): Option<T.Workflow> {
    if a in w.claims then Some(w.claims[a]) else None
  }

  /** Another open transaction has written the action's claim row. */
  ghost predicate Busy(w: World, t: Tid, a: T.Semantic) {
    exists u | u in w.infos :: u != t && w.infos[u].semantic == Some(a) && (w.infos[u].row.Added? || w.infos[u].row.Undone? || w.infos[u].row.Removed?)
  }

  lemma BusyAlike(w: World, w': World, t: Tid, a: T.Semantic)
    requires t in w.infos && w'.infos.Keys == w.infos.Keys && forall u | u in w.infos && u != t :: w'.infos[u] == w.infos[u]
    ensures Contested(w', t, a) <==> Busy(w, t, a)
  {
    if Contested(w', t, a) {
      var u :| u in w'.infos && u != t && w'.infos[u].semantic == Some(a) && w'.infos[u].row != Untouched;
      assert w.infos[u].semantic == Some(a);
    }
    if Busy(w, t, a) {
      var u :| u in w.infos && u != t && w.infos[u].semantic == Some(a) && (w.infos[u].row.Added? || w.infos[u].row.Undone? || w.infos[u].row.Removed?);
      assert w'.infos[u].semantic == Some(a);
    }
  }

  /** The first two statements, with nothing in between: another workflow's claim turns the call away, its own lets it
      work, a free action is claimed unless another transaction has written the row, for which it waits. Nobody
      else is affected. */
  lemma ClaimAttempt(w: World, t: Tid)
    requires Claiming(w, t, Selecting)
    ensures var i, w' := w.infos[t], Do(Do(w, ClaimsNext(t)), ClaimsNext(t));
      w' == w.(infos := w.infos[t :=
        match HolderOf(w, i.semantic.value)
        case Some(wf) => if wf == i.workflow then i.(stage := Working, held := true) else i.(stage := Turned)
        case None => if Busy(w, t, i.semantic.value) then i.(stage := Adding) else i.(stage := Working, held := true, row := Added)])
  {
    var w1 := Do(w, ClaimsNext(t));
    assert w1.infos == w.infos[t := w1.infos[t]];
    BusyAlike(w, w1, t, w.infos[t].semantic.value);
  }

  /** The INSERT meets a claim that was committed after the SELECT: that claim decides, and the call breaks exactly
      when it has been given back before it is read. */
  lemma LostInsert(w: World, t: Tid, claims: map<T.Semantic, T.Workflow>)
    requires Claiming(w, t, Adding) && !Busy(w, t, w.infos[t].semantic.value) && w.infos[t].semantic.value in w.claims
    ensures var i, w' := w.infos[t], Do(Do(w, ClaimsNext(t)).(claims := claims), ClaimsNext(t));
      w' == w.(claims := claims, infos := w.infos[t :=
        if i.semantic.value !in claims then i.(stage := Broken)
        else if claims[i.semantic.value] == i.workflow then i.(stage := Working, held := true) else i.(stage := Turned)])
  {
    BusyAlike(w, w, t, w.infos[t].semantic.value);
  }

  /** Giving the claim back: an own uncommitted INSERT is undone, a committed own claim removed unless another
      transaction has written the row, for which it waits, and anything else is left alone. */
  lemma ReleaseDecides(w: World, t: Tid)
    requires t in w.infos && w.infos[t].stage.Releasing? && w.infos[t].semantic.Some?
    ensures var i, w' := w.infos[t], Do(w, ReleasesClaim(t));
      var own := HolderOf(w, i.semantic.value) == Some(i.workflow);
      w' == w.(infos := w.infos[t :=
        if i.row == Added then i.(stage := Answered, row := Undone)
        else if own && Busy(w, t, i.semantic.value) then i
        else i.(stage := Answered, row := if own then Removed else i.row)])
  {
    BusyAlike(w, w, t, w.infos[t].semantic.value);
  }

  /** What the call answers at each point at which it can return. */
  predicate Says(x: Call, a: Answer) {
    match x.pc
    case AtBranch => x.row.Some? && x.row.value.status.Completed? && a == Report(x.row.value.outcome, false)
    case AtAdapterCommit => x.row.Some? && x.row.value.status.Completed? && a == Report(x.row.value.outcome, true)
    case AtCrashPoint => a == Crash
    case AtCompleteUpdate => a == Report(Some(match x.post case Verified => Succeeded case Failed => NotSucceeded case _ => OutcomeAmbiguous), false)
    case AtAuthority => a == Denial
    case AtReread => a == Denial
    case _ => false
  }

  /** In every schedule a statement with which a call returns gives exactly the answer its program point stands for, and
      the claim is to be given back exactly for a held one and a denial, or a report other than a success that was
      not found after the own INSERT. No other statement answers. */
  lemma AnswersTell(acts: seq<Act>, t: Tid, c: Choice)
    requires var w := C.After(START, acts); t in w.infos && t in w.base.txs && w.base.txs[t].Exec? && w.infos[t].answer.NoAnswer?
    ensures var w, w' := C.After(START, acts), Do(C.After(START, acts), Advances(t, c));
      && t in w'.infos && w'.claims == w.claims && w'.wins == w.wins && w'.infos == w.infos[t := w'.infos[t]]
      && var i, i' := w.infos[t], w'.infos[t];
      if i'.answer.NoAnswer? then i' == i
      else
        && Says(w.base.txs[t].call, i'.answer)
        && i' == i.(answer := i'.answer, stage := i'.stage)
        && i'.stage == (if i.held && (i'.answer == Denial || (i'.answer.Report? && !i'.answer.raced && i'.answer.outcome != Some(Succeeded)))
                        then Releasing else Answered)
  {
    AfterSound(acts);
    AnswerStep(C.After(START, acts), t, c);
  }

  lemma AnswerStep(w: World, t: Tid, c: Choice)
    requires Sound(w) && t in w.infos && w.infos[t].answer.NoAnswer?
    ensures var w', x, i := CallStmt(w, t, c), w.base.txs[t].call, w.infos[t];
      && t in w'.infos && w'.claims == w.claims && w'.wins == w.wins && w'.infos == w.infos[t := w'.infos[t]]
      && (w'.infos[t] == i || (Says(x, AnswerOf(x)) && w'.infos[t] == Reply(i, AnswerOf(x))))
  {
    assert InfoOk(w.claims, w.base.txs[t].call, w.infos[t]);
    AdvanceReturns(w.base, t, c);
  }

  lemma AdvanceReturns(s: State, t: Tid, c: Choice)
    requires Inv(s) && t in s.txs && s.txs[t].Exec?
    ensures var s' := Step(s, Advance(t, c));
      && t in s'.txs && s'.txs[t].Exec?
      && (s'.txs[t].call.pc.Returned? && !s.txs[t].call.pc.Returned? ==> Says(s.txs[t].call, AnswerOf(s.txs[t].call)))
  {
    var x := s.txs[t].call;
    assert TxInv(ViewOf(s, t), t, s.txs[t]);
    ReturnPoints(ViewOf(s, t), t, x, AroundOf(s, t, x), c);
  }

  lemma ReturnPoints(v: View, t: Tid, x: Call, e: Around, c: Choice)
    requires CallInv(v, t, x)
    ensures var m := ExecStmt(v, t, x, e, c); m.Move? && m.call.pc.Returned? ==> Says(x, AnswerOf(x))
  {
  }

  /** A commit of an answered call publishes its claim row and counts a claimed success, and changes nothing of others;
      a call turned away is rolled back; any other stays open. */
  lemma CommitPublishes(acts: seq<Act>, t: Tid)
    requires t in C.After(START, acts).infos
    ensures var w, w' := C.After(START, acts), Do(C.After(START, acts), Commits(t));
      && t in w.base.txs && (w.infos[t].row != Untouched ==> w.infos[t].semantic.Some?)
      && var i := w.infos[t];
      if i.stage.Turned? then w' == w.(base := Step(w.base, RollbackTx(t)), infos := w.infos - {t})
      else if !i.stage.Answered? || !CanCommit(w.base.txs[t]) then w' == w
      else
        && w.base.txs[t].Exec? && w'.base == Step(w.base, CommitTx(t)) && w'.infos == w.infos - {t}
        && w'.claims == (match i.row
                         case Added => w.claims[i.semantic.value := i.workflow]
                         case Removed => w.claims - {i.semantic.value}
                         case _ => w.claims)
        && w'.wins == (if i.answer.Report? && i.answer.outcome == Some(Succeeded) && i.semantic.Some?
                       then w.wins + [Win(i.semantic.value, i.workflow, w.base.txs[t].call.key)] else w.wins)
  {
    AfterSound(acts);
    var w := C.After(START, acts);
    assert InfoOk(w.claims, w.base.txs[t].call, w.infos[t]);
  }

  /** A rollback undoes whatever the call did to the claim row. */
  lemma RollbackDrops(w: World, t: Tid)
    ensures var w' := Do(w, RollsBack(t)); w'.claims == w.claims && w'.wins == w.wins && w'.infos == w.infos - {t} && w'.base == Step(w.base, RollbackTx(t))
  {
  }
}
