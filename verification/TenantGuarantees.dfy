/**
 What every schedule of TenantInterleaving guarantees: reconciliation repairs exclude effects, every
 fresh commit was re-authorised, a key is committed once and every row carries its token.
 */
module TenantGuarantees {
  import opened Wrappers
  import opened Effects
  import opened TenantInterleaving

  // ----- rows, tokens and receipts -----

  /** Every COMMITTED or COMPLETED row of a key, committed or still pending in some transaction,
      carries exactly the adapter's token; a committed row is COMPLETED exactly when its receipt is
      committed, and then they agree. */
  lemma RowsCarryTheToken(ls: seq<Label>, k: Key)
    ensures var s := Run(EMPTY, ls);
      && (k in s.ledger ==> Settled(s.adapter, k, s.ledger[k]) && (s.ledger[k].status.Completed? <==> k in s.receipts))
      && (k in s.receipts ==>
          && k in s.ledger && Agree(s.ledger[k], s.receipts[k])
          && (s.ledger[k].outcome == Some(Succeeded) <==> s.receipts[k].verification.VVerified?))
      && (forall t | t in s.txs && s.txs[t].Exec? && k in s.txs[t].call.ledgerW ::
            !s.txs[t].call.ledgerW[k].status.Pending? ==>
              Settled(s.adapter, k, s.txs[t].call.ledgerW[k]))
  {
    RunKeeps(ls);
    var s := Run(EMPTY, ls);
    assert KeyFacts(ViewOf(s, 0), k);
    forall t | t in s.txs && s.txs[t].Exec? && k in s.txs[t].call.ledgerW
      ensures !s.txs[t].call.ledgerW[k].status.Pending? ==>
                Settled(s.adapter, k, s.txs[t].call.ledgerW[k])
    {
      assert TxInv(ViewOf(s, t), t, s.txs[t]);
    }
  }

  /** In every reachable state a committed row blocks a REPAIR exactly while its effect is unsettled: it has no
      receipt, or one that is neither VERIFIED nor FAILED. */
  lemma BlockingMeansUnsettled(ls: seq<Label>, k: Key)
    requires k in Run(EMPTY, ls).ledger
    ensures var s := Run(EMPTY, ls);
      BlockingRow(s.ledger[k]) <==> !(k in s.receipts && (s.receipts[k].verification.VVerified? || s.receipts[k].verification.VFailed?))
  {
    RunKeeps(ls);
    assert KeyFacts(ViewOf(Run(EMPTY, ls), 0), k);
  }

  ghost predicate Extends(s: State, s': State) {
    && (forall k | k in s.adapter :: k in s'.adapter && s'.adapter[k] == s.adapter[k])
    && (forall k | k in s.receipts :: k in s'.receipts && s'.receipts[k] == s.receipts[k])
    && (forall k | k in s.ledger && s.ledger[k].status.Completed? :: k in s'.ledger && s'.ledger[k] == s.ledger[k])
  }

  lemma CommitExtends(s: State, t: Tid, x: Call)
    requires Inv(s) && t in s.txs && s.txs[t] == Exec(x) && x.pc.Returned?
    ensures Extends(s, End(s, t, true))
  {
    assert TxInv(ViewOf(s, t), t, s.txs[t]);
    forall k
      ensures k in x.receiptW ==> k !in s.receipts
      ensures k in s.ledger && k in x.ledgerW ==> s.ledger[k].status.Committed?
    {
      assert KeyFacts(ViewOf(s, 0), k);
      Publish(ViewOf(s, t), t, x, k);
    }
  }

  lemma ApplyExtends(s: State, t: Tid, x: Call, m: Stmt)
    requires m.Move? && m.commit ==> x.key !in s.adapter
    ensures Extends(s, Apply(s, t, x, m))
  {
  }

  lemma StepExtends(s: State, l: Label)
    requires Inv(s)
    ensures Extends(s, Step(s, l))
  {
    match l
    case Advance(t, c) =>
      if t in s.txs && s.txs[t].Exec? {
        var x := s.txs[t].call;
        OnlyAdapterCommits(ViewOf(s, t), t, x, AroundOf(s, t, x), c);
        ApplyExtends(s, t, x, ExecStmt(ViewOf(s, t), t, x, AroundOf(s, t, x), c));
      }
    case CommitTx(t) =>
      if t in s.txs && CanCommit(s.txs[t]) && s.txs[t].Exec? {
        CommitExtends(s, t, s.txs[t].call);
      }
    case _ =>
  }

  /** Whatever happens after `ls`, tokens, receipts and completed rows stay exactly as they are. */
  lemma {:induction false} CompletedForever(ls: seq<Label>, more: seq<Label>)
    ensures Extends(Run(EMPTY, ls), Run(EMPTY, ls + more))
    decreases |more|
  {
    if more == [] {
      assert ls + more == ls;
    } else {
      var init, last := more[..|more| - 1], more[|more| - 1];
      CompletedForever(ls, init);
      assert (ls + more)[..|ls + more| - 1] == ls + init;
      RunKeeps(ls + init);
      StepExtends(Run(EMPTY, ls + init), last);
    }
  }

  // ----- reconciliation repairs exclude effects -----

  /** From a REPAIR's re-check to the end of its transaction it holds the scope lock, no committed row
      its filter selects is blocking, and no other open transaction has an uncommitted ledger row. */
  lemma RepairExcludesEffects(ls: seq<Label>, t: Tid)
    requires var s := Run(EMPTY, ls); t in s.txs && s.txs[t].Rec? && s.txs[t].rec.repairing
    ensures var s := Run(EMPTY, ls);
      && s.lock == Some(t)
      && NoBlocking(s.ledger, s.txs[t].rec.filter)
      && (forall u | u in s.txs && s.txs[u].Exec? :: s.txs[u].call.ledgerW == map[])
  {
    RunKeeps(ls);
    var s := Run(EMPTY, ls);
    assert TxInv(ViewOf(s, t), t, s.txs[t]);
    forall u | u in s.txs && s.txs[u].Exec? ensures s.txs[u].call.ledgerW == map[] {
      assert TxInv(ViewOf(s, u), u, s.txs[u]);
    }
  }

  // ----- the log -----

  predicate ByTx(e: Event, t: Tid) {
    !e.AuthoritySet? && e.t == t
  }

  /** The authority in force before the i-th event. */
  function AuthorityAt(log: seq<Event>, i: nat): Option<Authority>
    requires i <= |log|
  {
    if i == 0 then None
    else if log[i - 1].AuthoritySet? then log[i - 1].authority
    else AuthorityAt(log, i - 1)
  }

  /** The i-th event is a re-read that found authority active with the epochs of the same call's
      earlier policy decision. */
  ghost predicate Permits(log: seq<Event>, i: nat) {
    && i < |log| && log[i].Reread?
    && (exists p | 0 <= p < i ::
          log[p].Decided? && log[p].t == log[i].t && CommitAllowed(log[i].seen, log[p].seen))
  }

  /** Some re-read of `t` before the j-th event permitted a commit. */
  ghost predicate PermittedBefore(log: seq<Event>, j: nat, t: Tid) {
    exists i | 0 <= i < j :: Permits(log, i) && log[i].t == t
  }

  /** Transaction ids in the log are used up, and every authority a call recorded was in force. */
  ghost predicate Stamped(s: State) {
    && (forall i | 0 <= i < |s.log| :: !s.log[i].AuthoritySet? ==> s.log[i].t < s.next)
    && (forall i | 0 <= i < |s.log| && (s.log[i].Decided? || s.log[i].Reread?) :: AuthorityAt(s.log, i) == Some(s.log[i].seen))
    && s.authority == AuthorityAt(s.log, |s.log|)
  }

  /** A fresh commit put its token in the adapter, is the only one of its key, and comes after the
      call's re-read, which permitted it. */
  ghost predicate Vetted(adapter: map<Key, Token>, log: seq<Event>) {
    && (forall j | 0 <= j < |log| && log[j].FreshCommit? ::
          && log[j].key in adapter && adapter[log[j].key] == log[j].token
          && PermittedBefore(log, j, log[j].t))
    && (forall i, j | 0 <= i < j < |log| && log[i].FreshCommit? && log[j].FreshCommit? :: log[i].key != log[j].key)
    && (forall i, j | 0 <= i < |log| && 0 <= j < |log| && log[i].Reread? && log[j].FreshCommit? && log[i].t == log[j].t ::
          i < j && Permits(log, i))
  }

  ghost predicate EndedBetween(log: seq<Event>, i: int, j: int, t: Tid) {
    exists m | i < m < j && 0 <= m < |log| :: log[m] == Ended(t)
  }

  ghost predicate StillRepairing(s: State, t: Tid) {
    t in s.txs && s.txs[t].Rec? && s.txs[t].rec.repairing
  }

  /** A commit never falls between a repair's re-check and the end of its transaction. */
  ghost predicate Fenced(s: State) {
    && (forall i, j | 0 <= i < j < |s.log| && s.log[i].RepairChecked? && s.log[j].FreshCommit? ::
          EndedBetween(s.log, i, j, s.log[i].t))
    && (forall i | 0 <= i < |s.log| && s.log[i].RepairChecked? ::
          EndedBetween(s.log, i, |s.log|, s.log[i].t) || StillRepairing(s, s.log[i].t))
  }

  predicate BeforeReread(pc: ExecPc) {
    pc.AtAuthority? || pc.AtLoad? || pc.AtBranch? || pc.AtRecreateLock? || pc.AtRecreateInsert?
    || pc.AtPromoteLock? || pc.AtPromoteUpdate? || pc.AtReread?
  }

  predicate MayCommit(pc: ExecPc) {
    pc.AtPendingLock? || pc.AtPendingInsert? || pc.AtReload? || pc.AtAdapterCommit?
  }

  /** What the log says about an open call at each program point. */
  ghost predicate CallLog(log: seq<Event>, t: Tid, x: Call) {
    && (BeforeReread(x.pc) ==> forall i | 0 <= i < |log| :: ByTx(log[i], t) ==> !log[i].Reread? && !log[i].FreshCommit?)
    && (MayCommit(x.pc) ==>
          && (forall i | 0 <= i < |log| :: ByTx(log[i], t) ==> !log[i].FreshCommit? && (log[i].Reread? ==> Permits(log, i)))
          && PermittedBefore(log, |log|, t))
    && (x.decision.Some? ==> exists p | 0 <= p < |log| :: log[p] == Decided(t, x.decision.value))
  }

  ghost predicate LogInv(s: State) {
    && Stamped(s)
    && Vetted(s.adapter, s.log)
    && Fenced(s)
    && (forall t | t in s.txs && s.txs[t].Exec? :: CallLog(s.log, t, s.txs[t].call))
  }

  lemma {:induction false} AuthorityAtPrefix(log: seq<Event>, more: seq<Event>, i: nat)
    requires i <= |log|
    ensures AuthorityAt(log + more, i) == AuthorityAt(log, i)
  {
    if i > 0 { AuthorityAtPrefix(log, more, i - 1); }
  }

  lemma PermitsPrefix(log: seq<Event>, more: seq<Event>, i: nat)
    requires i < |log|
    ensures Permits(log + more, i) <==> Permits(log, i)
  {
    if Permits(log, i) {
      var p :| 0 <= p < i && log[p].Decided? && log[p].t == log[i].t && CommitAllowed(log[i].seen, log[p].seen);
      assert (log + more)[p] == log[p];
    }
    if Permits(log + more, i) {
      var p :| 0 <= p < i && (log + more)[p].Decided? && (log + more)[p].t == log[i].t && CommitAllowed(log[i].seen, (log + more)[p].seen);
      assert (log + more)[p] == log[p];
    }
  }

  /** How one step and the events it logs hang together. */
  ghost predicate Logged(s: State, s': State, es: seq<Event>) {
    && s'.log == s.log + es && |es| <= 1 && s'.next >= s.next
    && (forall u | StillRepairing(s, u) :: StillRepairing(s', u) || es == [Ended(u)])
    && (if es == [] then s'.authority == s.authority && s'.adapter == s.adapter
        else match es[0]
          case AuthoritySet(a) => s'.authority == a && s'.adapter == s.adapter
          case Decided(t, a) => s'.authority == s.authority == Some(a) && s'.adapter == s.adapter && t < s.next
          case Reread(t, a) =>
            && s'.authority == s.authority == Some(a) && s'.adapter == s.adapter && t < s.next
            && t in s.txs && s.txs[t].Exec? && s.txs[t].call.pc.AtReread?
          case FreshCommit(t, k, token) =>
            && s'.authority == s.authority && t < s.next && k !in s.adapter && s'.adapter == s.adapter[k := token]
            && s.lock == Some(t) && t in s.txs && s.txs[t].Exec? && s.txs[t].call.pc.AtAdapterCommit?
          case RepairChecked(t) => s'.authority == s.authority && s'.adapter == s.adapter && t < s.next && StillRepairing(s', t)
          case Ended(t) => s'.authority == s.authority && s'.adapter == s.adapter && t < s.next)
  }

  function Emitted(s: State, s': State): seq<Event> {
    if |s'.log| > |s.log| then s'.log[|s.log|..] else []
  }

  /** Only the adapter statement commits, under the scope lock, and only a key the adapter lacks. */
  lemma CommitHoldsTheLock(v: View, t: Tid, x: Call, e: Around, c: Choice)
    requires CallInv(v, t, x)
    ensures var m := ExecStmt(v, t, x, e, c);
      m.Move? && m.commit ==> v.locked && x.pc.AtAdapterCommit? && x.key !in v.adapter
  {
    OnlyAdapterCommits(v, t, x, e, c);
    if x.pc.AtAdapterCommit? { AdapterCommitLocked(v, t, x); }
  }

  lemma OnlyAdapterCommits(v: View, t: Tid, x: Call, e: Around, c: Choice)
    ensures var m := ExecStmt(v, t, x, e, c); m.Move? && m.commit ==> x.pc.AtAdapterCommit? && x.key !in v.adapter
  {
  }

  lemma AdapterCommitLocked(v: View, t: Tid, x: Call)
    requires CallInv(v, t, x) && x.pc.AtAdapterCommit?
    ensures AdapterStmt(v, t, x).Move? && AdapterStmt(v, t, x).commit ==> v.locked
  {
  }

  lemma ExecLogged(s: State, t: Tid, x: Call, m: Stmt)
    requires t in s.txs && s.txs[t] == Exec(x) && t < s.next
    requires m.Move? && m.commit ==> s.lock == Some(t) && x.pc.AtAdapterCommit? && x.key !in s.adapter
    ensures Logged(s, Apply(s, t, x, m), Emitted(s, Apply(s, t, x, m)))
  {
  }

  lemma RecLogged(s: State, t: Tid, x: Reconcile, c: Choice)
    requires t in s.txs && s.txs[t] == Rec(x) && t < s.next
    ensures Logged(s, RecApply(s, t, x, c), Emitted(s, RecApply(s, t, x, c)))
  {
  }

  lemma EndLogged(s: State, t: Tid, keep: bool)
    requires t in s.txs && t < s.next
    ensures Logged(s, End(s, t, keep), Emitted(s, End(s, t, keep)))
  {
  }

  lemma OpeningLogged(s: State, l: Label)
    requires l.SetAuthority? || l.BeginExec? || l.BeginRec?
    requires s.next !in s.txs
    ensures Logged(s, Step(s, l), Emitted(s, Step(s, l)))
  {
  }

  lemma StepLogged(s: State, l: Label, s': State)
    requires Inv(s) && s' == Step(s, l)
    ensures Logged(s, s', Emitted(s, s'))
  {
    assert forall t | t in s.txs :: t < s.next;
    match l
    case Advance(t, c) =>
      if t in s.txs {
        match s.txs[t]
        case Exec(x) =>
          assert TxInv(ViewOf(s, t), t, s.txs[t]);
          CommitHoldsTheLock(ViewOf(s, t), t, x, AroundOf(s, t, x), c);
          ExecLogged(s, t, x, ExecStmt(ViewOf(s, t), t, x, AroundOf(s, t, x), c));
        case Rec(x) => RecLogged(s, t, x, c);
      }
    case CommitTx(t) => if t in s.txs { EndLogged(s, t, true); }
    case RollbackTx(t) => if t in s.txs { EndLogged(s, t, false); }
    case _ => OpeningLogged(s, l);
  }

  lemma StampedStep(s: State, s': State, es: seq<Event>)
    requires Stamped(s) && Logged(s, s', es)
    ensures Stamped(s')
  {
    forall i: nat | i <= |s.log| ensures AuthorityAt(s'.log, i) == AuthorityAt(s.log, i) {
      AuthorityAtPrefix(s.log, es, i);
    }
  }

  /** A permitted re-read stays where it was when the log grows. */
  lemma PermittedPrefix(log: seq<Event>, more: seq<Event>, j: nat, t: Tid)
    requires j <= |log| && PermittedBefore(log, j, t)
    ensures PermittedBefore(log + more, j, t)
  {
    var i :| 0 <= i < j && Permits(log, i) && log[i].t == t;
    PermitsPrefix(log, more, i);
    assert (log + more)[i] == log[i];
  }

  lemma VettedAppend(adapter: map<Key, Token>, log: seq<Event>, e: Event)
    requires Vetted(adapter, log) && !e.FreshCommit?
    requires e.Reread? ==> forall i | 0 <= i < |log| :: ByTx(log[i], e.t) ==> !log[i].FreshCommit?
    ensures Vetted(adapter, log + [e])
  {
    forall j: nat | j < |log| && log[j].FreshCommit?
      ensures PermittedBefore(log + [e], j, log[j].t)
    {
      PermittedPrefix(log, [e], j, log[j].t);
    }
    forall i: nat | i < |log| ensures Permits(log + [e], i) <==> Permits(log, i) { PermitsPrefix(log, [e], i); }
  }

  lemma VettedCommit(adapter: map<Key, Token>, log: seq<Event>, t: Tid, k: Key, token: Token)
    requires Vetted(adapter, log) && k !in adapter
    requires forall i | 0 <= i < |log| :: ByTx(log[i], t) ==> !log[i].FreshCommit? && (log[i].Reread? ==> Permits(log, i))
    requires PermittedBefore(log, |log|, t)
    ensures Vetted(adapter[k := token], log + [FreshCommit(t, k, token)])
  {
    var e := FreshCommit(t, k, token);
    PermittedPrefix(log, [e], |log|, t);
    forall j: nat | j < |log| && log[j].FreshCommit?
      ensures PermittedBefore(log + [e], j, log[j].t)
    {
      PermittedPrefix(log, [e], j, log[j].t);
    }
    forall i: nat | i < |log| ensures Permits(log + [e], i) <==> Permits(log, i) { PermitsPrefix(log, [e], i); }
  }

  lemma VettedStep(s: State, s': State, es: seq<Event>)
    requires LogInv(s) && Logged(s, s', es)
    ensures Vetted(s'.adapter, s'.log)
  {
    if es == [] {
      assert s'.log == s.log;
    } else if es[0].FreshCommit? {
      assert CallLog(s.log, es[0].t, s.txs[es[0].t].call);
      assert es == [es[0]];
      VettedCommit(s.adapter, s.log, es[0].t, es[0].key, es[0].token);
    } else {
      if es[0].Reread? { assert CallLog(s.log, es[0].t, s.txs[es[0].t].call); }
      assert es == [es[0]];
      VettedAppend(s.adapter, s.log, es[0]);
    }
  }

  lemma FencedStep(s: State, s': State, es: seq<Event>)
    requires Inv(s) && Fenced(s) && Logged(s, s', es)
    ensures Fenced(s')
  {
    var log, log' := s.log, s'.log;
    forall i, j | 0 <= i < j <= |log| && log[i].RepairChecked? && EndedBetween(log, i, j, log[i].t)
      ensures EndedBetween(log', i, j, log[i].t) && EndedBetween(log', i, |log'|, log[i].t)
    {
      var m :| i < m < j && 0 <= m < |log| && log[m] == Ended(log[i].t);
      assert log'[m] == log[m];
    }
    forall i | 0 <= i < |log| && log[i].RepairChecked?
      ensures EndedBetween(log', i, |log'|, log[i].t) || StillRepairing(s', log[i].t)
      ensures es != [] && es[0].FreshCommit? ==> EndedBetween(log', i, |log|, log[i].t)
    {
      if StillRepairing(s, log[i].t) {
        assert TxInv(ViewOf(s, log[i].t), log[i].t, s.txs[log[i].t]);
        if es == [Ended(log[i].t)] { assert log'[|log|] == es[0]; }
      }
    }
  }

  lemma CallLogDecided(log: seq<Event>, t: Tid, x: Call, a: Authority, pc: ExecPc)
    requires CallLog(log, t, x) && x.pc.AtAuthority? && (pc.Returned? || pc.AtLoad?)
    ensures CallLog(log + [Decided(t, a)], t, x.(decision := Some(a), pc := pc))
  {
    assert (log + [Decided(t, a)])[|log|] == Decided(t, a);
  }

  lemma CallLogReread(log: seq<Event>, t: Tid, x: Call, a: Authority)
    requires CallLog(log, t, x) && x.pc.AtReread? && x.decision.Some? && CommitAllowed(a, x.decision.value)
    ensures CallLog(log + [Reread(t, a)], t, x.(reread := Some(a), pc := AtPendingLock))
  {
    var log' := log + [Reread(t, a)];
    var p :| 0 <= p < |log| && log[p] == Decided(t, x.decision.value);
    assert log'[p] == log[p] && log'[|log|] == Reread(t, a);
    assert Permits(log', |log|);
  }

  /** Past the last point where the log matters, only the recorded decision has to stay. */
  lemma CallLogLater(log: seq<Event>, es: seq<Event>, t: Tid, x: Call, y: Call)
    requires CallLog(log, t, x) && y.decision == x.decision && !BeforeReread(y.pc) && !MayCommit(y.pc)
    ensures CallLog(log + es, t, y)
  {
    if x.decision.Some? {
      var p :| 0 <= p < |log| && log[p] == Decided(t, x.decision.value);
      assert (log + es)[p] == log[p];
    }
  }

  /** Which program points a statement connects, as far as the log is concerned. */
  predicate Connects(x: Call, m: Stmt, authority: Option<Authority>)
    requires m.Move?
  {
    || (!BeforeReread(m.call.pc) && !MayCommit(m.call.pc) && m.call.decision == x.decision)
    || (x.pc.AtAuthority? && authority.Some? && !m.commit && (m.call.pc.Returned? || m.call.pc.AtLoad?)
        && m.call == x.(decision := authority, pc := m.call.pc))
    || (x.pc.AtReread? && authority.Some? && !m.commit && x.decision.Some? && CommitAllowed(authority.value, x.decision.value)
        && m.call == x.(reread := authority, pc := AtPendingLock))
    || (BeforeReread(x.pc) && BeforeReread(m.call.pc) && !x.pc.AtAuthority? && !x.pc.AtReread? && !m.commit && m.call.decision == x.decision)
    || (MayCommit(x.pc) && MayCommit(m.call.pc) && !m.commit && m.call.decision == x.decision)
  }

  lemma EarlyStmtConnects(v: View, t: Tid, x: Call, e: Around, c: Choice)
    requires BeforeReread(x.pc)
    ensures var m := ExecStmt(v, t, x, e, c); m.Move? ==> Connects(x, m, e.authority)
  {
  }

  lemma LateStmtConnects(v: View, t: Tid, x: Call, e: Around, c: Choice)
    requires MayCommit(x.pc)
    ensures var m := ExecStmt(v, t, x, e, c); m.Move? ==> Connects(x, m, e.authority)
  {
  }

  lemma FinalStmtConnects(v: View, t: Tid, x: Call, e: Around, c: Choice)
    requires !BeforeReread(x.pc) && !MayCommit(x.pc)
    ensures var m := ExecStmt(v, t, x, e, c);
      m.Move? ==> !BeforeReread(m.call.pc) && !MayCommit(m.call.pc) && m.call.decision == x.decision
  {
    match x.pc
    case AtMarkCommitted =>
    case AtCrashPoint =>
    case AtReceipt =>
    case AtCompleteLock =>
    case AtCompleteUpdate =>
    case _ =>
  }

  /** A statement of a call leaves the log facts its next program point needs. */
  lemma CallLogMoves(s: State, t: Tid, x: Call, m: Stmt, c: Choice)
    requires CallLog(s.log, t, x) && m == ExecStmt(ViewOf(s, t), t, x, AroundOf(s, t, x), c) && m.Move?
    ensures CallLog(s.log + EventsOf(s, t, x, m), t, m.call)
  {
    if BeforeReread(x.pc) {
      EarlyStmtConnects(ViewOf(s, t), t, x, AroundOf(s, t, x), c);
    } else if MayCommit(x.pc) {
      LateStmtConnects(ViewOf(s, t), t, x, AroundOf(s, t, x), c);
    } else {
      FinalStmtConnects(ViewOf(s, t), t, x, AroundOf(s, t, x), c);
    }
    if !BeforeReread(m.call.pc) && !MayCommit(m.call.pc) && m.call.decision == x.decision {
      CallLogLater(s.log, EventsOf(s, t, x, m), t, x, m.call);
    } else if x.pc.AtAuthority? {
      CallLogDecided(s.log, t, x, s.authority.value, m.call.pc);
    } else if x.pc.AtReread? {
      CallLogReread(s.log, t, x, s.authority.value);
    } else {
      assert s.log + EventsOf(s, t, x, m) == s.log;
    }
  }

  /** Another transaction's event says nothing about this call. */
  lemma CallLogFrame(log: seq<Event>, e: Event, t: Tid, x: Call)
    requires CallLog(log, t, x) && !ByTx(e, t)
    ensures CallLog(log + [e], t, x)
  {
    var log' := log + [e];
    forall i: nat | i < |log| ensures log'[i] == log[i] && (Permits(log', i) <==> Permits(log, i)) {
      PermitsPrefix(log, [e], i);
    }
    if MayCommit(x.pc) { PermittedPrefix(log, [e], |log|, t); }
    if x.decision.Some? {
      var p :| 0 <= p < |log| && log[p] == Decided(t, x.decision.value);
      assert log'[p] == log[p];
    }
  }

  /** A step of another transaction `u` leaves `t` alone and logs nothing about it. */
  predicate LeavesAlone(s: State, s': State, t: Tid)
    requires t in s.txs
  {
    && t in s'.txs && s'.txs[t] == s.txs[t] && |s'.log| <= |s.log| + 1
    && (s'.log == s.log || (|s'.log| == |s.log| + 1 && s'.log == s.log + [s'.log[|s.log|]] && !ByTx(s'.log[|s.log|], t)))
  }

  lemma AdvanceLeavesAlone(s: State, u: Tid, c: Choice, t: Tid)
    requires t in s.txs && u in s.txs && u != t
    ensures LeavesAlone(s, Step(s, Advance(u, c)), t)
  {
    match s.txs[u]
    case Exec(x) =>
      var m := ExecStmt(ViewOf(s, u), u, x, AroundOf(s, u, x), c);
      if m.Move? { ApplyLeavesAlone(s, u, x, m, t); }
    case Rec(x) =>
  }

  lemma ApplyLeavesAlone(s: State, u: Tid, x: Call, m: Stmt, t: Tid)
    requires t in s.txs && u in s.txs && u != t && m.Move?
    ensures LeavesAlone(s, Apply(s, u, x, m), t)
  {
  }

  lemma EndLeavesAlone(s: State, u: Tid, keep: bool, t: Tid)
    requires t in s.txs && u in s.txs && u != t
    ensures LeavesAlone(s, End(s, u, keep), t)
  {
  }

  lemma OthersUntouched(s: State, l: Label, t: Tid)
    requires t in s.txs && t < s.next && t in Step(s, l).txs && !(l.Advance? && l.t == t)
    ensures LeavesAlone(s, Step(s, l), t)
  {
    match l
    case Advance(u, c) => if u in s.txs { AdvanceLeavesAlone(s, u, c, t); }
    case CommitTx(u) => if u in s.txs && u != t { EndLeavesAlone(s, u, true, t); }
    case RollbackTx(u) => if u in s.txs && u != t { EndLeavesAlone(s, u, false, t); }
    case _ =>
  }

  /** A transaction that was not open before has just begun. */
  lemma JustBegun(s: State, l: Label, t: Tid)
    requires t !in s.txs && t in Step(s, l).txs
    ensures var s' := Step(s, l);
      s'.log == s.log && t == s.next && (s'.txs[t].Exec? ==> s'.txs[t].call.pc.AtAuthority? && s'.txs[t].call.decision.None?)
  {
  }

  lemma CallsStep(s: State, l: Label, t: Tid)
    requires Inv(s) && LogInv(s) && t in Step(s, l).txs && Step(s, l).txs[t].Exec?
    ensures CallLog(Step(s, l).log, t, Step(s, l).txs[t].call)
  {
    var s' := Step(s, l);
    if l.Advance? && l.t == t {
      var x := s.txs[t].call;
      var m := ExecStmt(ViewOf(s, t), t, x, AroundOf(s, t, x), l.choice);
      if m.Move? { CallLogMoves(s, t, x, m, l.choice); }
    } else if t in s.txs {
      OthersUntouched(s, l, t);
      if s'.log != s.log {
        CallLogFrame(s.log, s'.log[|s.log|], t, s.txs[t].call);
      }
    } else {
      JustBegun(s, l, t);
      JustBegunLog(s, t, s'.txs[t].call);
    }
  }

  lemma JustBegunLog(s: State, t: Tid, x: Call)
    requires Stamped(s) && t == s.next && x.pc.AtAuthority? && x.decision.None?
    ensures CallLog(s.log, t, x)
  {
  }

  lemma LogStep(s: State, l: Label)
    requires Inv(s) && LogInv(s)
    ensures LogInv(Step(s, l))
  {
    var s' := Step(s, l);
    var es := Emitted(s, s');
    StepLogged(s, l, Step(s, l));
    StampedStep(s, s', es);
    VettedStep(s, s', es);
    FencedStep(s, s', es);
    forall t | t in s'.txs && s'.txs[t].Exec? ensures CallLog(s'.log, t, s'.txs[t].call) {
      CallsStep(s, l, t);
    }
  }

  lemma {:induction false} LogKeeps(ls: seq<Label>)
    ensures LogInv(Run(EMPTY, ls))
    decreases |ls|
  {
    if ls != [] {
      var init := ls[..|ls| - 1];
      LogKeeps(init);
      RunKeeps(init);
      LogStep(Run(EMPTY, init), ls[|ls| - 1]);
    }
  }

  // ----- what the log of every schedule shows -----

  /** With authority changing between any two statements, every fresh adapter commit comes after a
      re-read of the same call; every re-read of that call precedes the commit and found the
      authority then in force active with both epochs of the call's recorded decision. */
  lemma CommitsWereReauthorised(ls: seq<Label>, j: nat)
    requires var log := Run(EMPTY, ls).log; j < |log| && log[j].FreshCommit?
    ensures var log := Run(EMPTY, ls).log;
      && PermittedBefore(log, j, log[j].t)
      && (forall i: nat | i < |log| && log[i].Reread? && log[i].t == log[j].t ::
            i < j && Permits(log, i) && AuthorityAt(log, i) == Some(log[i].seen))
  {
    LogKeeps(ls);
    CommitsVettedIn(Run(EMPTY, ls), j);
  }

  lemma CommitsVettedIn(s: State, j: nat)
    requires Stamped(s) && Vetted(s.adapter, s.log) && j < |s.log| && s.log[j].FreshCommit?
    ensures PermittedBefore(s.log, j, s.log[j].t)
      && (forall i: nat | i < |s.log| && s.log[i].Reread? && s.log[i].t == s.log[j].t ::
            i < j && Permits(s.log, i) && AuthorityAt(s.log, i) == Some(s.log[i].seen))
  {
  }

  /** A call whose re-read found authority inactive or an epoch changed never commits, before or after. */
  lemma ChangedEpochNeverCommits(ls: seq<Label>, i: nat, j: nat)
    requires var log := Run(EMPTY, ls).log; i < |log| && j < |log| && log[i].Reread? && !Permits(log, i)
    requires var log := Run(EMPTY, ls).log; ByTx(log[j], log[i].t)
    ensures !Run(EMPTY, ls).log[j].FreshCommit?
  {
    LogKeeps(ls);
  }

  /** In every schedule with every crash, a key is freshly committed at most once, and the adapter
      still holds that commit's token. */
  lemma OneFreshCommitPerKey(ls: seq<Label>, i: nat, j: nat)
    requires var log := Run(EMPTY, ls).log; i < |log| && j < |log| && log[i].FreshCommit? && log[j].FreshCommit?
    ensures var s := Run(EMPTY, ls);
      && (s.log[i].key == s.log[j].key ==> i == j)
      && s.log[i].key in s.adapter && s.adapter[s.log[i].key] == s.log[i].token
  {
    LogKeeps(ls);
  }

  /** No adapter commit falls between a repair's re-check and the end of its transaction. */
  lemma NoCommitDuringRepair(ls: seq<Label>, i: nat, j: nat)
    requires var log := Run(EMPTY, ls).log; i < j < |log| && log[i].RepairChecked? && log[j].FreshCommit?
    ensures var log := Run(EMPTY, ls).log; EndedBetween(log, i, j, log[i].t)
  {
    LogKeeps(ls);
  }

  // ----- what a denied gate stops -----

  /** The m-th statement is the authority read of `t`, and no gate denies the call. */
  ghost predicate AdmittedAt(ls: seq<Label>, m: nat, t: Tid) {
    && m < |ls| && ls[m].Advance? && ls[m].t == t && !ls[m].choice.deny
    && var s := Run(EMPTY, ls[..m]);
    && s.authority.Some? && t in s.txs && s.txs[t].Exec? && s.txs[t].call.pc.AtAuthority?
  }

  ghost predicate Admitted(ls: seq<Label>, t: Tid) {
    exists m | 0 <= m < |ls| :: AdmittedAt(ls, m, t)
  }

  lemma AdmittedLater(ls: seq<Label>, t: Tid)
    requires ls != [] && Admitted(ls[..|ls| - 1], t)
    ensures Admitted(ls, t)
  {
    var init := ls[..|ls| - 1];
    var m :| 0 <= m < |init| && AdmittedAt(init, m, t);
    assert init[..m] == ls[..m] && init[m] == ls[m];
    assert AdmittedAt(ls, m, t);
  }

  /** The call has done nothing: it waits for its authority read, or has returned with no write. */
  predicate Idle(x: Tx) {
    x.Exec? && (x.call.pc.AtAuthority? || x.call.pc.Returned?) && Clean(x.call)
  }

  lemma IdleStmt(v: View, t: Tid, x: Call, e: Around, c: Choice)
    requires Idle(Exec(x))
    ensures var m := ExecStmt(v, t, x, e, c);
      && (x.pc.Returned? ==> m.Wait?)
      && (m.Move? ==> !m.commit && (Idle(Exec(m.call)) || (!c.deny && e.authority.Some?)))
      && (m.Move? && (c.deny || e.authority.None?) ==> Idle(Exec(m.call)) && m.call.pc.Returned?)
  {
  }

  /** A step leaves an open call idle, or admits it. */
  lemma IdleStep(s: State, l: Label, t: Tid)
    requires t in s.txs && t < s.next && Idle(s.txs[t]) && t in Step(s, l).txs
    ensures Idle(Step(s, l).txs[t])
      || (l.Advance? && l.t == t && !l.choice.deny && s.authority.Some? && s.txs[t].call.pc.AtAuthority?)
  {
    if l.Advance? && l.t == t {
      var x := s.txs[t].call;
      IdleStmt(ViewOf(s, t), t, x, AroundOf(s, t, x), l.choice);
    } else {
      OthersUntouched(s, l, t);
    }
  }

  lemma BegunIdle(s: State, l: Label, t: Tid)
    requires t !in s.txs && t in Step(s, l).txs && Step(s, l).txs[t].Exec?
    ensures Idle(Step(s, l).txs[t])
  {
  }

  lemma StaysExec(s: State, l: Label, t: Tid)
    requires t in s.txs && t < s.next && t in Step(s, l).txs
    ensures Step(s, l).txs[t].Exec? == s.txs[t].Exec?
  {
    if !(l.Advance? && l.t == t) { OthersUntouched(s, l, t); }
  }

  /** In every schedule an open call has been admitted, or has done nothing. */
  lemma {:induction false} AdmittedOrIdle(ls: seq<Label>, t: Tid)
    requires t in Run(EMPTY, ls).txs && Run(EMPTY, ls).txs[t].Exec?
    ensures Admitted(ls, t) || Idle(Run(EMPTY, ls).txs[t])
    decreases |ls|
  {
    var init, l := ls[..|ls| - 1], ls[|ls| - 1];
    var s := Run(EMPTY, init);
    if t !in s.txs {
      BegunIdle(s, l, t);
    } else {
      RunKeeps(init);
      assert t < s.next;
      StaysExec(s, l, t);
      AdmittedOrIdle(init, t);
      if Admitted(init, t) {
        AdmittedLater(ls, t);
      } else {
        IdleStep(s, l, t);
        if !Idle(Step(s, l).txs[t]) { assert AdmittedAt(ls, |ls| - 1, t); }
      }
    }
  }

  /** Whoever adds its key to the adapter is an open call past its authority read. */
  lemma FreshStep(s: State, l: Label, j: nat)
    requires |s.log| <= j < |Step(s, l).log| && Step(s, l).log[j].FreshCommit?
    ensures var t := Step(s, l).log[j].t; t in s.txs && s.txs[t].Exec? && !Idle(s.txs[t])
  {
    match l
    case Advance(t, c) =>
      if t in s.txs && s.txs[t].Exec? {
        var x := s.txs[t].call;
        OnlyAdapterCommits(ViewOf(s, t), t, x, AroundOf(s, t, x), c);
        if Idle(s.txs[t]) { IdleStmt(ViewOf(s, t), t, x, AroundOf(s, t, x), c); }
      }
    case _ =>
  }

  lemma StepLogs(s: State, l: Label)
    ensures |s.log| <= |Step(s, l).log| && Step(s, l).log[..|s.log|] == s.log
  {
  }

  /** In every schedule each fresh commit follows an authority read of the same call that no gate denied. */
  lemma {:induction false} CommitsWereAdmitted(ls: seq<Label>, j: nat)
    requires j < |Run(EMPTY, ls).log| && Run(EMPTY, ls).log[j].FreshCommit?
    ensures Admitted(ls, Run(EMPTY, ls).log[j].t)
    decreases |ls|
  {
    var init, l := ls[..|ls| - 1], ls[|ls| - 1];
    var s := Run(EMPTY, init);
    var t := Run(EMPTY, ls).log[j].t;
    StepLogs(s, l);
    if j < |s.log| {
      assert s.log[j] == Step(s, l).log[..|s.log|][j];
      CommitsWereAdmitted(init, j);
    } else {
      FreshStep(s, l, j);
      AdmittedOrIdle(init, t);
    }
    AdmittedLater(ls, t);
  }

  /** The call has returned without a write, or is over. */
  predicate Harmless(s: State, t: Tid) {
    t < s.next && (t in s.txs ==> Idle(s.txs[t]) && s.txs[t].call.pc.Returned?)
  }

  lemma NextStep(s: State, l: Label)
    ensures s.next <= Step(s, l).next
  {
  }

  lemma HarmlessStep(s: State, l: Label, t: Tid)
    requires Harmless(s, t)
    ensures Harmless(Step(s, l), t)
  {
    NextStep(s, l);
    if t in s.txs && t in Step(s, l).txs {
      if l.Advance? && l.t == t {
        var x := s.txs[t].call;
        IdleStmt(ViewOf(s, t), t, x, AroundOf(s, t, x), l.choice);
      } else {
        OthersUntouched(s, l, t);
      }
    } else if t in Step(s, l).txs {
      JustBegun(s, l, t);
    }
  }

  lemma HarmlessOneMore(ls: seq<Label>, l: Label, t: Tid)
    requires Harmless(Run(EMPTY, ls), t)
    ensures Harmless(Run(EMPTY, ls + [l]), t)
  {
    assert (ls + [l])[..|ls|] == ls;
    HarmlessStep(Run(EMPTY, ls), l, t);
  }

  lemma {:induction false} StaysHarmless(ls: seq<Label>, more: seq<Label>, t: Tid)
    requires Harmless(Run(EMPTY, ls), t)
    ensures Harmless(Run(EMPTY, ls + more), t)
    decreases |more|
  {
    if more == [] {
      assert ls + more == ls;
    } else {
      var init := more[..|more| - 1];
      StaysHarmless(ls, init, t);
      assert ls + more == (ls + init) + [more[|more| - 1]];
      HarmlessOneMore(ls + init, more[|more| - 1], t);
    }
  }

  lemma DeniedIsHarmless(s: State, t: Tid, c: Choice)
    requires Inv(s) && t in s.txs && s.txs[t].Exec? && s.txs[t].call.pc.AtAuthority? && (c.deny || s.authority.None?)
    ensures Harmless(Step(s, Advance(t, c)), t)
  {
    var x := s.txs[t].call;
    assert TxInv(ViewOf(s, t), t, s.txs[t]);
    NextStep(s, Advance(t, c));
    IdleStmt(ViewOf(s, t), t, x, AroundOf(s, t, x), c);
  }

  lemma HarmlessEnds(s: State, t: Tid, keep: bool)
    requires t in s.txs && Harmless(s, t)
    ensures End(s, t, keep).ledger == s.ledger && End(s, t, keep).receipts == s.receipts && End(s, t, keep).adapter == s.adapter
  {
    assert s.ledger + map[] == s.ledger && s.receipts + map[] == s.receipts;
  }

  /** A call that a gate denies, or whose authority cannot be read, has returned without a write, and stays so as
      long as it is open; ending it, either way, changes no table. */
  lemma DeniedCallsWriteNothing(ls: seq<Label>, t: Tid, c: Choice, more: seq<Label>, keep: bool)
    requires var s := Run(EMPTY, ls);
      && t in s.txs && s.txs[t].Exec? && s.txs[t].call.pc.AtAuthority? && (c.deny || s.authority.None?)
    ensures var s := Run(EMPTY, ls + [Advance(t, c)] + more);
      && Harmless(s, t)
      && (t in s.txs ==> End(s, t, keep).ledger == s.ledger && End(s, t, keep).receipts == s.receipts && End(s, t, keep).adapter == s.adapter)
  {
    RunKeeps(ls);
    DeniedIsHarmless(Run(EMPTY, ls), t, c);
    assert (ls + [Advance(t, c)])[..|ls|] == ls;
    StaysHarmless(ls + [Advance(t, c)], more, t);
    var s := Run(EMPTY, ls + [Advance(t, c)] + more);
    if t in s.txs { HarmlessEnds(s, t, keep); }
  }

  // ----- calls that meet each other -----

  /** The statement needs the scope lock. */
  predicate NeedsTheLock(pc: ExecPc) {
    pc.AtRecreateLock? || pc.AtPromoteLock? || pc.AtPendingLock? || pc.AtCompleteLock?
  }

  /** In every reachable state a statement of an open call waits exactly when it needs the scope lock and another
      transaction holds it, or inserts a receipt while another has an uncommitted one of its key, or none is left;
      and it fails exactly when it inserts a receipt of a key that has got a committed one, or rebuilds a lost row
      that has been rebuilt. */
  lemma WaitsAndFailsExactlyWhen(ls: seq<Label>, t: Tid, c: Choice)
    requires t in Run(EMPTY, ls).txs && Run(EMPTY, ls).txs[t].Exec?
    ensures var s, s' := Run(EMPTY, ls), Run(EMPTY, ls + [Advance(t, c)]);
      var x := s.txs[t].call;
      var busy := exists u | u in s.txs :: u != t && s.txs[u].Exec? && x.key in s.txs[u].call.receiptW;
      && (s' == s <==> x.pc.Returned? || x.pc.Failure? || (NeedsTheLock(x.pc) && s.lock.Some? && s.lock != Some(t)) || (x.pc.AtReceipt? && busy))
      && t in s'.txs && s'.txs[t].Exec?
      && (s'.txs[t].call.pc.Failure? <==>
            x.pc.Failure? || (x.pc.AtReceipt? && !busy && x.key in s.receipts) || (x.pc.AtRecreateInsert? && x.key in s.ledger))
  {
    var s := Run(EMPTY, ls);
    RunKeeps(ls);
    assert (ls + [Advance(t, c)])[..|ls|] == ls;
    assert TxInv(ViewOf(s, t), t, s.txs[t]) && KeyFacts(ViewOf(s, 0), s.txs[t].call.key);
    StmtWaitsAndFails(ViewOf(s, t), t, s.txs[t].call, AroundOf(s, t, s.txs[t].call), c);
  }

  lemma StmtWaitsAndFails(v: View, t: Tid, x: Call, e: Around, c: Choice)
    requires CallInv(v, t, x) && KeyFacts(v, x.key)
    ensures var m := ExecStmt(v, t, x, e, c);
      && (m.Wait? <==> x.pc.Returned? || x.pc.Failure? || (NeedsTheLock(x.pc) && !e.lockFree) || (x.pc.AtReceipt? && e.receiptBusy))
      && (m.Move? ==> (m.call.pc.Failure? <==> (x.pc.AtReceipt? && x.key in v.receipts) || (x.pc.AtRecreateInsert? && x.key in v.ledger)))
  {
  }

  /** A call whose own INSERT met the committed row of another never reaches the adapter: it returns on a COMPLETED
      row and goes on to complete a COMMITTED one; a call with its own row marks it, and commits unless the
      adapter has the key. */
  lemma InsertDecides(ls: seq<Label>, t: Tid, c: Choice)
    requires t in Run(EMPTY, ls).txs && Run(EMPTY, ls).txs[t].Exec? && Run(EMPTY, ls).txs[t].call.pc.AtAdapterCommit?
    ensures var s, s' := Run(EMPTY, ls), Run(EMPTY, ls + [Advance(t, c)]);
      var x := s.txs[t].call;
      && t in s'.txs && s'.txs[t].Exec?
      && s'.txs[t].call == x.(pc := if x.key !in s.ledger then AtMarkCommitted
                                    else if s.ledger[x.key].status.Completed? then Returned else AtReceipt)
      && s'.adapter == (if x.key in s.ledger || x.key in s.adapter then s.adapter else s.adapter[x.key := s.next])
  {
    var s := Run(EMPTY, ls);
    RunKeeps(ls);
    assert (ls + [Advance(t, c)])[..|ls|] == ls;
    assert TxInv(ViewOf(s, t), t, s.txs[t]) && KeyFacts(ViewOf(s, 0), s.txs[t].call.key);
    StmtInsertDecides(ViewOf(s, t), t, s.txs[t].call, AroundOf(s, t, s.txs[t].call), c);
  }

  lemma StmtInsertDecides(v: View, t: Tid, x: Call, e: Around, c: Choice)
    requires CallInv(v, t, x) && KeyFacts(v, x.key) && x.pc.AtAdapterCommit? && (x.key in v.ledger ==> v.ledger[x.key].effectId != t)
    ensures ExecStmt(v, t, x, e, c) ==
      Move(x.(pc := if x.key !in v.ledger then AtMarkCommitted else if v.ledger[x.key].status.Completed? then Returned else AtReceipt),
           false, x.key !in v.ledger && x.key !in v.adapter)
  {
  }

  /** The filter of a re-check selects by capability, by key, by both, or everything. */
  lemma FilterSelects(f: Filter, k: Key, row: LedgerRow)
    ensures Matches(f, k, row) <==>
      match (f.capability, f.key)
      case (None, None) => true
      case (Some(c), None) => row.capability == c
      case (None, Some(key)) => k == key
      case (Some(c), Some(key)) => row.capability == c && k == key
  {
  }

  // ----- the log is true -----

  /** What the log gains by one step: a fresh commit exactly when the adapter gains that key and token by a statement of
      that call, a repair check exactly when that reconciliation enters its REPAIR, an end exactly when that
      transaction is over, a decision or re-read exactly when that call reads that authority, and nothing else. */
  ghost predicate Tells(s: State, s': State, l: Label, e: Event) {
    match e
    case AuthoritySet(a) => l == SetAuthority(a) && s'.authority == a
    case Ended(t) => (l == CommitTx(t) || l == RollbackTx(t)) && t in s.txs && t !in s'.txs
    case FreshCommit(t, k, token) => l.Advance? && l.t == t && k !in s.adapter && s'.adapter == s.adapter[k := token]
    case RepairChecked(t) => l.Advance? && l.t == t && t in s.txs && s.txs[t].Rec? && s.txs[t].rec.pc.AtRecheck? && StillRepairing(s', t)
    case Decided(t, a) => l.Advance? && l.t == t && t in s.txs && s.txs[t].Exec? && s.txs[t].call.pc.AtAuthority? && s.authority == Some(a)
    case Reread(t, a) => l.Advance? && l.t == t && t in s.txs && s.txs[t].Exec? && s.txs[t].call.pc.AtReread? && s.authority == Some(a)
  }

  /** Every state change that an event stands for. */
  ghost predicate Eventful(s: State, s': State, l: Label) {
    || s'.authority != s.authority || s'.adapter != s.adapter || (exists t | t in s.txs :: t !in s'.txs)
    || (l.Advance? && l.t in s.txs && s.txs[l.t].Rec? && s.txs[l.t].rec.pc.AtRecheck? && StillRepairing(s', l.t))
    || (l.Advance? && l.t in s.txs && s.txs[l.t].Exec? && s.authority.Some? && (s.txs[l.t].call.pc.AtAuthority? || s.txs[l.t].call.pc.AtReread?))
  }

  lemma LogTellsExactly(s: State, l: Label)
    ensures var s' := Step(s, l);
      && |s.log| <= |s'.log| <= |s.log| + 1 && s'.log[..|s.log|] == s.log
      && (s'.log != s.log ==> Tells(s, s', l, s'.log[|s.log|]))
      && (Eventful(s, s', l) ==> s'.log != s.log)
  {
    match l
    case Advance(t, c) =>
      if t in s.txs {
        if s.txs[t].Exec? { ExecTells(s, t, c); } else { RecTells(s, t, c); }
      }
    case SetAuthority(_) =>
    case BeginExec(_, _) =>
    case BeginRec(_, _, _) =>
    case CommitTx(t) => if t in s.txs { EndTells(s, t, true); }
    case RollbackTx(t) => if t in s.txs { EndTells(s, t, false); }
  }

  lemma EndTells(s: State, t: Tid, keep: bool)
    requires t in s.txs
    ensures var s' := End(s, t, keep); s'.log == s.log + [Ended(t)] && t !in s'.txs && s'.adapter == s.adapter && s'.authority == s.authority
  {
  }

  lemma RecTells(s: State, t: Tid, c: Choice)
    requires t in s.txs && s.txs[t].Rec?
    ensures var s' := Step(s, Advance(t, c));
      && s'.txs.Keys == s.txs.Keys && s'.adapter == s.adapter && s'.authority == s.authority
      && s'.log == if s.txs[t].rec.pc.AtRecheck? && StillRepairing(s', t) then s.log + [RepairChecked(t)] else s.log
  {
  }

  lemma ExecTells(s: State, t: Tid, c: Choice)
    requires t in s.txs && s.txs[t].Exec?
    ensures var s', x := Step(s, Advance(t, c)), s.txs[t].call;
      && s'.txs.Keys == s.txs.Keys && s'.authority == s.authority
      && (x.key !in s.adapter || s'.adapter == s.adapter)
      && s'.log == if s'.adapter != s.adapter then s.log + [FreshCommit(t, x.key, s.next)]
                   else if s.authority.Some? && x.pc.AtAuthority? then s.log + [Decided(t, s.authority.value)]
                   else if s.authority.Some? && x.pc.AtReread? then s.log + [Reread(t, s.authority.value)] else s.log
    ensures var s', x := Step(s, Advance(t, c)), s.txs[t].call;
      s'.adapter != s.adapter ==> x.key !in s.adapter && s'.adapter == s.adapter[x.key := s.next] && x.pc.AtAdapterCommit?
  {
    var x := s.txs[t].call;
    OnlyAdapterCommits(ViewOf(s, t), t, x, AroundOf(s, t, x), c);
    if x.pc.AtAuthority? || x.pc.AtReread? { ReadsMove(ViewOf(s, t), t, x, AroundOf(s, t, x), c); }
    AdvanceTells(s, t, x, ExecStmt(ViewOf(s, t), t, x, AroundOf(s, t, x), c));
  }

  lemma ReadsMove(v: View, t: Tid, x: Call, e: Around, c: Choice)
    requires x.pc.AtAuthority? || x.pc.AtReread?
    ensures var m := ExecStmt(v, t, x, e, c); m.Move? && !m.commit
  {
  }

  lemma AdvanceTells(s: State, t: Tid, x: Call, m: Stmt)
    requires t in s.txs && s.txs[t] == Exec(x) && (m.Move? && m.commit ==> x.pc.AtAdapterCommit? && x.key !in s.adapter)
    ensures var s' := Apply(s, t, x, m);
      && s'.authority == s.authority && s'.txs.Keys == s.txs.Keys && (m.Wait? ==> s' == s)
      && (m.Move? ==>
            s'.log == s.log + (if m.commit then [FreshCommit(t, x.key, s.next)]
                               else if s.authority.Some? && x.pc.AtAuthority? then [Decided(t, s.authority.value)]
                               else if s.authority.Some? && x.pc.AtReread? then [Reread(t, s.authority.value)] else [])
            && s'.adapter == if m.commit then s.adapter[x.key := s.next] else s.adapter)
  {
  }

  // ----- ids -----

  /** The receipts that are committed (None) or written by an open call. */
  function ReceiptsOf(s: State, o: Option<Tid>): map<Key, Receipt> {
    match o
    case None => s.receipts
    case Some(t) => if t in s.txs && s.txs[t].Exec? then s.txs[t].call.receiptW else map[]
  }

  /** A receipt of `k` at `o` and one of `j` at `u` have different ids unless they are the same, drawn before now. */
  predicate ReceiptIdsOk(s: State, o: Option<Tid>, k: Key, u: Option<Tid>, j: Key) {
    k in ReceiptsOf(s, o) ==>
      && ReceiptsOf(s, o)[k].id < s.next
      && (j in ReceiptsOf(s, u) && (o, k) != (u, j) ==> ReceiptsOf(s, u)[j].id != ReceiptsOf(s, o)[k].id)
  }

  predicate TokensOk(s: State, k: Key, j: Key) {
    && (k in s.adapter ==> s.adapter[k] < s.next && (j in s.adapter && j != k ==> s.adapter[j] != s.adapter[k]))
    && (k in s.ledger && j in s.ledger && j != k ==> s.ledger[j].effectId != s.ledger[k].effectId)
  }

  ghost predicate IdsOk(s: State) {
    (forall o, k, u, j :: ReceiptIdsOk(s, o, k, u, j)) && (forall k, j :: TokensOk(s, k, j))
  }

  lemma StmtIds(v: View, t: Tid, x: Call, e: Around, c: Choice)
    requires CallInv(v, t, x)
    ensures var m := ExecStmt(v, t, x, e, c);
      m.Move? ==> m.call.receiptW == x.receiptW
                  || (m.call.receiptW.Keys == {x.key} && x.receiptW == map[] && m.call.receiptW[x.key].id == e.next)
  {
  }

  lemma AdvanceReceipts(s: State, t: Tid, x: Call, m: Stmt, o: Option<Tid>, k: Key, u: Option<Tid>, j: Key)
    requires IdsOk(s) && t in s.txs && s.txs[t] == Exec(x)
    requires m.Move? ==> m.call.receiptW == x.receiptW
                         || (m.call.receiptW.Keys == {x.key} && x.receiptW == map[] && m.call.receiptW[x.key].id == s.next)
    ensures ReceiptIdsOk(Apply(s, t, x, m), o, k, u, j)
  {
    assert ReceiptIdsOk(s, o, k, u, j) && ReceiptIdsOk(s, u, j, o, k);
  }

  lemma AdvanceTokens(s: State, t: Tid, x: Call, m: Stmt, k: Key, j: Key)
    requires IdsOk(s) && (m.Move? && m.commit ==> x.key !in s.adapter)
    ensures TokensOk(Apply(s, t, x, m), k, j)
  {
    assert TokensOk(s, k, j) && TokensOk(s, j, k);
  }

  lemma EndIds(s: State, t: Tid, keep: bool)
    requires Inv(s) && IdsOk(s) && t in s.txs && (keep ==> CanCommit(s.txs[t]))
    ensures IdsOk(End(s, t, keep))
  {
    var s' := End(s, t, keep);
    if keep && s.txs[t].Exec? { PublishedAll(s, t, s.txs[t].call); }
    forall o, k, u, j ensures ReceiptIdsOk(s', o, k, u, j) { EndReceipts(s, t, keep, o, k, u, j); }
    forall k, j ensures TokensOk(s', k, j) { EndTokens(s, t, keep, k, j); }
  }

  /** Where a receipt was before a transaction ended. */
  lemma Before(s: State, t: Tid, keep: bool, o: Option<Tid>, k: Key) returns (from: Option<Tid>)
    requires t in s.txs && k in ReceiptsOf(End(s, t, keep), o)
    ensures k in ReceiptsOf(s, from) && ReceiptsOf(s, from)[k] == ReceiptsOf(End(s, t, keep), o)[k]
    ensures (from == o && from != Some(t)) || (from == Some(t) && o == None)
  {
    from := if o == None && keep && s.txs[t].Exec? && k in s.txs[t].call.receiptW then Some(t) else o;
  }

  lemma EndReceipts(s: State, t: Tid, keep: bool, o: Option<Tid>, k: Key, u: Option<Tid>, j: Key)
    requires IdsOk(s) && t in s.txs
    ensures ReceiptIdsOk(End(s, t, keep), o, k, u, j)
  {
    if k in ReceiptsOf(End(s, t, keep), o) {
      var o0 := Before(s, t, keep, o, k);
      assert ReceiptIdsOk(s, o0, k, o0, k);
      if j in ReceiptsOf(End(s, t, keep), u) {
        var u0 := Before(s, t, keep, u, j);
        assert ReceiptIdsOk(s, o0, k, u0, j);
      }
    }
  }

  lemma EndTokens(s: State, t: Tid, keep: bool, k: Key, j: Key)
    requires Inv(s) && IdsOk(s) && t in s.txs && (keep ==> CanCommit(s.txs[t]))
    requires keep && s.txs[t].Exec? ==> forall i :: Published(s, t, s.txs[t].call, i)
    ensures TokensOk(End(s, t, keep), k, j)
  {
    assert TokensOk(s, k, j);
    if keep && s.txs[t].Exec? {
      assert TxInv(ViewOf(s, t), t, s.txs[t]);
      assert Published(s, t, s.txs[t].call, k) && Published(s, t, s.txs[t].call, j);
    }
  }

  lemma IdsStep(s: State, l: Label)
    requires Inv(s) && IdsOk(s)
    ensures IdsOk(Step(s, l))
  {
    match l
    case Advance(t, c) =>
      if t in s.txs && s.txs[t].Exec? {
        var x := s.txs[t].call;
        var m := ExecStmt(ViewOf(s, t), t, x, AroundOf(s, t, x), c);
        assert TxInv(ViewOf(s, t), t, s.txs[t]);
        StmtIds(ViewOf(s, t), t, x, AroundOf(s, t, x), c);
        OnlyAdapterCommits(ViewOf(s, t), t, x, AroundOf(s, t, x), c);
        forall o, k, u, j ensures ReceiptIdsOk(Step(s, l), o, k, u, j) { AdvanceReceipts(s, t, x, m, o, k, u, j); }
        forall k, j ensures TokensOk(Step(s, l), k, j) { AdvanceTokens(s, t, x, m, k, j); }
      } else {
        RestIds(s, Step(s, l));
      }
    case CommitTx(t) => if t in s.txs && CanCommit(s.txs[t]) { EndIds(s, t, true); }
    case RollbackTx(t) => if t in s.txs { EndIds(s, t, false); }
    case _ => RestIds(s, Step(s, l));
  }

  /** Nothing with an id is written. */
  lemma RestIds(s: State, s': State)
    requires IdsOk(s) && s'.adapter == s.adapter && s'.ledger == s.ledger && s.next <= s'.next
    requires forall o :: ReceiptsOf(s', o) == ReceiptsOf(s, o)
    ensures IdsOk(s')
  {
    forall o, k, u, j ensures ReceiptIdsOk(s', o, k, u, j) { assert ReceiptIdsOk(s, o, k, u, j); }
    forall k, j ensures TokensOk(s', k, j) { assert TokensOk(s, k, j); }
  }

  /** In every reachable state the commit tokens, effect ids and receipt ids of different keys differ, receipts not yet
      committed included. */
  lemma {:induction false} IdsDistinct(ls: seq<Label>)
    ensures IdsOk(Run(EMPTY, ls))
    decreases |ls|
  {
    if ls != [] {
      IdsDistinct(ls[..|ls| - 1]);
      RunKeeps(ls[..|ls| - 1]);
      IdsStep(Run(EMPTY, ls[..|ls| - 1]), ls[|ls| - 1]);
    }
  }
}
