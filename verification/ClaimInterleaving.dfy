/**
 The schedules of TenantInterleaving with the semantic-action claims: before an executor call loads its
 ledger row it selects and inserts the claim of its action, and most answers other than success delete it
 again. A claim row another open transaction has touched makes a statement wait; claims become visible
 when their transaction commits.
 */
module ClaimInterleaving {
  import opened Wrappers
  import opened Effects
  import opened TenantInterleaving
  import opened TenantGuarantees
  import T = TrustedExecutor

  /** What an open transaction has done to the claim row of its action. */
  datatype RowWrite = Untouched | Added | Undone | Removed

  /** Where a call stands: before, inside or past claimSemanticAction; refused or failed by it; answered with
      the claim still to be released; done. */
  datatype Stage = Selecting | Adding | Rereading | Working | Turned | Broken | Releasing | Answered

  /** `raced` marks the answer given when another call completed the key before the own INSERT. */
  datatype Answer = NoAnswer | Denial | Crash | Report(outcome: Option<Outcome>, raced: bool)

  datatype Info = Info(workflow: T.Workflow, semantic: Option<T.Semantic>, stage: Stage, held: bool, row: RowWrite, answer: Answer)

  /** A committed call that claimed success for an action. */
  datatype Win = Win(action: T.Semantic, workflow: T.Workflow, key: Key)

  datatype World = World(base: State, claims: map<T.Semantic, T.Workflow>, infos: map<Tid, Info>, wins: seq<Win>)

  const START: World := World(EMPTY, map[], map[], [])

  datatype Act =
    | SetAuth(authority: Option<Authority>)
    | OpenRepair(filter: Filter, stateKey: StateKey, value: string)
    | OpenCall(key: Key, capability: string, workflow: T.Workflow, semantic: Option<T.Semantic>)
    | Advances(t: Tid, choice: Choice)
    | ClaimsNext(t: Tid)
    | ReleasesClaim(t: Tid)
    | Commits(t: Tid)
    | RollsBack(t: Tid)

  // ----- statements -----

  /** Another open transaction has inserted or deleted the action's claim row. */
  ghost predicate Contested(w: World, t: Tid, a: T.Semantic) {
    exists u | u in w.infos :: u != t && w.infos[u].semantic == Some(a) && w.infos[u].row != Untouched
  }

  predicate Holds(claims: map<T.Semantic, T.Workflow>, a: T.Semantic, wf: T.Workflow) {
    a in claims && claims[a] == wf
  }

  /** The next statement of claimSemanticAction: SELECT, INSERT, or the SELECT after a failed INSERT. */
  function ClaimStmt(claims: map<T.Semantic, T.Workflow>, i: Info, contested: bool): Info {
    if i.semantic.None? then i
    else
      var a := i.semantic.value;
      match i.stage
      case Selecting =>
        if a !in claims then i.(stage := Adding)
        else if claims[a] == i.workflow then i.(stage := Working, held := true) else i.(stage := Turned)
      case Adding =>
        if contested then i
        else if a in claims then i.(stage := Rereading)
        else i.(stage := Working, held := true, row := Added)
      case Rereading =>
        if a !in claims then i.(stage := Broken)
        else if claims[a] == i.workflow then i.(stage := Working, held := true) else i.(stage := Turned)
      case _ => i
  }

  /** releaseSemanticActionClaim: DELETE of the workflow's own claim. */
  function ReleaseStmt(claims: map<T.Semantic, T.Workflow>, i: Info, contested: bool): Info {
    if !i.stage.Releasing? || i.semantic.None? then i
    else if i.row.Added? then i.(stage := Answered, row := Undone)
    else if !Holds(claims, i.semantic.value, i.workflow) then i.(stage := Answered)
    else if contested then i
    else i.(stage := Answered, row := Removed)
  }

  /** What the call answers when the statement at its program point makes it return. */
  function AnswerOf(x: Call): Answer {
    match x.pc
    case AtBranch => Report(if x.row.Some? then x.row.value.outcome else None, false)
    case AtAdapterCommit => Report(if x.row.Some? then x.row.value.outcome else None, true)
    case AtCrashPoint => Crash
    case AtCompleteUpdate => Report(Some(OutcomeOf(MapPostcondition(x.post))), false)
    case _ => Denial
  }

  predicate IsSuccess(a: Answer) {
    a.Report? && a.outcome == Some(Succeeded)
  }

  /** Answers that give the claim back: every denial and every report but a success, except on the race. */
  predicate LetsGo(a: Answer) {
    a.Denial? || (a.Report? && !a.raced && !IsSuccess(a))
  }

  function Reply(i: Info, a: Answer): Info {
    i.(answer := a, stage := if i.held && LetsGo(a) then Releasing else Answered)
  }

  /** The base has moved; a call that has returned by it has its answer. */
  ghost function Land(w: World, t: Tid, base: State): World
    requires t in w.infos && t in w.base.txs && w.base.txs[t].Exec?
  {
    if t in base.txs && base.txs[t].Exec? && base.txs[t].call.pc.Returned? && !w.base.txs[t].call.pc.Returned?
    then w.(base := base, infos := w.infos[t := Reply(w.infos[t], AnswerOf(w.base.txs[t].call))])
    else w.(base := base)
  }

  /** A statement of the call itself, once it holds its claim or needs none. */
  ghost function CallStmt(w: World, t: Tid, c: Choice): World
    requires t in w.infos && t in w.base.txs && w.base.txs[t].Exec?
  {
    if !w.base.txs[t].call.pc.AtAuthority? && !w.infos[t].stage.Working? then w else Land(w, t, Step(w.base, Advance(t, c)))
  }

  function Publish(claims: map<T.Semantic, T.Workflow>, i: Info): map<T.Semantic, T.Workflow> {
    if i.semantic.None? then claims
    else if i.row.Added? then claims[i.semantic.value := i.workflow]
    else if i.row.Removed? then claims - {i.semantic.value}
    else claims
  }

  ghost function CommitStmt(w: World, t: Tid): World {
    if t !in w.infos then w.(base := Step(w.base, CommitTx(t)))
    else if w.infos[t].stage.Turned? then RollbackStmt(w, t)       // DENIED; nothing was written
    else if !w.infos[t].stage.Answered? || t !in w.base.txs || !w.base.txs[t].Exec? || !CanCommit(w.base.txs[t]) then w
    else
      var i := w.infos[t];
      World(Step(w.base, CommitTx(t)), Publish(w.claims, i), w.infos - {t},
            if IsSuccess(i.answer) && i.semantic.Some? then w.wins + [Win(i.semantic.value, i.workflow, w.base.txs[t].call.key)] else w.wins)
  }

  ghost function RollbackStmt(w: World, t: Tid): World {
    w.(base := Step(w.base, RollbackTx(t)), infos := w.infos - {t})
  }

  ghost function Do(w: World, act: Act): World {
    match act
    case SetAuth(a) => w.(base := Step(w.base, SetAuthority(a)))
    case OpenRepair(f, sk, v) => w.(base := Step(w.base, BeginRec(f, sk, v)))
    case OpenCall(k, cap, wf, sem) =>
      w.(base := Step(w.base, BeginExec(k, cap)),
         infos := w.infos[w.base.next := Info(wf, sem, if sem.None? then Working else Selecting, false, Untouched, NoAnswer)])
    case Advances(t, c) =>
      if t !in w.infos then w.(base := Step(w.base, Advance(t, c)))
      else if t in w.base.txs && w.base.txs[t].Exec? then CallStmt(w, t, c) else w
    case ClaimsNext(t) =>
      if t !in w.infos || t !in w.base.txs || !w.base.txs[t].Exec? || !w.base.txs[t].call.pc.AtLoad? || w.infos[t].semantic.None? then w
      else w.(infos := w.infos[t := ClaimStmt(w.claims, w.infos[t], Contested(w, t, w.infos[t].semantic.value))])
    case ReleasesClaim(t) =>
      if t !in w.infos || w.infos[t].semantic.None? then w
      else w.(infos := w.infos[t := ReleaseStmt(w.claims, w.infos[t], Contested(w, t, w.infos[t].semantic.value))])
    case Commits(t) => CommitStmt(w, t)
    case RollsBack(t) => RollbackStmt(w, t)
  }

  /** The state after any schedule. */
  ghost function After(w: World, acts: seq<Act>): World
    decreases |acts|
  {
    if acts == [] then w else Do(After(w, acts[..|acts| - 1]), acts[|acts| - 1])
  }

  // ----- what every schedule keeps -----

  /** The call took the claim with its own INSERT. */
  predicate Took(i: Info) {
    i.row.Added? || i.row.Undone?
  }

  predicate InfoOk(claims: map<T.Semantic, T.Workflow>, x: Call, i: Info) {
    && (i.held || i.row != Untouched ==> i.held && i.semantic.Some?)
    && (Took(i) ==> i.semantic.value !in claims)
    && (i.row.Removed? ==> Holds(claims, i.semantic.value, i.workflow))
    && (i.row.Undone? || i.row.Removed? ==> i.stage.Answered? && LetsGo(i.answer))
    && (i.stage.Answered? && i.row.Added? ==> !LetsGo(i.answer))
    && (i.stage.Releasing? ==> i.held && LetsGo(i.answer))
    && (x.pc.Returned? <==> i.stage.Releasing? || i.stage.Answered?) && (x.pc.Returned? <==> !i.answer.NoAnswer?)
    && (!i.stage.Working? && !i.stage.Releasing? && !i.stage.Answered? ==> !i.held && (x.pc.AtAuthority? || x.pc.AtLoad?))
    && (i.semantic.Some? && (i.stage.Working? || IsSuccess(i.answer)) ==> i.held)
  }

  /** Two open transactions have never both touched the claim row of an action. */
  ghost predicate RowsApart(w: World) {
    forall t, u | t in w.infos && u in w.infos && t != u && w.infos[t].row != Untouched && w.infos[u].row != Untouched ::
      w.infos[t].semantic != w.infos[u].semantic
  }

  ghost predicate Sound(w: World) {
    && Inv(w.base) && RowsApart(w)
    && (forall t | t in w.infos :: t in w.base.txs && w.base.txs[t].Exec? && InfoOk(w.claims, w.base.txs[t].call, w.infos[t]))
  }

  predicate Concerns(l: Label, t: Tid) {
    (l.Advance? || l.CommitTx? || l.RollbackTx?) && l.t == t
  }

  lemma Undisturbed(s: State, l: Label, u: Tid)
    requires u in s.txs && u < s.next && !Concerns(l, u)
    ensures u in Step(s, l).txs && Step(s, l).txs[u] == s.txs[u]
  {
  }

  /** A sound base in which every call but `t` is where it was. */
  ghost predicate Frame(w: World, base: State, t: Tid) {
    Inv(base) && forall u | u in w.infos && u != t :: u in w.base.txs && u in base.txs && base.txs[u] == w.base.txs[u]
  }

  lemma StepFrames(w: World, l: Label, t: Tid)
    requires Sound(w) && forall u | u != t :: !Concerns(l, u)
    ensures Frame(w, Step(w.base, l), t)
  {
    StepKeeps(w.base, l);
    forall u | u in w.infos && u != t ensures u in Step(w.base, l).txs && Step(w.base, l).txs[u] == w.base.txs[u] {
      assert u in w.base.txs && u < w.base.next;
      Undisturbed(w.base, l, u);
    }
  }

  /** A step of `t` that changes no committed claim. */
  lemma LocalStep(w: World, w': World, t: Tid)
    requires Sound(w) && Frame(w, w'.base, t) && w'.claims == w.claims && w'.infos.Keys <= w.infos.Keys + {t}
    requires forall u | u in w'.infos && u != t :: w'.infos[u] == w.infos[u]
    requires t in w'.infos ==>
      && t in w'.base.txs && w'.base.txs[t].Exec? && InfoOk(w.claims, w'.base.txs[t].call, w'.infos[t])
      && (w'.infos[t].row != Untouched ==>
            (t in w.infos && w.infos[t].row != Untouched && w.infos[t].semantic == w'.infos[t].semantic)
            || !Contested(w, t, w'.infos[t].semantic.value))
    ensures Sound(w')
  {
    RowsStayApart(w, w', t);
  }

  lemma RowsStayApart(w: World, w': World, t: Tid)
    requires RowsApart(w) && w'.infos.Keys <= w.infos.Keys + {t} && forall u | u in w'.infos && u != t :: w'.infos[u] == w.infos[u]
    requires t in w'.infos && w'.infos[t].row != Untouched ==>
      && w'.infos[t].semantic.Some?
      && ((t in w.infos && w.infos[t].row != Untouched && w.infos[t].semantic == w'.infos[t].semantic)
          || !Contested(w, t, w'.infos[t].semantic.value))
    ensures RowsApart(w')
  {
  }

  /** What an advancing call does to its program point. */
  lemma MovesOn(s: State, t: Tid, c: Choice)
    requires Inv(s) && t in s.txs && s.txs[t].Exec?
    ensures var s' := Step(s, Advance(t, c));
      && t in s'.txs && s'.txs[t].Exec? && s'.txs[t].call.key == s.txs[t].call.key
      && (s.txs[t].call.pc.AtAuthority? ==> var pc := s'.txs[t].call.pc; pc.AtAuthority? || pc.AtLoad? || pc.Returned?)
      && (s.txs[t].call.pc.Returned? ==> s' == s)
  {
    var x := s.txs[t].call;
    StmtMoves(ViewOf(s, t), t, x, AroundOf(s, t, x), c);
  }

  lemma StmtMoves(v: View, t: Tid, x: Call, e: Around, c: Choice)
    ensures var m := ExecStmt(v, t, x, e, c);
      && (m.Move? ==> m.call.key == x.key && !m.call.pc.AtAuthority?)
      && (m.Move? && x.pc.AtAuthority? ==> m.call.pc.AtLoad? || m.call.pc.Returned?)
      && (x.pc.Returned? ==> m.Wait?)
  {
  }

  lemma CallOk(claims: map<T.Semantic, T.Workflow>, x: Call, x': Call, i: Info)
    requires InfoOk(claims, x, i) && (x.pc.AtAuthority? || i.stage.Working?) && !x.pc.Returned?
    requires x.pc.AtAuthority? ==> x'.pc.AtAuthority? || x'.pc.AtLoad? || x'.pc.Returned?
    ensures if x'.pc.Returned? then InfoOk(claims, x', Reply(i, AnswerOf(x))) else InfoOk(claims, x', i)
  {
  }

  lemma CallStmtSound(w: World, t: Tid, c: Choice)
    requires Sound(w) && t in w.infos
    ensures Sound(CallStmt(w, t, c))
  {
    var x := w.base.txs[t].call;
    if (x.pc.AtAuthority? || w.infos[t].stage.Working?) && !x.pc.Returned? {
      MovesOn(w.base, t, c);
      StepFrames(w, Advance(t, c), t);
      CallOk(w.claims, x, Step(w.base, Advance(t, c)).txs[t].call, w.infos[t]);
      LocalStep(w, CallStmt(w, t, c), t);
    }
  }

  lemma ClaimOk(claims: map<T.Semantic, T.Workflow>, x: Call, i: Info, contested: bool)
    requires InfoOk(claims, x, i)
    ensures x.pc.AtLoad? ==> InfoOk(claims, x, ClaimStmt(claims, i, contested))
    ensures InfoOk(claims, x, ReleaseStmt(claims, i, contested))
    ensures ClaimStmt(claims, i, contested).row != i.row ==> !contested
    ensures ReleaseStmt(claims, i, contested).row != i.row ==> !contested || i.row != Untouched
  {
  }

  /** The claim row is looked at or written; the base stays. */
  lemma ClaimRowStep(w: World, t: Tid, i': Info)
    requires Sound(w) && t in w.infos && i'.semantic == w.infos[t].semantic && i'.semantic.Some?
    requires InfoOk(w.claims, w.base.txs[t].call, i')
    requires i'.row != w.infos[t].row ==> !Contested(w, t, i'.semantic.value) || w.infos[t].row != Untouched
    ensures Sound(w.(infos := w.infos[t := i']))
  {
    LocalStep(w, w.(infos := w.infos[t := i']), t);
  }

  lemma ClaimSound(w: World, t: Tid)
    requires Sound(w)
    ensures Sound(Do(w, ClaimsNext(t)))
  {
    if t in w.infos && w.infos[t].semantic.Some? && w.base.txs[t].call.pc.AtLoad? {
      var i := w.infos[t];
      var contested := Contested(w, t, i.semantic.value);
      ClaimOk(w.claims, w.base.txs[t].call, i, contested);
      ClaimRowStep(w, t, ClaimStmt(w.claims, i, contested));
    }
  }

  lemma ReleaseSound(w: World, t: Tid)
    requires Sound(w)
    ensures Sound(Do(w, ReleasesClaim(t)))
  {
    if t in w.infos && w.infos[t].semantic.Some? {
      var i := w.infos[t];
      var contested := Contested(w, t, i.semantic.value);
      ClaimOk(w.claims, w.base.txs[t].call, i, contested);
      ClaimRowStep(w, t, ReleaseStmt(w.claims, i, contested));
    }
  }

  /** What a commit publishes is not what another open call relies on. */
  lemma PublishedOk(claims: map<T.Semantic, T.Workflow>, x: Call, i: Info, y: Call, j: Info)
    requires InfoOk(claims, x, i) && InfoOk(claims, y, j)
    requires i.row == Untouched || j.row == Untouched || i.semantic != j.semantic
    ensures InfoOk(Publish(claims, i), y, j)
  {
  }

  lemma CommitSound(w: World, t: Tid)
    requires Sound(w)
    ensures Sound(CommitStmt(w, t))
  {
    var w' := CommitStmt(w, t);
    if t !in w.infos || w.infos[t].stage.Turned? {
      if t in w.infos { RollbackSound(w, t); } else { BaseSound(w, CommitTx(t), t); }
    } else if w' != w {
      StepFrames(w, CommitTx(t), t);
      forall u | u in w'.infos
        ensures u in w'.base.txs && w'.base.txs[u].Exec? && InfoOk(w'.claims, w'.base.txs[u].call, w'.infos[u])
      {
        PublishedOk(w.claims, w.base.txs[t].call, w.infos[t], w.base.txs[u].call, w.infos[u]);
      }
    }
  }

  lemma OpenSound(w: World, k: Key, cap: string, wf: T.Workflow, sem: Option<T.Semantic>)
    requires Sound(w)
    ensures Sound(Do(w, OpenCall(k, cap, wf, sem)))
  {
    assert w.base.next !in w.infos;
    StepFrames(w, BeginExec(k, cap), w.base.next);
    LocalStep(w, Do(w, OpenCall(k, cap, wf, sem)), w.base.next);
  }

  /** A step of the base alone. */
  lemma BaseSound(w: World, l: Label, t: Tid)
    requires Sound(w) && t !in w.infos && forall u | u != t :: !Concerns(l, u)
    ensures Sound(w.(base := Step(w.base, l)))
  {
    StepFrames(w, l, t);
    LocalStep(w, w.(base := Step(w.base, l)), t);
  }

  lemma RollbackSound(w: World, t: Tid)
    requires Sound(w)
    ensures Sound(RollbackStmt(w, t))
  {
    StepFrames(w, RollbackTx(t), t);
    LocalStep(w, RollbackStmt(w, t), t);
  }

  lemma DoSound(w: World, act: Act)
    requires Sound(w)
    ensures Sound(Do(w, act))
  {
    match act
    case SetAuth(a) => BaseSound(w, SetAuthority(a), w.base.next);
    case OpenRepair(f, sk, v) => BaseSound(w, BeginRec(f, sk, v), w.base.next);
    case OpenCall(k, cap, wf, sem) => OpenSound(w, k, cap, wf, sem);
    case Advances(t, c) => if t in w.infos { CallStmtSound(w, t, c); } else { BaseSound(w, Advance(t, c), t); }
    case ClaimsNext(t) => ClaimSound(w, t);
    case ReleasesClaim(t) => ReleaseSound(w, t);
    case Commits(t) => CommitSound(w, t);
    case RollsBack(t) => RollbackSound(w, t);
  }

  lemma {:induction false} AfterSound(acts: seq<Act>)
    ensures Sound(After(START, acts))
    decreases |acts|
  {
    if acts == [] {
      RunKeeps([]);
    } else {
      AfterSound(acts[..|acts| - 1]);
      DoSound(After(START, acts[..|acts| - 1]), acts[|acts| - 1]);
    }
  }

  // ----- who holds the action after a call -----

  /** The transaction can commit now. */
  ghost predicate Ready(w: World, t: Tid) {
    t in w.infos && w.infos[t].stage.Answered? && t in w.base.txs && CanCommit(w.base.txs[t])
  }

  /** The statement with which a call returns and keeps its claim: the loaded row is a success, the completion
      was observed VERIFIED, the process crashes behind its adapter commit, or the row found after the own
      INSERT was completed by another call, with whatever outcome. */
  predicate KeepsClaim(x: Call, c: Choice) {
    || (x.pc.AtBranch? && x.row.Some? && x.row.value.status.Completed? && x.row.value.outcome == Some(Succeeded))
    || (x.pc.AtCompleteUpdate? && x.post.Verified?)
    || (x.pc.AtCrashPoint? && c.crash)
    || (x.pc.AtAdapterCommit? && x.row.Some? && x.row.value.status.Completed?)
  }

  /** `act` is such a statement of `t`. */
  ghost predicate KeepsHere(w: World, t: Tid, act: Act) {
    act.Advances? && act.t == t && t in w.infos && t in w.base.txs && w.base.txs[t].Exec? && KeepsClaim(w.base.txs[t].call, act.choice)
  }

  /** Some statement of the schedule is. */
  ghost predicate Kept(acts: seq<Act>, t: Tid) {
    exists m | 0 <= m < |acts| :: KeepsHere(After(START, acts[..m]), t, acts[m])
  }

  lemma KeptOneMore(acts: seq<Act>, t: Tid)
    requires acts != []
    ensures var init := acts[..|acts| - 1];
      Kept(acts, t) <==> Kept(init, t) || KeepsHere(After(START, init), t, acts[|acts| - 1])
  {
    var init := acts[..|acts| - 1];
    forall m | 0 <= m < |init| ensures acts[..m] == init[..m] && acts[m] == init[m] { }
    if Kept(init, t) {
      var m :| 0 <= m < |init| && KeepsHere(After(START, init[..m]), t, init[m]);
      assert KeepsHere(After(START, acts[..m]), t, acts[m]);
    }
    if KeepsHere(After(START, init), t, acts[|acts| - 1]) {
      assert KeepsHere(After(START, acts[..|acts| - 1]), t, acts[|acts| - 1]);
    }
  }

  lemma KeepingStmt(v: View, t: Tid, x: Call, e: Around, c: Choice)
    requires CallInv(v, t, x) && KeyFacts(v, x.key)
    ensures var m := ExecStmt(v, t, x, e, c);
      && (KeepsClaim(x, c) ==> m.Move? && m.call.pc.Returned?)
      && (m.Move? && m.call.pc.Returned? ==> (KeepsClaim(x, c) <==> !LetsGo(AnswerOf(x))))
  {
    if ExecStmt(v, t, x, e, c).Move? && ExecStmt(v, t, x, e, c).call.pc.Returned? { StmtReturns(v, t, x, e, c); }
  }

  /** An answer was given, and it does not give the claim back. */
  predicate Holding(i: Info) {
    !i.answer.NoAnswer? && !LetsGo(i.answer)
  }

  /** Landing answers a call exactly when it makes it return. */
  lemma KeepingLand(w: World, t: Tid, base: State, c: Choice)
    requires t in w.infos && t in w.base.txs && w.base.txs[t].Exec? && InfoOk(w.claims, w.base.txs[t].call, w.infos[t])
    requires t in base.txs && base.txs[t].Exec? && !w.base.txs[t].call.pc.Returned?
    requires var x := w.base.txs[t].call;
      if base.txs[t].call.pc.Returned? then KeepsClaim(x, c) <==> !LetsGo(AnswerOf(x)) else !KeepsClaim(x, c)
    ensures t in Land(w, t, base).infos
    ensures Holding(Land(w, t, base).infos[t]) <==> Holding(w.infos[t]) || KeepsHere(w, t, Advances(t, c))
  {
  }

  lemma KeepingStep(s: State, t: Tid, c: Choice)
    requires Inv(s) && t in s.txs && s.txs[t].Exec?
    ensures var s', x := Step(s, Advance(t, c)), s.txs[t].call;
      && t in s'.txs && s'.txs[t].Exec?
      && (x.pc.Returned? || if s'.txs[t].call.pc.Returned? then KeepsClaim(x, c) <==> !LetsGo(AnswerOf(x)) else !KeepsClaim(x, c))
  {
    var x := s.txs[t].call;
    var v, e := ViewOf(s, t), AroundOf(s, t, x);
    assert CallInv(v, t, x) by { assert TxInv(v, t, s.txs[t]); }
    assert KeyFacts(v, x.key) by { assert KeyFacts(ViewOf(s, 0), x.key); }
    KeepingStmt(v, t, x, e, c);
  }

  lemma KeepingCall(w: World, t: Tid, c: Choice)
    requires Sound(w) && t in w.infos
    ensures var w' := CallStmt(w, t, c);
      t in w'.infos && (Holding(w'.infos[t]) <==> Holding(w.infos[t]) || KeepsHere(w, t, Advances(t, c)))
  {
    var x := w.base.txs[t].call;
    if (x.pc.AtAuthority? || w.infos[t].stage.Working?) && !x.pc.Returned? {
      KeepingStep(w.base, t, c);
      KeepingLand(w, t, Step(w.base, Advance(t, c)), c);
    } else {
      assert InfoOk(w.claims, x, w.infos[t]);
    }
  }

  lemma BaseNextGrows(s: State, l: Label)
    ensures Step(s, l).next >= s.next
  {
  }

  lemma NextGrows(w: World, act: Act)
    ensures Do(w, act).base.next >= w.base.next
  {
    match act
    case SetAuth(a) => BaseNextGrows(w.base, SetAuthority(a));
    case OpenRepair(f, sk, v) => BaseNextGrows(w.base, BeginRec(f, sk, v));
    case OpenCall(k, cap, _, _) => BaseNextGrows(w.base, BeginExec(k, cap));
    case Advances(t, c) => BaseNextGrows(w.base, Advance(t, c));
    case ClaimsNext(_) =>
    case ReleasesClaim(_) =>
    case Commits(t) =>
      BaseNextGrows(w.base, CommitTx(t));
      BaseNextGrows(w.base, RollbackTx(t));
    case RollsBack(t) => BaseNextGrows(w.base, RollbackTx(t));
  }

  /** A transaction that has not begun has done nothing. */
  lemma {:induction false} NotYetBegun(acts: seq<Act>, t: Tid)
    requires t >= After(START, acts).base.next
    ensures !Kept(acts, t) && t !in After(START, acts).infos
    decreases |acts|
  {
    AfterSound(acts);
    if acts != [] {
      NextGrows(After(START, acts[..|acts| - 1]), acts[|acts| - 1]);
      NotYetBegun(acts[..|acts| - 1], t);
      KeptOneMore(acts, t);
    }
  }

  lemma AnswerStays(w: World, act: Act, t: Tid)
    requires t in Do(w, act).infos && !(act.OpenCall? && t == w.base.next) && !(act.Advances? && act.t == t)
    ensures t in w.infos && Do(w, act).infos[t].answer == w.infos[t].answer
  {
  }

  lemma HoldingStep(w: World, act: Act, t: Tid)
    requires Sound(w) && t in Do(w, act).infos && !(act.OpenCall? && t == w.base.next)
    ensures t in w.infos && (Holding(Do(w, act).infos[t]) <==> Holding(w.infos[t]) || KeepsHere(w, t, act))
  {
    if act.Advances? && act.t == t {
      KeepingCall(w, t, act.choice);
    } else {
      AnswerStays(w, act, t);
    }
  }

  lemma OpenedHoldsNothing(w: World, act: Act)
    requires act.OpenCall?
    ensures w.base.next in Do(w, act).infos && !Holding(Do(w, act).infos[w.base.next]) && !KeepsHere(w, w.base.next, act)
  {
  }

  /** In every schedule an open call has an answer that keeps its claim exactly when it has made such a statement. */
  lemma {:induction false} KeptExactlyWhen(acts: seq<Act>, t: Tid)
    requires t in After(START, acts).infos
    ensures Holding(After(START, acts).infos[t]) <==> Kept(acts, t)
    decreases |acts|
  {
    var init, last := acts[..|acts| - 1], acts[|acts| - 1];
    var w := After(START, init);
    AfterSound(init);
    KeptOneMore(acts, t);
    if last.OpenCall? && t == w.base.next {
      NotYetBegun(init, t);
      OpenedHoldsNothing(w, last);
    } else {
      HoldingStep(w, last, t);
      KeptExactlyWhen(init, t);
    }
  }

  /** In every schedule: when a call that took the claim itself commits, its action is left claimed exactly when
      one of its statements loaded a successful row, completed its key observed VERIFIED, crashed behind its
      adapter commit, or found its key completed by another call after its own INSERT; in every other case the
      action is free. */
  lemma StaysClaimedExactlyWhen(acts: seq<Act>, t: Tid)
    requires Ready(After(START, acts), t) && Took(After(START, acts).infos[t])
    ensures var w, w' := After(START, acts), CommitStmt(After(START, acts), t);
      var i := w.infos[t];
      && i.semantic.Some? && (i.semantic.value in w'.claims <==> Kept(acts, t))
      && (i.semantic.value in w'.claims ==> w'.claims[i.semantic.value] == i.workflow)
  {
    AfterSound(acts);
    KeptExactlyWhen(acts, t);
    CommitLeaves(After(START, acts), t);
  }

  lemma CommitLeaves(w: World, t: Tid)
    requires Sound(w) && Ready(w, t) && Took(w.infos[t])
    ensures var w', i := CommitStmt(w, t), w.infos[t];
      && i.semantic.Some? && (i.semantic.value in w'.claims <==> Holding(i))
      && (i.semantic.value in w'.claims ==> w'.claims[i.semantic.value] == i.workflow)
  {
    assert InfoOk(w.claims, w.base.txs[t].call, w.infos[t]);
  }

  // ----- one workflow per action -----

  predicate Opens(act: Act, a: T.Semantic, wf: T.Workflow) {
    act.OpenCall? && act.semantic == Some(a) && act.workflow == wf
  }

  /** Every workflow uses a semantic action for one idempotency key only. */
  ghost predicate OneKeyPerAction(acts: seq<Act>) {
    forall i, j, a, wf | 0 <= i < |acts| && 0 <= j < |acts| && Opens(acts[i], a, wf) && Opens(acts[j], a, wf) :: acts[i].key == acts[j].key
  }

  type KeyUse = (T.Semantic, T.Workflow) -> Key

  /** Every call opened with an action uses the key `keyOf` says. */
  ghost predicate Uses(acts: seq<Act>, keyOf: KeyUse) {
    forall i | 0 <= i < |acts| && acts[i].OpenCall? && acts[i].semantic.Some? :: acts[i].key == keyOf(acts[i].semantic.value, acts[i].workflow)
  }

  ghost predicate IsDone(m: map<Key, LedgerRow>, k: Key, won: bool) {
    k in m && m[k].status.Completed? && (m[k].outcome == Some(Succeeded)) == won
  }

  /** The key's completion is committed, or pending in the call that has just returned. */
  ghost predicate IsDoneHere(s: State, x: Call, won: bool) {
    IsDone(s.ledger, x.key, won) || (x.pc.Returned? && IsDone(x.ledgerW, x.key, won))
  }

  /** Program points reached only if the adapter did not hold the key. */
  predicate Fresh(pc: ExecPc) {
    pc.AtReread? || pc.AtPendingLock? || pc.AtPendingInsert? || pc.AtReload? || pc.AtAdapterCommit? || pc.AtMarkCommitted? || pc.AtCrashPoint?
  }

  /** What is known of a call that has an action: a claim it found standing belongs to a key the adapter holds,
      and stays unless that key was completed without success; it deletes such a claim only in that case. */
  ghost predicate UseOk(s: State, claims: map<T.Semantic, T.Workflow>, keyOf: KeyUse, x: Call, i: Info) {
    i.semantic.Some? ==>
      && x.key == keyOf(i.semantic.value, i.workflow)
      && (i.held ==> !x.pc.AtAuthority?) && (i.stage.Working? ==> i.held)
      && (i.held && !Took(i) ==>
            && x.key in s.adapter && !Fresh(x.pc)
            && (Holds(claims, i.semantic.value, i.workflow) || IsDone(s.ledger, x.key, false)))
      && (i.row.Removed? || (i.stage.Releasing? && !Took(i)) ==> IsDoneHere(s, x, false))
      && (IsSuccess(i.answer) ==> i.held && IsDoneHere(s, x, true) && x.pc.Returned?)
      && (i.stage.Answered? && i.row.Added? ==> x.key in s.adapter)
  }

  ghost predicate Won(w: World, keyOf: KeyUse, n: nat)
    requires n < |w.wins|
  {
    Holds(w.claims, w.wins[n].action, w.wins[n].workflow) && IsDone(w.base.ledger, keyOf(w.wins[n].action, w.wins[n].workflow), true)
  }

  ghost predicate Fair(w: World, keyOf: KeyUse) {
    && (forall t | t in w.infos && t in w.base.txs && w.base.txs[t].Exec? :: UseOk(w.base, w.claims, keyOf, w.base.txs[t].call, w.infos[t]))
    && (forall a | a in w.claims :: keyOf(a, w.claims[a]) in w.base.adapter)
    && (forall n | 0 <= n < |w.wins| :: Won(w, keyOf, n))
  }

  lemma StmtReturns(v: View, t: Tid, x: Call, e: Around, c: Choice)
    requires CallInv(v, t, x) && KeyFacts(v, x.key) && ExecStmt(v, t, x, e, c).Move? && ExecStmt(v, t, x, e, c).call.pc.Returned?
    ensures var x' := ExecStmt(v, t, x, e, c).call;
      && (x.pc.AtBranch? || x.pc.AtAdapterCommit? ==>
            x.row.Some? && x.key in v.ledger && v.ledger[x.key] == x.row.value && x.row.value.status.Completed?)
      && (x.pc.AtCompleteUpdate? ==>
            x.key in x'.ledgerW && x'.ledgerW[x.key].status.Completed? && x'.ledgerW[x.key].outcome == Some(OutcomeOf(MapPostcondition(x.post))))
      && (x.pc.AtBranch? || x.pc.AtAdapterCommit? || x.pc.AtCompleteUpdate? || x.pc.AtCrashPoint? ==> x.key in v.adapter)
      && (x.pc.AtAuthority? || x.pc.AtBranch? || x.pc.AtReread? || x.pc.AtAdapterCommit? || x.pc.AtCrashPoint? || x.pc.AtCompleteUpdate?)
  {
  }

  lemma EarlyStmtFresh(v: View, t: Tid, x: Call, e: Around, c: Choice)
    requires BeforeReread(x.pc) && !x.pc.AtReread? && x.key in v.adapter
    ensures var m := ExecStmt(v, t, x, e, c); m.Move? ==> !Fresh(m.call.pc)
  {
  }

  lemma LateStmtFresh(v: View, t: Tid, x: Call, e: Around, c: Choice)
    requires !BeforeReread(x.pc) && !Fresh(x.pc)
    ensures var m := ExecStmt(v, t, x, e, c); m.Move? ==> !Fresh(m.call.pc)
  {
  }

  lemma StmtFresh(v: View, t: Tid, x: Call, e: Around, c: Choice)
    requires !Fresh(x.pc) && x.key in v.adapter
    ensures var m := ExecStmt(v, t, x, e, c); m.Move? ==> !Fresh(m.call.pc)
  {
    if BeforeReread(x.pc) { EarlyStmtFresh(v, t, x, e, c); } else { LateStmtFresh(v, t, x, e, c); }
  }

  /** What is known of a call survives a step of another. */
  lemma UseFrame(s: State, s': State, claims: map<T.Semantic, T.Workflow>, keyOf: KeyUse, x: Call, i: Info)
    requires UseOk(s, claims, keyOf, x, i) && Extends(s, s')
    ensures UseOk(s', claims, keyOf, x, i)
  {
  }

  /** The call's own statement, not yet returning. */
  lemma UseMoves(s: State, s': State, claims: map<T.Semantic, T.Workflow>, keyOf: KeyUse, x: Call, x': Call, i: Info)
    requires UseOk(s, claims, keyOf, x, i) && InfoOk(claims, x, i) && Extends(s, s')
    requires x'.key == x.key && !x.pc.Returned? && !x'.pc.AtAuthority? && (x.pc.AtAuthority? || i.stage.Working?)
    requires Fresh(x'.pc) ==> Fresh(x.pc) || x.key !in s.adapter
    ensures UseOk(s', claims, keyOf, x', i)
  {
  }

  /** And returning. */
  lemma UseReturns(s: State, s': State, claims: map<T.Semantic, T.Workflow>, keyOf: KeyUse, x: Call, x': Call, i: Info)
    requires UseOk(s, claims, keyOf, x, i) && InfoOk(claims, x, i) && Extends(s, s') && x'.key == x.key && !x.pc.Returned? && x'.pc.Returned?
    requires x.pc.AtBranch? || x.pc.AtAdapterCommit? ==>
      x.row.Some? && x.key in s.ledger && s.ledger[x.key] == x.row.value && x.row.value.status.Completed?
    requires x.pc.AtCompleteUpdate? ==>
      x.key in x'.ledgerW && x'.ledgerW[x.key].status.Completed? && x'.ledgerW[x.key].outcome == Some(OutcomeOf(MapPostcondition(x.post)))
    requires x.pc.AtBranch? || x.pc.AtAdapterCommit? || x.pc.AtCompleteUpdate? || x.pc.AtCrashPoint? ==> x.key in s.adapter
    requires x.pc.AtAuthority? || x.pc.AtBranch? || x.pc.AtReread? || x.pc.AtAdapterCommit? || x.pc.AtCrashPoint? || x.pc.AtCompleteUpdate?
    requires x.pc.AtAuthority? || i.stage.Working?
    ensures UseOk(s', claims, keyOf, x', Reply(i, AnswerOf(x)))
  {
  }

  /** A step of `t` that changes no committed claim and wins nothing. */
  lemma FairLocal(w: World, w': World, t: Tid, keyOf: KeyUse)
    requires Sound(w) && Fair(w, keyOf) && Frame(w, w'.base, t) && Extends(w.base, w'.base)
    requires w'.claims == w.claims && w'.wins == w.wins && w'.infos.Keys <= w.infos.Keys + {t}
    requires forall u | u in w'.infos && u != t :: w'.infos[u] == w.infos[u]
    requires t in w'.infos && t in w'.base.txs && w'.base.txs[t].Exec? ==> UseOk(w'.base, w.claims, keyOf, w'.base.txs[t].call, w'.infos[t])
    ensures Fair(w', keyOf)
  {
    forall u | u in w'.infos && u in w'.base.txs && w'.base.txs[u].Exec?
      ensures UseOk(w'.base, w'.claims, keyOf, w'.base.txs[u].call, w'.infos[u])
    {
      if u != t { UseFrame(w.base, w'.base, w.claims, keyOf, w.base.txs[u].call, w.infos[u]); }
    }
    forall n | 0 <= n < |w'.wins| ensures Won(w', keyOf, n) { assert Won(w, keyOf, n); }
  }

  /** One statement of a call, as far as its use of an action goes. */
  lemma CallUse(w: World, t: Tid, c: Choice, keyOf: KeyUse)
    requires Sound(w) && Fair(w, keyOf) && t in w.infos
    requires !w.base.txs[t].call.pc.Returned? && (w.base.txs[t].call.pc.AtAuthority? || w.infos[t].stage.Working?)
    requires var x := w.base.txs[t].call; ExecStmt(ViewOf(w.base, t), t, x, AroundOf(w.base, t, x), c).Move?
    ensures var s' := Step(w.base, Advance(t, c));
      && t in s'.txs && s'.txs[t].Exec? && Extends(w.base, s')
      && UseOk(s', w.claims, keyOf, s'.txs[t].call,
               if s'.txs[t].call.pc.Returned? then Reply(w.infos[t], AnswerOf(w.base.txs[t].call)) else w.infos[t])
  {
    var s, s', x, i := w.base, Step(w.base, Advance(t, c)), w.base.txs[t].call, w.infos[t];
    var v, e := ViewOf(s, t), AroundOf(s, t, x);
    StepExtends(s, Advance(t, c));
    StmtMoves(v, t, x, e, c);
    var x' := s'.txs[t].call;
    assert x' == ExecStmt(v, t, x, e, c).call;
    assert UseOk(s, w.claims, keyOf, x, i) && InfoOk(w.claims, x, i);
    if x'.pc.Returned? {
      assert CallInv(v, t, x) by { assert TxInv(v, t, s.txs[t]); }
      assert KeyFacts(v, x.key) by { assert KeyFacts(ViewOf(s, 0), x.key); }
      StmtReturns(v, t, x, e, c);
      UseReturns(s, s', w.claims, keyOf, x, x', i);
    } else {
      if !Fresh(x.pc) && x.key in s.adapter { StmtFresh(v, t, x, e, c); }
      UseMoves(s, s', w.claims, keyOf, x, x', i);
    }
  }

  lemma LandFair(w: World, t: Tid, s': State, keyOf: KeyUse)
    requires Sound(w) && Fair(w, keyOf) && t in w.infos && Frame(w, s', t) && Extends(w.base, s') && !w.base.txs[t].call.pc.Returned?
    requires t in s'.txs && s'.txs[t].Exec?
    requires UseOk(s', w.claims, keyOf, s'.txs[t].call,
                   if s'.txs[t].call.pc.Returned? then Reply(w.infos[t], AnswerOf(w.base.txs[t].call)) else w.infos[t])
    ensures Fair(Land(w, t, s'), keyOf)
  {
    FairLocal(w, Land(w, t, s'), t, keyOf);
  }

  lemma CallFair(w: World, t: Tid, c: Choice, keyOf: KeyUse)
    requires Sound(w) && Fair(w, keyOf) && t in w.infos
    ensures Fair(CallStmt(w, t, c), keyOf)
  {
    var x := w.base.txs[t].call;
    if (x.pc.AtAuthority? || w.infos[t].stage.Working?) && !x.pc.Returned?
       && ExecStmt(ViewOf(w.base, t), t, x, AroundOf(w.base, t, x), c).Move? {
      CallUse(w, t, c, keyOf);
      StepFrames(w, Advance(t, c), t);
      LandFair(w, t, Step(w.base, Advance(t, c)), keyOf);
    }
  }

  /** The claim row is looked at or written. */
  lemma RowFair(w: World, t: Tid, i': Info, keyOf: KeyUse)
    requires Sound(w) && Fair(w, keyOf) && t in w.infos && UseOk(w.base, w.claims, keyOf, w.base.txs[t].call, i')
    ensures Fair(w.(infos := w.infos[t := i']), keyOf)
  {
    FairLocal(w, w.(infos := w.infos[t := i']), t, keyOf);
  }

  lemma ClaimUse(s: State, claims: map<T.Semantic, T.Workflow>, keyOf: KeyUse, x: Call, i: Info, contested: bool)
    requires UseOk(s, claims, keyOf, x, i) && InfoOk(claims, x, i)
    requires forall a | a in claims :: keyOf(a, claims[a]) in s.adapter
    ensures x.pc.AtLoad? ==> UseOk(s, claims, keyOf, x, ClaimStmt(claims, i, contested))
    ensures UseOk(s, claims, keyOf, x, ReleaseStmt(claims, i, contested))
  {
  }

  /** What a committing call publishes. */
  lemma DoneIsPublished(w: World, t: Tid, won: bool)
    requires Sound(w) && Ready(w, t) && t in w.base.txs && w.base.txs[t].Exec? && IsDoneHere(w.base, w.base.txs[t].call, won)
    ensures IsDone(Step(w.base, CommitTx(t)).ledger, w.base.txs[t].call.key, won)
    ensures IsDone(w.base.ledger, w.base.txs[t].call.key, !won) ==> false
  {
    var x := w.base.txs[t].call;
    assert TxInv(ViewOf(w.base, t), t, w.base.txs[t]);
    assert KeyFacts(ViewOf(w.base, t), x.key) by { assert KeyFacts(ViewOf(w.base, 0), x.key); }
    TenantInterleaving.Publish(ViewOf(w.base, t), t, x, x.key);
  }

  /** A claim that stops standing at a commit was removed by its own workflow. */
  lemma PublishKeeps(claims: map<T.Semantic, T.Workflow>, x: Call, i: Info, a: T.Semantic, wf: T.Workflow)
    requires InfoOk(claims, x, i) && Holds(claims, a, wf)
    ensures Holds(Publish(claims, i), a, wf) || (i.row.Removed? && i.semantic == Some(a) && i.workflow == wf)
  {
  }

  /** Who holds what after the commit of `t`, for the other calls. */
  lemma CommitUse(w: World, t: Tid, u: Tid, keyOf: KeyUse)
    requires Sound(w) && Fair(w, keyOf) && t in w.infos && Ready(w, t) && u in w.infos && u != t
    ensures UseOk(Step(w.base, CommitTx(t)), Publish(w.claims, w.infos[t]), keyOf, w.base.txs[u].call, w.infos[u])
  {
    var s', x, i, y, j := Step(w.base, CommitTx(t)), w.base.txs[t].call, w.infos[t], w.base.txs[u].call, w.infos[u];
    StepExtends(w.base, CommitTx(t));
    UseFrame(w.base, s', w.claims, keyOf, y, j);
    assert InfoOk(w.claims, x, i) && UseOk(w.base, w.claims, keyOf, x, i);
    if j.semantic.Some? && Holds(w.claims, j.semantic.value, j.workflow) {
      PublishKeeps(w.claims, x, i, j.semantic.value, j.workflow);
      if i.row.Removed? && i.semantic == j.semantic && i.workflow == j.workflow {
        DoneIsPublished(w, t, false);
      }
    }
  }

  lemma CommitWins(w: World, t: Tid, keyOf: KeyUse)
    requires Sound(w) && Fair(w, keyOf) && t in w.infos && Ready(w, t)
    ensures var w' := CommitStmt(w, t); forall n | 0 <= n < |w'.wins| :: Won(w', keyOf, n)
  {
    var w', x, i := CommitStmt(w, t), w.base.txs[t].call, w.infos[t];
    StepExtends(w.base, CommitTx(t));
    assert InfoOk(w.claims, x, i) && UseOk(w.base, w.claims, keyOf, x, i);
    forall n | 0 <= n < |w'.wins| ensures Won(w', keyOf, n) {
      if n < |w.wins| {
        assert Won(w, keyOf, n);
        PublishKeeps(w.claims, x, i, w.wins[n].action, w.wins[n].workflow);
        if i.row.Removed? && i.semantic == Some(w.wins[n].action) && i.workflow == w.wins[n].workflow {
          DoneIsPublished(w, t, false);
        }
      } else {
        DoneIsPublished(w, t, true);
      }
    }
  }

  lemma CommitFair(w: World, t: Tid, keyOf: KeyUse)
    requires Sound(w) && Fair(w, keyOf) && t in w.infos && Ready(w, t)
    ensures Fair(CommitStmt(w, t), keyOf)
  {
    var w', x, i := CommitStmt(w, t), w.base.txs[t].call, w.infos[t];
    CommitWins(w, t, keyOf);
    StepFrames(w, CommitTx(t), t);
    StepExtends(w.base, CommitTx(t));
    assert UseOk(w.base, w.claims, keyOf, x, i) && InfoOk(w.claims, x, i);
    forall u | u in w'.infos ensures UseOk(w'.base, w'.claims, keyOf, w'.base.txs[u].call, w'.infos[u]) {
      CommitUse(w, t, u, keyOf);
    }
  }

  /** A step of the base alone, or the end of `t` without a trace. */
  lemma BaseFair(w: World, l: Label, t: Tid, keyOf: KeyUse)
    requires Sound(w) && Fair(w, keyOf) && forall u | u != t :: !Concerns(l, u)
    ensures Fair(w.(base := Step(w.base, l), infos := w.infos - {t}), keyOf)
  {
    StepFrames(w, l, t);
    StepExtends(w.base, l);
    FairLocal(w, w.(base := Step(w.base, l), infos := w.infos - {t}), t, keyOf);
  }

  lemma OpenFair(w: World, k: Key, cap: string, wf: T.Workflow, sem: Option<T.Semantic>, keyOf: KeyUse)
    requires Sound(w) && Fair(w, keyOf) && (sem.Some? ==> k == keyOf(sem.value, wf))
    ensures Fair(Do(w, OpenCall(k, cap, wf, sem)), keyOf)
  {
    StepFrames(w, BeginExec(k, cap), w.base.next);
    StepExtends(w.base, BeginExec(k, cap));
    FairLocal(w, Do(w, OpenCall(k, cap, wf, sem)), w.base.next, keyOf);
  }

  lemma ClaimFair(w: World, t: Tid, keyOf: KeyUse)
    requires Sound(w) && Fair(w, keyOf)
    ensures Fair(Do(w, ClaimsNext(t)), keyOf) && Fair(Do(w, ReleasesClaim(t)), keyOf)
  {
    if t in w.infos && w.infos[t].semantic.Some? {
      var i, x := w.infos[t], w.base.txs[t].call;
      var contested := Contested(w, t, i.semantic.value);
      ClaimUse(w.base, w.claims, keyOf, x, i, contested);
      if x.pc.AtLoad? { RowFair(w, t, ClaimStmt(w.claims, i, contested), keyOf); }
      RowFair(w, t, ReleaseStmt(w.claims, i, contested), keyOf);
    }
  }

  lemma DoFair(w: World, act: Act, keyOf: KeyUse)
    requires Sound(w) && Fair(w, keyOf)
    requires act.OpenCall? && act.semantic.Some? ==> act.key == keyOf(act.semantic.value, act.workflow)
    ensures Fair(Do(w, act), keyOf)
  {
    match act
    case OpenCall(k, cap, wf, sem) => OpenFair(w, k, cap, wf, sem, keyOf);
    case ClaimsNext(t) => ClaimFair(w, t, keyOf);
    case ReleasesClaim(t) => ClaimFair(w, t, keyOf);
    case Advances(t, c) => if t in w.infos { CallFair(w, t, c, keyOf); } else { TraceFair(w, Advance(t, c), t, keyOf); }
    case SetAuth(a) => TraceFair(w, SetAuthority(a), w.base.next, keyOf);
    case OpenRepair(f, sk, v) => TraceFair(w, BeginRec(f, sk, v), w.base.next, keyOf);
    case RollsBack(t) => BaseFair(w, RollbackTx(t), t, keyOf);
    case Commits(t) =>
      if t !in w.infos {
        TraceFair(w, CommitTx(t), t, keyOf);
      } else if w.infos[t].stage.Turned? {
        BaseFair(w, RollbackTx(t), t, keyOf);
      } else if Ready(w, t) {
        CommitFair(w, t, keyOf);
      }
  }

  lemma TraceFair(w: World, l: Label, t: Tid, keyOf: KeyUse)
    requires Sound(w) && Fair(w, keyOf) && t !in w.infos && forall u | u != t :: !Concerns(l, u)
    ensures Fair(w.(base := Step(w.base, l)), keyOf)
  {
    BaseFair(w, l, t, keyOf);
    assert w.infos - {t} == w.infos;
  }

  lemma {:induction false} AfterFair(acts: seq<Act>, keyOf: KeyUse)
    requires Uses(acts, keyOf)
    ensures Fair(After(START, acts), keyOf)
    decreases |acts|
  {
    if acts != [] {
      var init := acts[..|acts| - 1];
      assert Uses(init, keyOf);
      AfterFair(init, keyOf);
      AfterSound(init);
      DoFair(After(START, init), acts[|acts| - 1], keyOf);
    }
  }

  /** The key a schedule uses for an action and a workflow. */
  ghost function UsedKey(acts: seq<Act>, a: T.Semantic, wf: T.Workflow): Key {
    if i :| 0 <= i < |acts| && Opens(acts[i], a, wf) then acts[i].key else ""
  }

  /** In every schedule of statements, of any number of concurrent calls, in which every workflow uses an action
      for one key only: at most one workflow ever commits a claimed success for a subject and semantic action,
      and its claim stands from then on. */
  lemma OneWorkflowPerAction(acts: seq<Act>, m: nat, n: nat)
    requires OneKeyPerAction(acts)
    requires var wins := After(START, acts).wins; m < |wins| && n < |wins| && wins[m].action == wins[n].action
    ensures After(START, acts).wins[m].workflow == After(START, acts).wins[n].workflow
    ensures var w := After(START, acts); Holds(w.claims, w.wins[m].action, w.wins[m].workflow)
  {
    var keyOf: KeyUse := (a, wf) => UsedKey(acts, a, wf);
    forall i | 0 <= i < |acts| && acts[i].OpenCall? && acts[i].semantic.Some?
      ensures acts[i].key == keyOf(acts[i].semantic.value, acts[i].workflow)
    {
      assert Opens(acts[i], acts[i].semantic.value, acts[i].workflow);
    }
    AfterFair(acts, keyOf);
    var w := After(START, acts);
    assert Won(w, keyOf, m) && Won(w, keyOf, n);
  }

  // ----- without that discipline -----

  /** `t` commits the deletion of the workflow's claim. */
  ghost predicate Removes(w: World, act: Act, a: T.Semantic, wf: T.Workflow) {
    && act.Commits? && Ready(w, act.t)
    && w.infos[act.t].row.Removed? && w.infos[act.t].semantic == Some(a) && w.infos[act.t].workflow == wf
  }

  lemma LosingStep(w: World, act: Act, a: T.Semantic, wf: T.Workflow)
    requires Sound(w) && Holds(w.claims, a, wf) && !Holds(Do(w, act).claims, a, wf)
    ensures Removes(w, act, a, wf)
  {
    if act.Commits? && Ready(w, act.t) { PublishKeeps(w.claims, w.base.txs[act.t].call, w.infos[act.t], a, wf); }
  }

  /** A claim that stood at `h` and no longer stands at `end` was removed by its own workflow in between. */
  lemma {:induction false} LostBetween(acts: seq<Act>, h: nat, end: nat, a: T.Semantic, wf: T.Workflow) returns (k: nat)
    requires h <= end <= |acts| && Holds(After(START, acts[..h]).claims, a, wf) && !Holds(After(START, acts[..end]).claims, a, wf)
    ensures h <= k < end && Removes(After(START, acts[..k]), acts[k], a, wf)
    decreases end
  {
    k := end - 1;
    assert acts[..end][..k] == acts[..k];
    if Holds(After(START, acts[..k]).claims, a, wf) {
      AfterSound(acts[..k]);
      LosingStep(After(START, acts[..k]), acts[k], a, wf);
    } else {
      k := LostBetween(acts, h, k, a, wf);
    }
  }

  /** At some point of the schedule the workflow's claim of the action was committed. */
  ghost predicate HeldOnce(acts: seq<Act>, a: T.Semantic, wf: T.Workflow) {
    exists h | 0 <= h <= |acts| :: Holds(After(START, acts[..h]).claims, a, wf)
  }

  lemma HeldLater(acts: seq<Act>, a: T.Semantic, wf: T.Workflow)
    requires acts != [] && HeldOnce(acts[..|acts| - 1], a, wf)
    ensures HeldOnce(acts, a, wf)
  {
    var init := acts[..|acts| - 1];
    var h :| 0 <= h <= |init| && Holds(After(START, init[..h]).claims, a, wf);
    assert acts[..h] == init[..h];
  }

  lemma HeldNow(acts: seq<Act>, a: T.Semantic, wf: T.Workflow)
    requires Holds(After(START, acts).claims, a, wf)
    ensures HeldOnce(acts, a, wf)
  {
    assert acts[..|acts|] == acts;
  }

  /** A call comes to hold its action by its own INSERT or by finding its workflow's claim. */
  lemma HoldStep(w: World, act: Act, t: Tid)
    requires t in Do(w, act).infos && Do(w, act).infos[t].held && !Took(Do(w, act).infos[t])
    ensures var i := Do(w, act).infos[t];
      (t in w.infos && w.infos[t].held && !Took(w.infos[t]) && w.infos[t].semantic == i.semantic && w.infos[t].workflow == i.workflow)
      || (i.semantic.Some? && Holds(w.claims, i.semantic.value, i.workflow))
      || (t in w.infos && Took(w.infos[t]))
  {
  }

  lemma TookStays(w: World, act: Act, t: Tid)
    requires Sound(w) && t in w.infos && t in Do(w, act).infos && Took(w.infos[t]) && !(act.OpenCall? && t == w.base.next)
    ensures Took(Do(w, act).infos[t])
  {
    assert InfoOk(w.claims, w.base.txs[t].call, w.infos[t]);
  }

  lemma {:induction false} HolderHeldOnce(acts: seq<Act>, t: Tid)
    requires t in After(START, acts).infos && After(START, acts).infos[t].held && !Took(After(START, acts).infos[t])
    ensures var i := After(START, acts).infos[t]; i.semantic.Some? && HeldOnce(acts, i.semantic.value, i.workflow)
    decreases |acts|
  {
    var init, last := acts[..|acts| - 1], acts[|acts| - 1];
    var w := After(START, init);
    AfterSound(acts);
    AfterSound(init);
    assert InfoOk(After(START, acts).claims, After(START, acts).base.txs[t].call, After(START, acts).infos[t]);
    HoldStep(w, last, t);
    var i := After(START, acts).infos[t];
    if t in w.infos && Took(w.infos[t]) {
      assert t < w.base.next;
      TookStays(w, last, t);
      assert false;
    } else if t in w.infos && w.infos[t].held && !Took(w.infos[t]) && w.infos[t].semantic == i.semantic && w.infos[t].workflow == i.workflow {
      HolderHeldOnce(init, t);
      HeldLater(acts, i.semantic.value, i.workflow);
    } else {
      HeldNow(init, i.semantic.value, i.workflow);
      HeldLater(acts, i.semantic.value, i.workflow);
    }
  }

  /** What the last step added to the wins, if anything. */
  lemma WinStep(w: World, act: Act)
    requires Sound(w)
    ensures Do(w, act).wins == w.wins
      || (act.Commits? && Ready(w, act.t) && w.infos[act.t].semantic.Some? && w.infos[act.t].held
          && Do(w, act).wins == w.wins + [Win(w.infos[act.t].semantic.value, w.infos[act.t].workflow, w.base.txs[act.t].call.key)]
          && (Took(w.infos[act.t]) ==> Holds(Do(w, act).claims, w.infos[act.t].semantic.value, w.infos[act.t].workflow)))
  {
    if act.Commits? && Ready(w, act.t) { assert InfoOk(w.claims, w.base.txs[act.t].call, w.infos[act.t]); }
  }

  lemma {:induction false} WinnerHeldOnce(acts: seq<Act>, n: nat)
    requires n < |After(START, acts).wins|
    ensures var win := After(START, acts).wins[n]; HeldOnce(acts, win.action, win.workflow)
    decreases |acts|
  {
    var init, last := acts[..|acts| - 1], acts[|acts| - 1];
    var w, win := After(START, init), After(START, acts).wins[n];
    AfterSound(init);
    WinStep(w, last);
    if n < |w.wins| {
      WinnerHeldOnce(init, n);
      HeldLater(acts, win.action, win.workflow);
    } else if Took(w.infos[last.t]) {
      HeldNow(acts, win.action, win.workflow);
    } else {
      HolderHeldOnce(init, last.t);
      HeldLater(acts, win.action, win.workflow);
    }
  }

  /** In every schedule, with however many keys per action: two workflows both commit a claimed success for an
      action only if by then one of them, the one whose claim stood first, has committed the deletion of it. */
  lemma SecondWorkflowNeedsARemoval(acts: seq<Act>, m: nat, n: nat) returns (k: nat, wf: T.Workflow)
    requires var wins := After(START, acts).wins;
      m < |wins| && n < |wins| && wins[m].action == wins[n].action && wins[m].workflow != wins[n].workflow
    ensures var wins := After(START, acts).wins;
      && (wf == wins[m].workflow || wf == wins[n].workflow)
      && k < |acts| && Removes(After(START, acts[..k]), acts[k], wins[m].action, wf)
  {
    var wins := After(START, acts).wins;
    var a := wins[m].action;
    WinnerHeldOnce(acts, m);
    WinnerHeldOnce(acts, n);
    var h :| 0 <= h <= |acts| && Holds(After(START, acts[..h]).claims, a, wins[m].workflow);
    var g :| 0 <= g <= |acts| && Holds(After(START, acts[..g]).claims, a, wins[n].workflow);
    if h < g {
      wf := wins[m].workflow;
      k := LostBetween(acts, h, g, a, wf);
    } else {
      wf := wins[n].workflow;
      k := LostBetween(acts, g, h, a, wf);
    }
  }

  // ----- a schedule that leaves a failed action claimed -----

  /** A world without its logs. */
  datatype Core = Core(
    authority: Option<Authority>, adapter: map<Key, Token>, ledger: map<Key, LedgerRow>, receipts: map<Key, Receipt>,
    lock: Option<Tid>, txs: map<Tid, Tx>, next: nat, claims: map<T.Semantic, T.Workflow>, infos: map<Tid, Info>)

  function CoreOf(w: World): Core {
    Core(w.base.authority, w.base.adapter, w.base.ledger, w.base.receipts, w.base.lock, w.base.txs, w.base.next, w.claims, w.infos)
  }

  ghost predicate Reached(acts: seq<Act>, c: Core) {
    CoreOf(After(START, acts)) == c
  }

  lemma OneMore(acts: seq<Act>, act: Act)
    ensures After(START, acts + [act]) == Do(After(START, acts), act)
  {
    assert (acts + [act])[..|acts|] == acts;
  }

  ghost function NextStmt(c: Core, t: Tid, choice: Choice): Stmt
    requires t in c.txs && c.txs[t].Exec?
  {
    var x := c.txs[t].call;
    var busy := exists u | u in c.txs :: u != t && c.txs[u].Exec? && x.key in c.txs[u].call.receiptW;
    ExecStmt(View(c.adapter, c.ledger, c.receipts, c.lock == Some(t)), t, x,
             Around(c.authority, c.lock == None || c.lock == Some(t), busy, c.next), choice)
  }

  function Moved(c: Core, t: Tid, x: Call, m: Stmt): Core
    requires m.Move? && t in c.infos
  {
    c.(txs := c.txs[t := Exec(m.call)], next := c.next + 1,
       lock := if m.lock then Some(t) else c.lock,
       adapter := if m.commit then c.adapter[x.key := c.next] else c.adapter,
       infos := if m.call.pc.Returned? && !x.pc.Returned? then c.infos[t := Reply(c.infos[t], AnswerOf(x))] else c.infos)
  }

  lemma MovesCore(w: World, t: Tid, choice: Choice)
    requires t in w.infos && t in w.base.txs && w.base.txs[t].Exec? && (w.base.txs[t].call.pc.AtAuthority? || w.infos[t].stage.Working?)
    requires var x := w.base.txs[t].call; ExecStmt(ViewOf(w.base, t), t, x, AroundOf(w.base, t, x), choice).Move?
    ensures var x := w.base.txs[t].call;
      CoreOf(CallStmt(w, t, choice)) == Moved(CoreOf(w), t, x, ExecStmt(ViewOf(w.base, t), t, x, AroundOf(w.base, t, x), choice))
  {
  }

  lemma SameStmt(w: World, t: Tid, choice: Choice)
    requires t in w.base.txs && w.base.txs[t].Exec?
    ensures var x := w.base.txs[t].call; NextStmt(CoreOf(w), t, choice) == ExecStmt(ViewOf(w.base, t), t, x, AroundOf(w.base, t, x), choice)
  {
    var x, c := w.base.txs[t].call, CoreOf(w);
    assert ReceiptBusy(w.base, t, x.key) == exists u | u in c.txs :: u != t && c.txs[u].Exec? && x.key in c.txs[u].call.receiptW;
  }

  /** One statement of a call, on cores. */
  lemma Moves1(acts: seq<Act>, c: Core, t: Tid, choice: Choice) returns (acts': seq<Act>, c': Core)
    requires Reached(acts, c) && t in c.txs && c.txs[t].Exec? && t in c.infos
    requires (c.txs[t].call.pc.AtAuthority? || c.infos[t].stage.Working?) && NextStmt(c, t, choice).Move?
    ensures c' == Moved(c, t, c.txs[t].call, NextStmt(c, t, choice)) && Reached(acts', c')
  {
    acts' := acts + [Advances(t, choice)];
    OneMore(acts, Advances(t, choice));
    SameStmt(After(START, acts), t, choice);
    MovesCore(After(START, acts), t, choice);
    c' := Moved(c, t, c.txs[t].call, NextStmt(c, t, choice));
  }

  const LIVE := Authority(true, 0, 0)
  const AMBIGUOUS := Choice(false, Ambiguous, false, false)

  /** A call at `pc` that has read LIVE once, and with `reread` twice. */
  function CallAt(k: Key, cap: string, pc: ExecPc, reread: bool): Call {
    Call(k, cap, pc, if pc.AtAuthority? then None else Some(LIVE), if reread then Some(LIVE) else None, None, Unknown, 0, map[], map[])
  }

  function Holder(wf: T.Workflow, a: T.Semantic): Info {
    Info(wf, Some(a), Working, true, Added, NoAnswer)
  }

  /** A call takes the claim of its action and gets as far as the lock before its INSERT. */
  lemma TakesTheClaim(k: Key, cap: string, wf: T.Workflow, a: T.Semantic) returns (acts: seq<Act>, c: Core)
    ensures Reached(acts, c)
    ensures c == Core(Some(LIVE), map[], map[], map[], None, map[0 := Exec(CallAt(k, cap, AtPendingLock, true))], 5, map[], map[0 := Holder(wf, a)])
  {
    acts := [];
    OneMore(acts, SetAuth(Some(LIVE)));
    acts := acts + [SetAuth(Some(LIVE))];
    OneMore(acts, OpenCall(k, cap, wf, Some(a)));
    acts := acts + [OpenCall(k, cap, wf, Some(a))];
    c := Core(Some(LIVE), map[], map[], map[], None, map[0 := Exec(CallAt(k, cap, AtAuthority, false))], 1, map[],
              map[0 := Info(wf, Some(a), Selecting, false, Untouched, NoAnswer)]);
    assert Reached(acts, c);
    acts, c := Moves1(acts, c, 0, AMBIGUOUS);
    assert c.txs == map[0 := Exec(CallAt(k, cap, AtLoad, false))];
    acts, c := AddsTheClaim(acts, c, wf, a);
    acts, c := Moves1(acts, c, 0, AMBIGUOUS);
    assert c.txs == map[0 := Exec(CallAt(k, cap, AtBranch, false))];
    acts, c := Moves1(acts, c, 0, AMBIGUOUS);
    assert c.txs == map[0 := Exec(CallAt(k, cap, AtReread, false))];
    acts, c := Moves1(acts, c, 0, AMBIGUOUS);
    assert c.txs == map[0 := Exec(CallAt(k, cap, AtPendingLock, true))];
  }

  /** SELECT finds nothing, INSERT succeeds. */
  lemma AddsTheClaim(acts: seq<Act>, c: Core, wf: T.Workflow, a: T.Semantic) returns (acts': seq<Act>, c': Core)
    requires Reached(acts, c) && 0 in c.txs && c.txs[0].Exec? && c.txs[0].call.pc.AtLoad? && c.claims == map[]
    requires c.infos == map[0 := Info(wf, Some(a), Selecting, false, Untouched, NoAnswer)]
    ensures Reached(acts', c') && c' == c.(infos := map[0 := Holder(wf, a)])
  {
    OneMore(acts, ClaimsNext(0));
    var acts1 := acts + [ClaimsNext(0)];
    var w1 := After(START, acts1);
    assert w1.infos == map[0 := Info(wf, Some(a), Adding, false, Untouched, NoAnswer)];
    OneMore(acts1, ClaimsNext(0));
    acts', c' := acts1 + [ClaimsNext(0)], c.(infos := map[0 := Holder(wf, a)]);
    assert !Contested(w1, 0, a);
  }

  /** What stays while the second call runs: the holder waits, and what was settled before. */
  predicate Beside(c: Core, held: Core) {
    && c.authority == held.authority && c.claims == held.claims && 0 in c.txs && 0 in held.txs && c.txs[0] == held.txs[0]
    && c.txs.Keys == c.infos.Keys == {0, 5} && 0 in held.infos && c.infos[0] == held.infos[0]
    && c.infos[5].semantic.None? && !c.infos[5].held && c.txs[5].Exec? && c.ledger == map[] && c.receipts == map[]
    && c.txs[0].Exec? && c.txs[0].call.receiptW == map[]
  }

  /** The second call's next statement moves it to `x'`. */
  lemma SecondMoves(acts: seq<Act>, c: Core, held: Core, x': Call, lock: bool, commit: bool) returns (acts': seq<Act>, c': Core)
    requires Reached(acts, c) && Beside(c, held) && c.infos[5].stage.Working? && !x'.pc.Returned?
    requires SecondStmt(c.txs[5].call, c.authority, c.adapter, c.lock, c.next) == Move(x', lock, commit)
    ensures Reached(acts', c') && Beside(c', held) && c'.infos[5].stage.Working? && c'.txs[5] == Exec(x') && c'.next == c.next + 1
    ensures c'.lock == (if lock then Some(5) else c.lock)
    ensures c'.adapter == if commit then c.adapter[c.txs[5].call.key := c.next] else c.adapter
  {
    acts', c' := Moves1(acts, c, 5, AMBIGUOUS);
  }

  /** The second call's next statement while nothing is committed and no receipt is pending elsewhere. */
  function SecondStmt(x: Call, authority: Option<Authority>, adapter: map<Key, Token>, lock: Option<Tid>, next: nat): Stmt {
    ExecStmt(View(adapter, map[], map[], lock == Some(5)), 5, x, Around(authority, lock == None || lock == Some(5), false, next), AMBIGUOUS)
  }

  lemma DeliverStmts(k: Key, cap: string, authority: Option<Authority>, adapter: map<Key, Token>, next: nat)
    ensures k !in adapter ==>
      && SecondStmt(Pended(k, cap, AtReload), authority, adapter, Some(5), next) == Move(Pended(k, cap, AtAdapterCommit), false, false)
      && SecondStmt(Pended(k, cap, AtAdapterCommit), authority, adapter, Some(5), next) == Move(Pended(k, cap, AtMarkCommitted), false, true)
    ensures k in adapter ==>
      && SecondStmt(Pended(k, cap, AtMarkCommitted), authority, adapter, Some(5), next) == Move(Committed5(k, cap, AtCrashPoint, adapter[k]), false, false)
  {
  }

  lemma ReceiptStmts(k: Key, cap: string, authority: Option<Authority>, adapter: map<Key, Token>, next: nat, id: nat)
    requires k in adapter
    ensures SecondStmt(Committed5(k, cap, AtCrashPoint, adapter[k]), authority, adapter, Some(5), next) == Move(Committed5(k, cap, AtReceipt, adapter[k]), false, false)
    ensures SecondStmt(Committed5(k, cap, AtReceipt, adapter[k]), authority, adapter, Some(5), next) == Move(Receipted5(k, cap, AtCompleteLock, adapter[k], next), false, false)
    ensures SecondStmt(Receipted5(k, cap, AtCompleteLock, adapter[k], id), authority, adapter, Some(5), next) == Move(Receipted5(k, cap, AtCompleteUpdate, adapter[k], id), true, false)
  {
  }

  lemma CompleteStmts(k: Key, cap: string, authority: Option<Authority>, adapter: map<Key, Token>, next: nat, id: nat)
    requires k in adapter
    ensures var m := SecondStmt(Receipted5(k, cap, AtCompleteUpdate, adapter[k], id), authority, adapter, Some(5), next);
      && m.Move? && !m.lock && !m.commit && m.call.pc.Returned? && IsDone(m.call.ledgerW, k, false)
      && m.call.ledgerW[k].outcome == Some(OutcomeAmbiguous) && m.call.key == k
  {
  }

  function Pended(k: Key, cap: string, pc: ExecPc): Call {
    var x := CallAt(k, cap, pc, true);
    x.(ledgerW := x.ledgerW[k := PendingRow(5, cap)], row := Some(PendingRow(5, cap)))
  }

  function Committed5(k: Key, cap: string, pc: ExecPc, token: Token): Call {
    var x, row := Pended(k, cap, pc), MarkCommitted(PendingRow(5, cap), token, (0, 0));
    x.(ledgerW := x.ledgerW[k := row], row := Some(row))
  }

  function Receipted5(k: Key, cap: string, pc: ExecPc, token: Token, id: nat): Call {
    var x := Committed5(k, cap, pc, token);
    x.(receiptW := x.receiptW[k := Receipt(id, VAmbiguous, Some(token))], post := Ambiguous, receiptId := id)
  }

  /** A second call without an action, on the same key, up to its re-read of the authority. */
  lemma SecondCallOpens(acts: seq<Act>, held: Core, k: Key, cap: string, wf: T.Workflow, a: T.Semantic, other: T.Workflow)
    returns (acts': seq<Act>, c: Core)
    requires Reached(acts, held) && held == Core(Some(LIVE), map[], map[], map[], None, map[0 := Exec(CallAt(k, cap, AtPendingLock, true))], 5, map[], map[0 := Holder(wf, a)])
    ensures Reached(acts', c) && Beside(c, held) && c.infos[5].stage.Working? && c.adapter == map[] && c.lock == None
    ensures c.txs[5].call == CallAt(k, cap, AtReread, false)
  {
    OneMore(acts, OpenCall(k, cap, other, None));
    acts' := acts + [OpenCall(k, cap, other, None)];
    c := held.(txs := held.txs[5 := Exec(CallAt(k, cap, AtAuthority, false))], next := 6,
               infos := held.infos[5 := Info(other, None, Working, false, Untouched, NoAnswer)]);
    assert Reached(acts', c) && Beside(c, held);
    acts', c := SecondMoves(acts', c, held, CallAt(k, cap, AtLoad, false), false, false);
    acts', c := SecondMoves(acts', c, held, CallAt(k, cap, AtBranch, false), false, false);
    acts', c := SecondMoves(acts', c, held, CallAt(k, cap, AtReread, false), false, false);
  }

  /** Up to its PENDING row. */
  lemma SecondCallInserts(acts: seq<Act>, start: Core, held: Core, k: Key, cap: string) returns (acts': seq<Act>, c: Core)
    requires Reached(acts, start) && Beside(start, held) && start.infos[5].stage.Working? && start.adapter == map[] && start.lock == None
    requires start.txs[5].call == CallAt(k, cap, AtReread, false) && start.authority == Some(LIVE)
    ensures Reached(acts', c) && Beside(c, held) && c.infos[5].stage.Working? && c.adapter == map[] && c.lock == Some(5)
    ensures c.txs[5].call == Pended(k, cap, AtReload)
  {
    acts', c := SecondMoves(acts, start, held, CallAt(k, cap, AtPendingLock, true), false, false);
    acts', c := SecondMoves(acts', c, held, CallAt(k, cap, AtPendingInsert, true), true, false);
    acts', c := SecondMoves(acts', c, held, Pended(k, cap, AtReload), false, false);
  }

  /** It commits to the adapter and marks its row COMMITTED. */
  lemma SecondCallDelivers(acts: seq<Act>, start: Core, held: Core, k: Key, cap: string) returns (acts': seq<Act>, c: Core)
    requires Reached(acts, start) && Beside(start, held) && start.infos[5].stage.Working? && start.adapter == map[] && start.lock == Some(5)
    requires start.txs[5].call == Pended(k, cap, AtReload)
    ensures Reached(acts', c) && Beside(c, held) && c.infos[5].stage.Working? && k in c.adapter && c.lock == Some(5)
    ensures c.txs[5].call == Committed5(k, cap, AtCrashPoint, c.adapter[k])
  {
    DeliverStmts(k, cap, start.authority, start.adapter, start.next);
    acts', c := SecondMoves(acts, start, held, Pended(k, cap, AtAdapterCommit), false, false);
    DeliverStmts(k, cap, c.authority, c.adapter, c.next);
    acts', c := SecondMoves(acts', c, held, Pended(k, cap, AtMarkCommitted), false, true);
    DeliverStmts(k, cap, c.authority, c.adapter, c.next);
    acts', c := SecondMoves(acts', c, held, Committed5(k, cap, AtCrashPoint, c.adapter[k]), false, false);
  }

  /** It is observed AMBIGUOUS. */
  lemma SecondCallReceipts(acts: seq<Act>, start: Core, held: Core, k: Key, cap: string) returns (acts': seq<Act>, c: Core, id: nat)
    requires Reached(acts, start) && Beside(start, held) && start.infos[5].stage.Working? && k in start.adapter && start.lock == Some(5)
    requires start.txs[5].call == Committed5(k, cap, AtCrashPoint, start.adapter[k])
    ensures Reached(acts', c) && Beside(c, held) && c.infos[5].stage.Working? && k in c.adapter && c.lock == Some(5)
    ensures c.txs[5].call == Receipted5(k, cap, AtCompleteUpdate, c.adapter[k], id)
  {
    ReceiptStmts(k, cap, start.authority, start.adapter, start.next, 0);
    acts', c := SecondMoves(acts, start, held, Committed5(k, cap, AtReceipt, start.adapter[k]), false, false);
    id := c.next;
    ReceiptStmts(k, cap, c.authority, c.adapter, c.next, id);
    acts', c := SecondMoves(acts', c, held, Receipted5(k, cap, AtCompleteLock, c.adapter[k], id), false, false);
    ReceiptStmts(k, cap, c.authority, c.adapter, c.next, id);
    acts', c := SecondMoves(acts', c, held, Receipted5(k, cap, AtCompleteUpdate, c.adapter[k], id), true, false);
  }

  /** And completes its row. */
  lemma SecondCallCompletes(acts: seq<Act>, start: Core, held: Core, k: Key, cap: string, id: nat) returns (acts': seq<Act>, c: Core)
    requires Reached(acts, start) && Beside(start, held) && start.infos[5].stage.Working? && k in start.adapter && start.lock == Some(5)
    requires start.txs[5].call == Receipted5(k, cap, AtCompleteUpdate, start.adapter[k], id)
    ensures Reached(acts', c) && Beside(c, held) && c.infos[5].stage.Answered? && c.infos[5].answer == Report(Some(OutcomeAmbiguous), false)
    ensures c.lock == Some(5) && c.txs[5].call.pc.Returned?
    ensures IsDone(c.txs[5].call.ledgerW, k, false) && c.txs[5].call.ledgerW[k].outcome == Some(OutcomeAmbiguous)
  {
    CompleteStmts(k, cap, start.authority, start.adapter, start.next, id);
    acts', c := Moves1(acts, start, 5, AMBIGUOUS);
  }

  lemma SecondCallCommits(acts: seq<Act>, done: Core, held: Core, k: Key) returns (acts': seq<Act>, c: Core)
    requires Reached(acts, done) && Beside(done, held) && done.infos[5].stage.Answered? && !IsSuccess(done.infos[5].answer)
    requires done.lock == Some(5) && done.txs[5].call.pc.Returned?
    ensures Reached(acts', c) && c.authority == done.authority && c.claims == done.claims && c.lock == None
    ensures c.ledger == done.txs[5].call.ledgerW && c.txs == map[0 := held.txs[0]] && c.infos == map[0 := held.infos[0]]
  {
    acts' := acts + [Commits(5)];
    OneMore(acts, Commits(5));
    c := CoreOf(After(START, acts'));
    assert map[] + done.txs[5].call.ledgerW == done.txs[5].call.ledgerW;
  }

  /** The holder finds its key completed, answers AMBIGUOUS and keeps its claim. */
  lemma HolderFindsItDone(acts: seq<Act>, start: Core, k: Key, cap: string, wf: T.Workflow, a: T.Semantic) returns (acts': seq<Act>, c: Core)
    requires Reached(acts, start) && start.lock == None && start.claims == map[] && start.infos == map[0 := Holder(wf, a)]
    requires start.txs == map[0 := Exec(CallAt(k, cap, AtPendingLock, true))]
    requires IsDone(start.ledger, k, false) && start.ledger[k].outcome == Some(OutcomeAmbiguous)
    ensures Reached(acts', c) && c.claims == map[] && 0 in c.txs && c.txs[0].Exec? && c.txs[0].call.pc.Returned?
    ensures c.infos == map[0 := Holder(wf, a).(stage := Answered, answer := Report(Some(OutcomeAmbiguous), true))]
  {
    acts', c := HolderLocks(acts, start, k, cap);
    acts', c := HolderReloads(acts', c, k, cap);
    acts', c := Moves1(acts', c, 0, AMBIGUOUS);
  }

  lemma HolderReloads(acts: seq<Act>, start: Core, k: Key, cap: string) returns (acts': seq<Act>, c: Core)
    requires Reached(acts, start) && k in start.ledger && 0 in start.infos && start.infos[0].stage.Working?
    requires start.txs == map[0 := Exec(CallAt(k, cap, AtReload, true))]
    ensures Reached(acts', c) && c.txs == map[0 := Exec(CallAt(k, cap, AtAdapterCommit, true).(row := Some(start.ledger[k])))]
    ensures c.ledger == start.ledger && c.claims == start.claims && c.infos == start.infos
  {
    acts', c := Moves1(acts, start, 0, AMBIGUOUS);
  }

  lemma HolderLocks(acts: seq<Act>, start: Core, k: Key, cap: string) returns (acts': seq<Act>, c: Core)
    requires Reached(acts, start) && start.lock == None && k in start.ledger && 0 in start.infos && start.infos[0].stage.Working?
    requires start.txs == map[0 := Exec(CallAt(k, cap, AtPendingLock, true))]
    ensures Reached(acts', c) && c.txs == map[0 := Exec(CallAt(k, cap, AtReload, true))] && c.ledger == start.ledger
    ensures c.claims == start.claims && c.infos == start.infos
  {
    acts', c := Moves1(acts, start, 0, AMBIGUOUS);
    assert c.txs == map[0 := Exec(CallAt(k, cap, AtPendingInsert, true))];
    acts', c := HolderMeetsTheRow(acts', c, k, cap);
  }

  lemma HolderMeetsTheRow(acts: seq<Act>, start: Core, k: Key, cap: string) returns (acts': seq<Act>, c: Core)
    requires Reached(acts, start) && k in start.ledger && 0 in start.infos && start.infos[0].stage.Working?
    requires start.txs == map[0 := Exec(CallAt(k, cap, AtPendingInsert, true))]
    ensures Reached(acts', c) && c.txs == map[0 := Exec(CallAt(k, cap, AtReload, true))] && c.ledger == start.ledger
    ensures c.claims == start.claims && c.infos == start.infos
  {
    acts', c := Moves1(acts, start, 0, AMBIGUOUS);
  }

  /** Such a schedule exists for every key, action and workflow: the call answers AMBIGUOUS, commits, and its
      action stays claimed. */
  lemma FailedActionStaysClaimed(k: Key, cap: string, wf: T.Workflow, a: T.Semantic, other: T.Workflow) returns (acts: seq<Act>)
    ensures var w := After(START, acts);
      && Ready(w, 0) && w.infos[0].answer == Report(Some(OutcomeAmbiguous), true)
      && Holds(CommitStmt(w, 0).claims, a, wf)
  {
    var c, held;
    acts, held := TakesTheClaim(k, cap, wf, a);
    acts, c := SecondCallOpens(acts, held, k, cap, wf, a, other);
    acts, c := SecondCallInserts(acts, c, held, k, cap);
    acts, c := SecondCallDelivers(acts, c, held, k, cap);
    var id;
    acts, c, id := SecondCallReceipts(acts, c, held, k, cap);
    acts, c := SecondCallCompletes(acts, c, held, k, cap, id);
    acts, c := SecondCallCommits(acts, c, held, k);
    acts, c := HolderFindsItDone(acts, c, k, cap, wf, a);
    KeptExactlyWhen(acts, 0);
    StaysClaimedExactlyWhen(acts, 0);
  }
}
