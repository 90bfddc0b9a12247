/**
 Statement-level interleavings of one tenant's transactions: any number of executor calls and
 reconciliation runs, authority changes between any two statements, rollbacks at any statement.
 Each transaction sees committed rows plus its own uncommitted writes; the local-effect scope lock
 is held from its acquisition to the end of the transaction.
 */
module TenantInterleaving {
  import opened Wrappers
  import opened Effects

  type Tid = nat
  type StateKey = string

  datatype Filter = Filter(capability: Option<string>, key: Option<Key>)

  predicate Matches(f: Filter, key: Key, row: LedgerRow) {
    && (f.capability.Some? ==> row.capability == f.capability.value)
    && (f.key.Some? ==> key == f.key.value)
  }

  /** Program points of executeTrustedEffect, one per database or adapter statement. */
  datatype ExecPc =
    | AtAuthority | AtLoad | AtBranch
    | AtRecreateLock | AtRecreateInsert | AtPromoteLock | AtPromoteUpdate
    | AtReread | AtPendingLock | AtPendingInsert | AtReload
    | AtAdapterCommit | AtMarkCommitted | AtCrashPoint
    | AtReceipt | AtCompleteLock | AtCompleteUpdate
    | Returned | Failure

  /** One executor call and the writes its transaction has not committed yet. */
  datatype Call = Call(
    key: Key, capability: string, pc: ExecPc,
    decision: Option<Authority>, reread: Option<Authority>,
    row: Option<LedgerRow>, post: Post, receiptId: nat,
    ledgerW: map<Key, LedgerRow>, receiptW: map<Key, Receipt>)

  /** Program points of reconcileState. */
  datatype RecPc = AtDecide | AtOtherWrite | AtScopeLock | AtRecheck | AtRepairWrite | Stopped | Refused

  datatype Reconcile = Reconcile(
    filter: Filter, stateKey: StateKey, value: string, pc: RecPc, repairing: bool,
    recordW: map<StateKey, string>)

  datatype Tx = Exec(call: Call) | Rec(rec: Reconcile)

  datatype Event =
    | AuthoritySet(authority: Option<Authority>)
    | Decided(t: Tid, seen: Authority)
    | Reread(t: Tid, seen: Authority)
    | FreshCommit(t: Tid, key: Key, token: Token)
    | RepairChecked(t: Tid)
    | Ended(t: Tid)

  datatype State = State(
    authority: Option<Authority>,
    adapter: map<Key, Token>,
    ledger: map<Key, LedgerRow>,
    receipts: map<Key, Receipt>,
    records: map<StateKey, string>,
    lock: Option<Tid>,
    txs: map<Tid, Tx>,
    next: nat,
    log: seq<Event>)

  const EMPTY: State := State(None, map[], map[], map[], map[], None, map[], 0, [])

  /** Everything a statement's outcome may depend on besides the state. */
  datatype Choice = Choice(deny: bool, requested: Post, crash: bool, repair: bool)

  datatype Label =
    | SetAuthority(authority: Option<Authority>)
    | BeginExec(key: Key, capability: string)
    | BeginRec(filter: Filter, stateKey: StateKey, value: string)
    | Advance(t: Tid, choice: Choice)
    | CommitTx(t: Tid)
    | RollbackTx(t: Tid)

  /** The tables and the lock as one transaction sees them. */
  datatype View = View(adapter: map<Key, Token>, ledger: map<Key, LedgerRow>, receipts: map<Key, Receipt>, locked: bool)

  function ViewOf(s: State, t: Tid): View {
    View(s.adapter, s.ledger, s.receipts, s.lock == Some(t))
  }

  // ----- one statement of an executor call -----

  /** The result of a statement: it waits, or it moves the call on, perhaps taking the scope lock or
      adding the key to the adapter. */
  datatype Stmt = Wait | Move(call: Call, lock: bool, commit: bool)

  function Goto(x: Call, pc: ExecPc): Stmt {
    Move(x.(pc := pc), false, false)
  }

  /** The row a statement of `x` reads: its own write if any, else the committed row. */
  function Visible(v: View, x: Call): Option<LedgerRow> {
    if x.key in x.ledgerW then Some(x.ledgerW[x.key])
    else if x.key in v.ledger then Some(v.ledger[x.key])
    else None
  }

  function Write(x: Call, row: LedgerRow, pc: ExecPc): Stmt {
    Move(x.(ledgerW := x.ledgerW[x.key := row], row := Some(row), pc := pc), false, false)
  }

  /** pg_advisory_xact_lock: waits while another open transaction holds it. */
  function Lock(free: bool, x: Call, pc: ExecPc): Stmt {
    if free then Move(x.(pc := pc), true, false) else Wait
  }

  function AuthorityStmt(a: Option<Authority>, x: Call, c: Choice): Stmt {
    if a.None? then Goto(x, Returned)
    else Goto(x.(decision := a), if c.deny then Returned else AtLoad)
  }

  function BranchStmt(v: View, x: Call): Stmt {
    if x.row.Some? && x.row.value.status.Completed? then Goto(x, Returned)
    else if (x.row.Some? && x.row.value.status.Committed?) || x.key in v.adapter then
      if x.row.None? then Goto(x, AtRecreateLock)
      else if x.row.value.status.Committed? then Goto(x, AtReceipt)
      else Goto(x, AtPromoteLock)
    else Goto(x, AtReread)
  }

  function RecreateStmt(v: View, t: Tid, x: Call): Stmt {
    if x.key in v.ledger || x.key !in v.adapter || x.decision.None? then Goto(x, Failure)
    else
      var a := x.decision.value;
      Write(x, CommittedRow(t, x.capability, v.adapter[x.key], (a.revocationEpoch, a.killEpoch)), AtReceipt)
  }

  function PromoteStmt(v: View, x: Call): Stmt {
    if x.key !in v.adapter || x.decision.None? || Visible(v, x).None? then Goto(x, Failure)
    else
      var prior, a := Visible(v, x).value, x.decision.value;
      var token := if prior.token.Some? then prior.token.value else v.adapter[x.key];
      var epochs := if prior.epochs.Some? then prior.epochs.value else (a.revocationEpoch, a.killEpoch);
      Write(x, MarkCommitted(prior, token, epochs), AtReceipt)
  }

  function RereadStmt(a: Option<Authority>, x: Call): Stmt {
    if a.None? || x.decision.None? then Goto(x, Returned)
    else Goto(x.(reread := a), if CommitAllowed(a.value, x.decision.value) then AtPendingLock else Returned)
  }

  function PendingInsertStmt(v: View, t: Tid, x: Call): Stmt {
    if x.key in v.ledger then Goto(x, AtReload)   // ON CONFLICT DO NOTHING
    else Write(x, PendingRow(t, x.capability), AtReload)
  }

  /** The duplicate test and `adapter.commit` run without a suspension point between them. */
  function AdapterStmt(v: View, t: Tid, x: Call): Stmt {
    if x.row.None? then Goto(x, Failure)
    else if x.row.value.status.Completed? then Goto(x, Returned)
    else if x.row.value.effectId != t && (x.row.value.status.Committed? || x.key in v.adapter) then Goto(x, AtReceipt)
    else Move(x.(pc := AtMarkCommitted), false, x.key !in v.adapter)
  }

  function MarkStmt(v: View, x: Call): Stmt {
    if x.reread.None? || x.key !in v.adapter || x.row.None? then Goto(x, Failure)
    else if Visible(v, x).Some? && Visible(v, x).value.effectId == x.row.value.effectId then
      var a := x.reread.value;
      Write(x, MarkCommitted(Visible(v, x).value, v.adapter[x.key], (a.revocationEpoch, a.killEpoch)), AtCrashPoint)
    else Goto(x, AtCrashPoint)
  }

  /** INSERT INTO execution_receipts: UNIQUE(idempotency_key) makes it wait for an uncommitted
      receipt of the same key and fail on a committed one. */
  function ReceiptStmt(v: View, x: Call, busy: bool, id: nat, c: Choice): Stmt {
    if busy then Wait
    else if x.key in v.receipts || x.row.None? then Goto(x, Failure)
    else
      var p := VerifyPostcondition(v.adapter, x.key, c.requested);
      var r := Receipt(id, MapPostcondition(p), x.row.value.token);
      Goto(x.(receiptW := x.receiptW[x.key := r], post := p, receiptId := id), AtCompleteLock)
  }

  function CompleteStmt(v: View, x: Call): Stmt {
    if x.row.Some? && Visible(v, x).Some? && Visible(v, x).value.effectId == x.row.value.effectId then
      Write(x, MarkCompleted(Visible(v, x).value, x.post, x.receiptId), Returned)
    else Goto(x, Returned)
  }

  datatype Around = Around(authority: Option<Authority>, lockFree: bool, receiptBusy: bool, next: nat)

  function ExecStmt(v: View, t: Tid, x: Call, e: Around, c: Choice): Stmt {
    match x.pc
    case AtAuthority => AuthorityStmt(e.authority, x, c)
    case AtLoad => Goto(x.(row := Visible(v, x)), AtBranch)
    case AtBranch => BranchStmt(v, x)
    case AtRecreateLock => Lock(e.lockFree, x, AtRecreateInsert)
    case AtRecreateInsert => RecreateStmt(v, t, x)
    case AtPromoteLock => Lock(e.lockFree, x, AtPromoteUpdate)
    case AtPromoteUpdate => PromoteStmt(v, x)
    case AtReread => RereadStmt(e.authority, x)
    case AtPendingLock => Lock(e.lockFree, x, AtPendingInsert)
    case AtPendingInsert => PendingInsertStmt(v, t, x)
    case AtReload => Goto(x.(row := Visible(v, x)), AtAdapterCommit)
    case AtAdapterCommit => AdapterStmt(v, t, x)
    case AtMarkCommitted => MarkStmt(v, x)
    case AtCrashPoint => Goto(x, if c.crash then Returned else AtReceipt)
    case AtReceipt => ReceiptStmt(v, x, e.receiptBusy, e.next, c)
    case AtCompleteLock => Lock(e.lockFree, x, AtCompleteUpdate)
    case AtCompleteUpdate => CompleteStmt(v, x)
    case _ => Wait
  }

  /** What the log records about a statement that moved. */
  function EventsOf(s: State, t: Tid, x: Call, m: Stmt): seq<Event>
    requires m.Move?
  {
    if m.commit then [FreshCommit(t, x.key, s.next)]
    else if s.authority.None? then []
    else if x.pc.AtAuthority? then [Decided(t, s.authority.value)]
    else if x.pc.AtReread? then [Reread(t, s.authority.value)]
    else []
  }

  predicate LockFree(s: State, t: Tid) {
    s.lock == None || s.lock == Some(t)
  }

  ghost predicate ReceiptBusy(s: State, t: Tid, k: Key) {
    exists u | u in s.txs :: u != t && s.txs[u].Exec? && k in s.txs[u].call.receiptW
  }

  ghost function AroundOf(s: State, t: Tid, x: Call): Around {
    Around(s.authority, LockFree(s, t), ReceiptBusy(s, t, x.key), s.next)
  }

  function Apply(s: State, t: Tid, x: Call, m: Stmt): State {
    if m.Wait? then s
    else s.(txs := s.txs[t := Exec(m.call)],
            lock := if m.lock then Some(t) else s.lock,
            adapter := if m.commit then s.adapter[x.key := s.next] else s.adapter,
            next := s.next + 1,
            log := s.log + EventsOf(s, t, x, m))
  }

  // ----- one statement of a reconciliation run -----

  /** No committed ledger row that the filter selects is blocking. */
  ghost predicate NoBlocking(ledger: map<Key, LedgerRow>, f: Filter) {
    forall k | k in ledger :: Matches(f, k, ledger[k]) ==> !BlockingRow(ledger[k])
  }

  ghost function RecStmt(ledger: map<Key, LedgerRow>, x: Reconcile, lockFree: bool, c: Choice): (Reconcile, bool) {
    match x.pc
    case AtDecide => (x.(pc := if c.repair then AtScopeLock else AtOtherWrite), false)
    case AtOtherWrite => (x.(recordW := x.recordW[x.stateKey := x.value], pc := Stopped), false)
    case AtScopeLock => if lockFree then (x.(pc := AtRecheck), true) else (x, false)
    case AtRecheck =>
      if NoBlocking(ledger, x.filter) then (x.(pc := AtRepairWrite, repairing := true), false)
      else (x.(pc := Refused), false)
    case AtRepairWrite => (x.(recordW := x.recordW[x.stateKey := x.value], pc := Stopped), false)
    case _ => (x, false)
  }

  ghost function RecApply(s: State, t: Tid, x: Reconcile, c: Choice): State {
    var (x', lock) := RecStmt(s.ledger, x, LockFree(s, t), c);
    s.(txs := s.txs[t := Rec(x')],
       lock := if lock then Some(t) else s.lock,
       log := if x.pc.AtRecheck? && x'.repairing then s.log + [RepairChecked(t)] else s.log)
  }

  // ----- transactions and runs -----

  /** Transaction end: writes become visible or vanish, the scope lock is released, the adapter stays. */
  function End(s: State, t: Tid, keep: bool): State
    requires t in s.txs
  {
    var s1 := s.(txs := s.txs - {t},
                 lock := if s.lock == Some(t) then None else s.lock,
                 log := s.log + [Ended(t)]);
    if !keep then s1
    else match s.txs[t]
      case Exec(x) => s1.(ledger := s.ledger + x.ledgerW, receipts := s.receipts + x.receiptW)
      case Rec(x) => s1.(records := s.records + x.recordW)
  }

  predicate CanCommit(x: Tx) {
    match x
    case Exec(x) => x.pc.Returned?
    case Rec(x) => x.pc.Stopped?
  }

  ghost function Step(s: State, l: Label): State {
    match l
    case SetAuthority(a) => s.(authority := a, log := s.log + [AuthoritySet(a)])
    case BeginExec(k, cap) =>
      var x := Call(k, cap, AtAuthority, None, None, None, Unknown, 0, map[], map[]);
      s.(txs := s.txs[s.next := Exec(x)], next := s.next + 1)
    case BeginRec(f, sk, v) =>
      s.(txs := s.txs[s.next := Rec(Reconcile(f, sk, v, AtDecide, false, map[]))], next := s.next + 1)
    case Advance(t, c) =>
      if t !in s.txs then s
      else (match s.txs[t]
            case Exec(x) => Apply(s, t, x, ExecStmt(ViewOf(s, t), t, x, AroundOf(s, t, x), c))
            case Rec(x) => RecApply(s, t, x, c))
    case CommitTx(t) => if t in s.txs && CanCommit(s.txs[t]) then End(s, t, true) else s
    case RollbackTx(t) => if t in s.txs then End(s, t, false) else s
  }

  /** The state after any schedule of labels; a label that is not enabled changes nothing. */
  ghost function Run(s: State, ls: seq<Label>): State
    decreases |ls|
  {
    if ls == [] then s else Step(Run(s, ls[..|ls| - 1]), ls[|ls| - 1])
  }

  // ----- the inductive invariant -----

  /** `x.row` is the committed row as it was read, or as it was before another call completed it. */
  predicate StillThere(v: View, x: Call) {
    && x.row.Some? && Settled(v.adapter, x.key, x.row.value)
    && x.key in v.ledger && v.ledger[x.key].effectId == x.row.value.effectId
    && (v.ledger[x.key] == x.row.value
        || (x.row.value.status.Committed? && v.ledger[x.key].status.Completed?))
  }

  /** `x.row` is a row this call inserted itself; nothing is committed for the key yet. */
  predicate Mine(v: View, t: Tid, x: Call) {
    && x.row.Some? && x.ledgerW == map[x.key := x.row.value]
    && x.key !in v.ledger && v.locked
    && x.row.value.effectId == t
  }

  predicate Clean(x: Call) {
    x.ledgerW == map[] && x.receiptW == map[]
  }

  /** The row the call works on is COMMITTED with the adapter's token, its own or a committed one. */
  predicate Resumable(v: View, t: Tid, x: Call) {
    && x.row.Some? && x.row.value.status.Committed? && Settled(v.adapter, x.key, x.row.value)
    && (Mine(v, t, x) || (x.ledgerW == map[] && StillThere(v, x)))
  }

  predicate Receipted(v: View, t: Tid, x: Call) {
    && Resumable(v, t, x)
    && x.receiptW == map[x.key := Receipt(x.receiptId, MapPostcondition(x.post), x.row.value.token)]
    && x.key !in v.receipts
  }

  /** A COMPLETED row together with its receipt, ready to replace at most a COMMITTED row. */
  predicate Finished(v: View, t: Tid, x: Call) {
    && v.locked && x.row.Some? && x.ledgerW == map[x.key := x.row.value]
    && Settled(v.adapter, x.key, x.row.value)
    && x.key !in v.receipts && x.receiptW.Keys == {x.key} && Agree(x.row.value, x.receiptW[x.key])
    && (if x.key in v.ledger
        then v.ledger[x.key].effectId == x.row.value.effectId && v.ledger[x.key].status.Committed?
        else x.row.value.effectId == t)
  }

  /** What an ended call may publish: nothing, a COMMITTED row, or a COMPLETED row with its receipt. */
  predicate Publishable(v: View, t: Tid, x: Call) {
    || Clean(x)
    || (x.receiptW == map[] && Mine(v, t, x) && x.row.value.status.Committed? && Settled(v.adapter, x.key, x.row.value))
    || Finished(v, t, x)
  }

  /** After the PENDING insert: the call's own PENDING row, or a committed row of another call. */
  predicate Inserted(v: View, t: Tid, x: Call) {
    && x.receiptW == map[] && x.reread.Some? && v.locked
    && x.ledgerW == (if x.key in v.ledger then map[] else map[x.key := PendingRow(t, x.capability)])
  }

  predicate CallInv(v: View, t: Tid, x: Call) {
    && x.ledgerW.Keys <= {x.key} && x.receiptW.Keys <= {x.key}
    && (x.ledgerW != map[] ==> v.locked)
    && (x.key in x.ledgerW && !x.ledgerW[x.key].status.Pending? ==> Settled(v.adapter, x.key, x.ledgerW[x.key]))
    && (match x.pc
        case AtAuthority => Clean(x)
        case AtLoad => Clean(x) && x.decision.Some?
        case AtBranch => Clean(x) && x.decision.Some? && (x.row.Some? ==> StillThere(v, x))
        case AtRecreateLock => Clean(x) && x.decision.Some? && x.key in v.adapter
        case AtRecreateInsert => Clean(x) && x.decision.Some? && x.key in v.adapter && v.locked
        case AtPromoteLock => false      // no PENDING row is ever committed
        case AtPromoteUpdate => false
        case AtReread => Clean(x) && x.decision.Some?
        case AtPendingLock => Clean(x) && x.reread.Some?
        case AtPendingInsert => Clean(x) && x.reread.Some? && v.locked
        case AtReload => Inserted(v, t, x)
        case AtAdapterCommit => Inserted(v, t, x) && x.row == Visible(v, x)
        case AtMarkCommitted =>
          && x.receiptW == map[] && x.reread.Some? && Mine(v, t, x) && x.row.value.status.Pending? && x.key in v.adapter
        case AtCrashPoint => x.receiptW == map[] && Mine(v, t, x) && Resumable(v, t, x)
        case AtReceipt => x.receiptW == map[] && Resumable(v, t, x)
        case AtCompleteLock => Receipted(v, t, x)
        case AtCompleteUpdate => Receipted(v, t, x) && v.locked
        case Returned => Publishable(v, t, x)
        case Failure => true)
  }

  ghost predicate RecInv(v: View, x: Reconcile) {
    && (x.pc.AtRecheck? ==> v.locked)
    && (x.pc.AtRepairWrite? ==> x.repairing)
    && (x.repairing ==> v.locked && NoBlocking(v.ledger, x.filter))
  }

  ghost predicate TxInv(v: View, t: Tid, x: Tx) {
    match x
    case Exec(c) => CallInv(v, t, c)
    case Rec(r) => RecInv(v, r)
  }

  /** The committed facts about one key. */
  predicate KeyFacts(v: View, k: Key) {
    && (k in v.ledger ==> Settled(v.adapter, k, v.ledger[k]) && (v.ledger[k].status.Completed? <==> k in v.receipts))
    && (k in v.receipts ==> k in v.ledger && Agree(v.ledger[k], v.receipts[k]))
  }

  ghost predicate SharedInv(s: State) {
    && (forall k :: KeyFacts(ViewOf(s, 0), k))
    && (forall k | k in s.ledger :: s.ledger[k].effectId < s.next && s.ledger[k].effectId !in s.txs)
    && (forall t | t in s.txs :: t < s.next)
    && (s.lock.Some? ==> s.lock.value in s.txs)
  }

  /** Receipts of the same key are never pending in two open transactions. */
  ghost predicate ReceiptsApart(s: State) {
    forall t, u | t in s.txs && u in s.txs && t != u && s.txs[t].Exec? && s.txs[u].Exec? ::
      s.txs[t].call.receiptW.Keys !! s.txs[u].call.receiptW.Keys
  }

  ghost predicate Inv(s: State) {
    && SharedInv(s)
    && ReceiptsApart(s)
    && (forall t | t in s.txs :: TxInv(ViewOf(s, t), t, s.txs[t]))
  }

  // ----- facts of a transaction survive the steps of the others -----

  /** How what a transaction sees may change while another one moves. */
  ghost predicate Evolves(v: View, w: View) {
    && (forall k | k in v.adapter :: k in w.adapter && w.adapter[k] == v.adapter[k])
    && (v.locked ==> w.locked && w.ledger == v.ledger && w.adapter == v.adapter && w.receipts == v.receipts)
    && (forall k | k in v.ledger ::
        && k in w.ledger && w.ledger[k].effectId == v.ledger[k].effectId
        && (w.ledger[k] == v.ledger[k] || (v.ledger[k].status.Committed? && w.ledger[k].status.Completed?)))
  }

  lemma FrameResumable(v: View, w: View, t: Tid, x: Call)
    requires Evolves(v, w) && Resumable(v, t, x)
    ensures Resumable(w, t, x)
  {
  }

  lemma FrameCall(v: View, w: View, t: Tid, x: Call)
    requires Evolves(v, w) && CallInv(v, t, x)
    requires forall k | k in w.receipts && k !in v.receipts :: k !in x.receiptW
    ensures CallInv(w, t, x)
  {
    match x.pc
    case AtCrashPoint => FrameResumable(v, w, t, x);
    case AtReceipt => FrameResumable(v, w, t, x);
    case AtCompleteLock => FrameResumable(v, w, t, x);
    case AtCompleteUpdate => FrameResumable(v, w, t, x);
    case _ =>
  }

  lemma FrameTx(v: View, w: View, t: Tid, x: Tx)
    requires Evolves(v, w) && TxInv(v, t, x)
    requires x.Exec? ==> forall k | k in w.receipts && k !in v.receipts :: k !in x.call.receiptW
    ensures TxInv(w, t, x)
  {
    if x.Exec? { FrameCall(v, w, t, x.call); }
  }

  // ----- each statement re-establishes the facts at its next program point -----

  function After(v: View, x: Call, m: Stmt, token: Token): View
    requires m.Move?
  {
    v.(locked := v.locked || m.lock, adapter := if m.commit then v.adapter[x.key := token] else v.adapter)
  }

  ghost predicate Moves(v: View, t: Tid, x: Call, e: Around, c: Choice) {
    var m := ExecStmt(v, t, x, e, c);
    m.Move? ==>
      && m.call.key == x.key
      && (m.lock ==> e.lockFree)
      && (m.commit ==> v.locked && x.key !in v.adapter)
      && (m.call.receiptW == x.receiptW || (m.call.receiptW.Keys == {x.key} && !e.receiptBusy))
      && CallInv(After(v, x, m, e.next), t, m.call)
  }

  lemma MoveResume(v: View, t: Tid, x: Call, e: Around, c: Choice)
    requires CallInv(v, t, x) && KeyFacts(v, x.key)
    requires x.pc.AtRecreateLock? || x.pc.AtRecreateInsert?
    ensures Moves(v, t, x, e, c)
  {
  }

  lemma MoveEnter(v: View, t: Tid, x: Call, e: Around, c: Choice)
    requires CallInv(v, t, x) && KeyFacts(v, x.key)
    requires x.pc.AtAuthority? || x.pc.AtLoad? || x.pc.AtBranch?
    ensures Moves(v, t, x, e, c)
  {
  }

  lemma MovePrepare(v: View, t: Tid, x: Call, e: Around, c: Choice)
    requires CallInv(v, t, x) && KeyFacts(v, x.key)
    requires x.pc.AtReread? || x.pc.AtPendingLock? || x.pc.AtPendingInsert? || x.pc.AtReload?
    ensures Moves(v, t, x, e, c)
  {
  }

  lemma MoveCommit(v: View, t: Tid, x: Call, e: Around, c: Choice)
    requires CallInv(v, t, x) && KeyFacts(v, x.key) && (x.key in v.ledger ==> v.ledger[x.key].effectId != t)
    requires x.pc.AtAdapterCommit? || x.pc.AtMarkCommitted? || x.pc.AtCrashPoint?
    ensures Moves(v, t, x, e, c)
  {
  }

  lemma MoveComplete(v: View, t: Tid, x: Call, e: Around, c: Choice)
    requires CallInv(v, t, x) && KeyFacts(v, x.key)
    requires x.pc.AtCompleteUpdate?
    ensures Moves(v, t, x, e, c)
  {
  }

  lemma MoveRest(v: View, t: Tid, x: Call, e: Around, c: Choice)
    requires CallInv(v, t, x) && KeyFacts(v, x.key)
    requires x.pc.AtCompleteLock? || x.pc.Returned? || x.pc.Failure?
    ensures Moves(v, t, x, e, c)
  {
  }

  lemma MoveReceipt(v: View, t: Tid, x: Call, e: Around, c: Choice)
    requires CallInv(v, t, x) && KeyFacts(v, x.key) && x.pc.AtReceipt?
    ensures Moves(v, t, x, e, c)
  {
  }

  lemma MoveAny(v: View, t: Tid, x: Call, e: Around, c: Choice)
    requires CallInv(v, t, x) && KeyFacts(v, x.key) && (x.key in v.ledger ==> v.ledger[x.key].effectId != t)
    ensures Moves(v, t, x, e, c)
  {
    match x.pc
    case AtAuthority | AtLoad | AtBranch => MoveEnter(v, t, x, e, c);
    case AtRecreateLock | AtRecreateInsert => MoveResume(v, t, x, e, c);
    case AtReread | AtPendingLock | AtPendingInsert | AtReload => MovePrepare(v, t, x, e, c);
    case AtAdapterCommit | AtMarkCommitted | AtCrashPoint => MoveCommit(v, t, x, e, c);
    case AtReceipt => MoveReceipt(v, t, x, e, c);
    case AtCompleteUpdate => MoveComplete(v, t, x, e, c);
    case _ => MoveRest(v, t, x, e, c);
  }

  // ----- every step of every schedule keeps the invariant -----

  /** What `u` sees before and after a step of another transaction. */
  lemma OthersEvolve(s: State, s': State, t: Tid, u: Tid)
    requires t != u && (s.lock == Some(u) ==> s'.lock == Some(u))
    requires s'.ledger == s.ledger && s'.receipts == s.receipts
    requires s'.adapter == s.adapter || (s.lock == Some(t) && forall k | k in s.adapter :: k in s'.adapter && s'.adapter[k] == s.adapter[k])
    ensures Evolves(ViewOf(s, u), ViewOf(s', u))
  {
  }

  /** A statement inside a transaction leaves the committed facts as they were. */
  lemma SharedKeeps(s: State, s': State)
    requires SharedInv(s) && s'.ledger == s.ledger && s'.receipts == s.receipts && s'.next >= s.next
    requires forall k | k in s.adapter :: k in s'.adapter && s'.adapter[k] == s.adapter[k]
    requires s'.txs.Keys == s.txs.Keys && (s'.lock.Some? ==> s'.lock.value in s.txs)
    ensures SharedInv(s')
  {
    forall k ensures KeyFacts(ViewOf(s', 0), k) { assert KeyFacts(ViewOf(s, 0), k); }
  }

  lemma ApartKeeps(s: State, s': State, t: Tid, x: Call, x': Call)
    requires ReceiptsApart(s) && t in s.txs && s.txs[t] == Exec(x) && s'.txs == s.txs[t := Exec(x')]
    requires x'.receiptW == x.receiptW || (x'.receiptW.Keys == {x.key} && !ReceiptBusy(s, t, x.key))
    ensures ReceiptsApart(s')
  {
  }

  /** A statement of `t` that keeps the committed tables keeps everyone's facts. */
  lemma LocalKeeps(s: State, s': State, t: Tid)
    requires Inv(s) && t in s.txs && t in s'.txs && s'.txs == s.txs[t := s'.txs[t]]
    requires s'.ledger == s.ledger && s'.receipts == s.receipts && s'.next >= s.next
    requires s'.lock == s.lock || (LockFree(s, t) && s'.lock == Some(t))
    requires s'.adapter == s.adapter || (s.lock == Some(t) && forall k | k in s.adapter :: k in s'.adapter && s'.adapter[k] == s.adapter[k])
    requires ReceiptsApart(s') && TxInv(ViewOf(s', t), t, s'.txs[t])
    ensures Inv(s')
  {
    SharedKeeps(s, s');
    forall u | u in s'.txs ensures TxInv(ViewOf(s', u), u, s'.txs[u]) {
      if u != t {
        OthersEvolve(s, s', t, u);
        FrameTx(ViewOf(s, u), ViewOf(s', u), u, s.txs[u]);
      }
    }
  }

  lemma ExecKeeps(s: State, t: Tid, c: Choice)
    requires Inv(s) && t in s.txs && s.txs[t].Exec?
    ensures Inv(Step(s, Advance(t, c)))
  {
    var x := s.txs[t].call;
    var v, e := ViewOf(s, t), AroundOf(s, t, x);
    var m := ExecStmt(v, t, x, e, c);
    assert TxInv(v, t, s.txs[t]);
    assert KeyFacts(v, x.key) by { assert KeyFacts(ViewOf(s, 0), x.key); }
    MoveAny(v, t, x, e, c);
    if m.Move? {
      var s' := Apply(s, t, x, m);
      ApartKeeps(s, s', t, x, m.call);
      assert ViewOf(s', t) == After(v, x, m, e.next);
      LocalKeeps(s, s', t);
    }
  }

  lemma RecKeeps(s: State, t: Tid, c: Choice)
    requires Inv(s) && t in s.txs && s.txs[t].Rec?
    ensures Inv(Step(s, Advance(t, c)))
  {
    assert TxInv(ViewOf(s, t), t, s.txs[t]);
    LocalKeeps(s, RecApply(s, t, s.txs[t].rec, c), t);
  }

  /** Publishing a call's writes keeps the committed facts and at most completes a COMMITTED row. */
  lemma Publish(v: View, t: Tid, x: Call, k: Key)
    requires CallInv(v, t, x) && x.pc.Returned? && KeyFacts(v, k)
    ensures KeyFacts(v.(ledger := v.ledger + x.ledgerW, receipts := v.receipts + x.receiptW), k)
    ensures k in v.ledger && k in x.ledgerW ==>
              v.ledger[k].status.Committed? && x.ledgerW[k].status.Completed? && x.ledgerW[k].effectId == v.ledger[k].effectId
    ensures k in x.ledgerW && k !in v.ledger ==> x.ledgerW[k].effectId == t
    ensures k in x.receiptW ==> k !in v.receipts && k in x.ledgerW
  {
  }

  /** What a committing call's writes are, key by key. */
  ghost predicate Published(s: State, t: Tid, x: Call, k: Key) {
    && KeyFacts(View(s.adapter, s.ledger + x.ledgerW, s.receipts + x.receiptW, false), k)
    && (k in s.ledger && k in x.ledgerW ==>
          s.ledger[k].status.Committed? && x.ledgerW[k].status.Completed? && x.ledgerW[k].effectId == s.ledger[k].effectId)
    && (k in x.ledgerW && k !in s.ledger ==> x.ledgerW[k].effectId == t)
  }

  lemma PublishedAll(s: State, t: Tid, x: Call)
    requires Inv(s) && t in s.txs && s.txs[t] == Exec(x) && x.pc.Returned?
    ensures forall k :: Published(s, t, x, k)
  {
    assert TxInv(ViewOf(s, t), t, s.txs[t]);
    forall k ensures Published(s, t, x, k) {
      assert KeyFacts(ViewOf(s, 0), k);
      Publish(ViewOf(s, t), t, x, k);
    }
  }

  lemma PublishShared(s: State, t: Tid, x: Call)
    requires SharedInv(s) && t in s.txs && s.txs[t] == Exec(x) && forall k :: Published(s, t, x, k)
    ensures SharedInv(End(s, t, true))
  {
    var s' := End(s, t, true);
    forall k ensures KeyFacts(ViewOf(s', 0), k) { assert Published(s, t, x, k); }
    forall k | k in s'.ledger ensures s'.ledger[k].effectId < s'.next && s'.ledger[k].effectId !in s'.txs {
      assert Published(s, t, x, k);
    }
  }

  lemma PublishEvolves(s: State, t: Tid, x: Call, u: Tid)
    requires Inv(s) && t in s.txs && s.txs[t] == Exec(x) && x.pc.Returned? && u in s.txs && u != t
    ensures Evolves(ViewOf(s, u), ViewOf(End(s, t, true), u))
  {
    assert TxInv(ViewOf(s, t), t, s.txs[t]);
    PublishedAll(s, t, x);
    var w := ViewOf(End(s, t, true), u);
    forall k | k in s.ledger
      ensures k in w.ledger && w.ledger[k].effectId == s.ledger[k].effectId
      ensures w.ledger[k] == s.ledger[k] || (s.ledger[k].status.Committed? && w.ledger[k].status.Completed?)
    {
      assert Published(s, t, x, k);
    }
    if s.lock == Some(u) {
      assert x.ledgerW == map[] && x.receiptW == map[];
      assert s.ledger + x.ledgerW == s.ledger && s.receipts + x.receiptW == s.receipts;
    }
  }

  lemma EndEvolves(s: State, t: Tid, keep: bool, u: Tid)
    requires Inv(s) && t in s.txs && (keep ==> CanCommit(s.txs[t])) && u in s.txs && u != t
    ensures Evolves(ViewOf(s, u), ViewOf(End(s, t, keep), u))
  {
    if keep && s.txs[t].Exec? { PublishEvolves(s, t, s.txs[t].call, u); }
  }

  lemma EndShared(s: State, t: Tid, keep: bool)
    requires Inv(s) && t in s.txs && (keep ==> CanCommit(s.txs[t]))
    ensures SharedInv(End(s, t, keep))
  {
    if keep && s.txs[t].Exec? {
      PublishedAll(s, t, s.txs[t].call);
      PublishShared(s, t, s.txs[t].call);
    } else {
      forall k ensures KeyFacts(ViewOf(End(s, t, keep), 0), k) { assert KeyFacts(ViewOf(s, 0), k); }
    }
  }

  lemma EndKeeps(s: State, t: Tid, keep: bool)
    requires Inv(s) && t in s.txs && (keep ==> CanCommit(s.txs[t]))
    ensures Inv(End(s, t, keep))
  {
    var s' := End(s, t, keep);
    EndShared(s, t, keep);
    forall u | u in s'.txs ensures TxInv(ViewOf(s', u), u, s'.txs[u]) {
      EndEvolves(s, t, keep, u);
      FrameTx(ViewOf(s, u), ViewOf(s', u), u, s.txs[u]);
    }
  }

  /** A step that touches no table and opens at most one transaction. */
  lemma OpeningKeeps(s: State, s': State)
    requires Inv(s) && s'.adapter == s.adapter && s'.ledger == s.ledger && s'.receipts == s.receipts && s'.lock == s.lock
    requires (s'.txs == s.txs && s'.next == s.next)
      || (s'.next == s.next + 1 && s.next in s'.txs && s'.txs == s.txs[s.next := s'.txs[s.next]]
          && TxInv(ViewOf(s', s.next), s.next, s'.txs[s.next])
          && (s'.txs[s.next].Exec? ==> s'.txs[s.next].call.receiptW == map[]))
    ensures Inv(s')
  {
    forall k ensures KeyFacts(ViewOf(s', 0), k) { assert KeyFacts(ViewOf(s, 0), k); }
    forall u | u in s.txs ensures TxInv(ViewOf(s', u), u, s.txs[u]) { assert ViewOf(s', u) == ViewOf(s, u); }
  }

  lemma StepKeeps(s: State, l: Label)
    requires Inv(s)
    ensures Inv(Step(s, l))
  {
    match l
    case Advance(t, c) =>
      if t in s.txs { if s.txs[t].Exec? { ExecKeeps(s, t, c); } else { RecKeeps(s, t, c); } }
    case CommitTx(t) => if t in s.txs && CanCommit(s.txs[t]) { EndKeeps(s, t, true); }
    case RollbackTx(t) => if t in s.txs { EndKeeps(s, t, false); }
    case _ => OpeningKeeps(s, Step(s, l));
  }

  lemma {:induction false} RunKeeps(ls: seq<Label>)
    ensures Inv(Run(EMPTY, ls))
    decreases |ls|
  {
    if ls != [] {
      RunKeeps(ls[..|ls| - 1]);
      StepKeeps(Run(EMPTY, ls[..|ls| - 1]), ls[|ls| - 1]);
    }
  }
}
