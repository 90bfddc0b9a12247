/**
 A call whose statements no other statement disturbs, with authority changing once before its re-read, does to the
 tables and the adapter what the sequential specification says: the statement-level protocol refines to it.
 */
module SerialSchedules {
  import opened Wrappers
  import opened Effects
  import opened TenantInterleaving
  import X = TrustedExecutor

  // ----- a call on its own -----

  /** What the next statement of a call is, as a function of what it sees, of the call and of the next id. */
  type Script = (View, Call, nat) -> Stmt

  /** `n` statements of call `x`; one that waits waits for ever. */
  function Play(f: Script, v: View, x: Call, next: nat, n: nat): (View, Call, nat)
    decreases n
  {
    if n == 0 then (v, x, next)
    else
      var m := f(v, x, next);
      if m.Wait? then (v, x, next) else Play(f, After(v, x, m, next), m.call, next + 1, n - 1)
  }

  /** The statements of call `x` under one authority while nothing else happens. */
  function ScriptOf(t: Tid, a: Option<Authority>, c: Choice): Script {
    (v: View, x: Call, next: nat) => ExecStmt(v, t, x, Around(a, true, false, next), c)
  }

  function Solo(v: View, t: Tid, x: Call, a: Option<Authority>, next: nat, c: Choice, n: nat): (View, Call, nat) {
    Play(ScriptOf(t, a, c), v, x, next, n)
  }

  lemma SoloStep(v: View, t: Tid, x: Call, a: Option<Authority>, next: nat, c: Choice, n: nat, m: Stmt)
    requires n > 0 && m.Move? && ExecStmt(v, t, x, Around(a, true, false, next), c) == m
    ensures Solo(v, t, x, a, next, c, n) == Solo(After(v, x, m, next), t, m.call, a, next + 1, c, n - 1)
  {
  }

  /** From a COMMITTED row on: the receipt, then the completed row. */
  lemma SoloCompletes(v: View, t: Tid, x: Call, a: Option<Authority>, next: nat, c: Choice, n: nat)
    requires n >= 3 && x.pc.AtReceipt? && x.row.Some? && Visible(v, x) == x.row && x.key !in v.receipts && x.receiptW == map[]
    ensures var (v', y, _) := Solo(v, t, x, a, next, c, n);
      var p := VerifyPostcondition(v.adapter, x.key, c.requested);
      && v'.adapter == v.adapter && v'.locked && y.pc.Returned? && y.key == x.key && y.receiptId == next
      && y.receiptW == map[x.key := Receipt(next, MapPostcondition(p), x.row.value.token)]
      && y.ledgerW == x.ledgerW[x.key := MarkCompleted(x.row.value, p, next)]
  {
    var p := VerifyPostcondition(v.adapter, x.key, c.requested);
    var r := Receipt(next, MapPostcondition(p), x.row.value.token);
    var x1 := x.(receiptW := map[x.key := r], post := p, receiptId := next, pc := AtCompleteLock);
    SoloStep(v, t, x, a, next, c, n, Move(x1, false, false));
    var v1 := v.(locked := true);
    SoloStep(v, t, x1, a, next + 1, c, n - 1, Move(x1.(pc := AtCompleteUpdate), true, false));
    var x2 := x1.(pc := AtCompleteUpdate);
    var done := MarkCompleted(x.row.value, p, next);
    SoloStep(v1, t, x2, a, next + 2, c, n - 2, Move(x2.(ledgerW := x.ledgerW[x.key := done], row := Some(done), pc := Returned), false, false));
  }

  /** A lost COMMITTED row is written again first. */
  lemma SoloRecreates(v: View, t: Tid, x: Call, a: Option<Authority>, next: nat, c: Choice, n: nat)
    requires n >= 5 && x.pc.AtRecreateLock? && Clean(x) && x.decision.Some?
    requires x.key in v.adapter && x.key !in v.ledger && x.key !in v.receipts
    ensures var (v', y, _) := Solo(v, t, x, a, next, c, n);
      var p := VerifyPostcondition(v.adapter, x.key, c.requested);
      var row := CommittedRow(t, x.capability, v.adapter[x.key], (x.decision.value.revocationEpoch, x.decision.value.killEpoch));
      && v'.adapter == v.adapter && v'.locked && y.pc.Returned? && y.key == x.key && y.receiptId == next + 2
      && y.receiptW == map[x.key := Receipt(next + 2, MapPostcondition(p), row.token)]
      && y.ledgerW == map[x.key := MarkCompleted(row, p, next + 2)]
  {
    var v1, x1 := v.(locked := true), x.(pc := AtRecreateInsert);
    SoloStep(v, t, x, a, next, c, n, Move(x1, true, false));
    var row := CommittedRow(t, x.capability, v.adapter[x.key], (x.decision.value.revocationEpoch, x.decision.value.killEpoch));
    var x2 := x1.(ledgerW := map[x.key := row], row := Some(row), pc := AtReceipt);
    SoloStep(v1, t, x1, a, next + 1, c, n - 1, Move(x2, false, false));
    SoloCompletes(v1, t, x2, a, next + 2, c, n - 2);
  }

  /** The row a fresh commit leaves. */
  function FreshRow(t: Tid, x: Call, token: Token, seen: Authority): LedgerRow {
    MarkCommitted(PendingRow(t, x.capability), token, (seen.revocationEpoch, seen.killEpoch))
  }

  /** Re-read, PENDING row, adapter commit and COMMITTED row. */
  lemma SoloCommits(v: View, t: Tid, x: Call, a: Option<Authority>, next: nat, c: Choice, n: nat)
    requires n >= 10 && x.pc.AtReread? && Clean(x) && x.decision.Some? && x.key !in v.ledger && x.key !in v.adapter
    requires a.Some? && CommitAllowed(a.value, x.decision.value)
    ensures var row := FreshRow(t, x, next + 4, a.value);
      Solo(v, t, x, a, next, c, n)
      == Solo(v.(locked := true, adapter := v.adapter[x.key := next + 4]), t,
              x.(reread := a, ledgerW := map[x.key := row], row := Some(row), pc := AtCrashPoint), a, next + 6, c, n - 6)
  {
    var x1 := x.(reread := a, pc := AtPendingLock);
    SoloStep(v, t, x, a, next, c, n, Move(x1, false, false));
    var v1, x2 := v.(locked := true), x1.(pc := AtPendingInsert);
    SoloStep(v, t, x1, a, next + 1, c, n - 1, Move(x2, true, false));
    var pending := PendingRow(t, x.capability);
    var x3 := x2.(ledgerW := map[x.key := pending], row := Some(pending), pc := AtReload);
    SoloStep(v1, t, x2, a, next + 2, c, n - 2, Move(x3, false, false));
    SoloDelivers(v1, t, x3, a, next + 3, c, n - 3);
  }

  lemma SoloDelivers(v: View, t: Tid, x: Call, a: Option<Authority>, next: nat, c: Choice, n: nat)
    requires n >= 3 && x.pc.AtReload? && x.reread == a && a.Some? && v.locked && x.key !in v.adapter
    requires x.ledgerW == map[x.key := PendingRow(t, x.capability)] && x.row == Some(PendingRow(t, x.capability))
    ensures var row := FreshRow(t, x, next + 1, a.value);
      Solo(v, t, x, a, next, c, n)
      == Solo(v.(adapter := v.adapter[x.key := next + 1]), t,
              x.(ledgerW := map[x.key := row], row := Some(row), pc := AtCrashPoint), a, next + 3, c, n - 3)
  {
    var x1 := x.(pc := AtAdapterCommit);
    SoloStep(v, t, x, a, next, c, n, Move(x1, false, false));
    var x2 := x1.(pc := AtMarkCommitted);
    SoloStep(v, t, x1, a, next + 1, c, n - 1, Move(x2, false, true));
    var v1 := v.(adapter := v.adapter[x.key := next + 1]);
    var row := FreshRow(t, x, next + 1, a.value);
    assert x2.ledgerW[x.key := row] == map[x.key := row];
    var x3 := x2.(ledgerW := map[x.key := row], row := Some(row), pc := AtCrashPoint);
    SoloStep(v1, t, x2, a, next + 2, c, n - 2, Move(x3, false, false));
  }

  // ----- it does what the sequential call does -----

  /** Equal but for the ids drawn. */
  predicate LikeRow(a: LedgerRow, b: LedgerRow) {
    && a.capability == b.capability && a.status == b.status && a.epochs == b.epochs && a.post == b.post && a.outcome == b.outcome
    && a.token.Some? == b.token.Some? && a.receipt.Some? == b.receipt.Some?
  }

  predicate LikeReceipt(a: Receipt, b: Receipt) {
    a.verification == b.verification && a.token.Some? == b.token.Some?
  }

  /** The same keys everywhere, the very same rows under every other key, and rows alike under the call's. */
  ghost predicate Alike(key: Key, adapter: map<Key, Token>, ledger: map<Key, LedgerRow>, receipts: map<Key, Receipt>, sys: X.System) {
    && adapter.Keys == sys.adapter.Keys && ledger.Keys == sys.db.ledger.Keys && receipts.Keys == sys.db.receipts.Keys
    && (forall k | k in adapter && k != key :: adapter[k] == sys.adapter[k])
    && (forall k | k in ledger && k != key :: ledger[k] == sys.db.ledger[k])
    && (forall k | k in receipts && k != key :: receipts[k] == sys.db.receipts[k])
    && (key in ledger ==> LikeRow(ledger[key], sys.db.ledger[key]))
    && (key in receipts ==> LikeReceipt(receipts[key], sys.db.receipts[key]))
  }

  /** The sequential system with the same tables, claims left out. */
  function Sequential(v: View, next: nat): X.System {
    X.System(X.Tables(v.ledger, v.receipts, map[]), v.adapter, next)
  }

  function Chosen(c: X.Call): Choice {
    Choice(!c.gatesPass, c.requested, c.crashAfterCommit, false)
  }

  function Opened(c: X.Call): Call {
    Call(c.key, c.capability, AtAuthority, None, None, None, Unknown, 0, map[], map[])
  }

  /** Where the first three statements lead. */
  function Entered(v: View, c: X.Call): Call {
    var x := Opened(c);
    var row := if c.key in v.ledger then Some(v.ledger[c.key]) else None;
    if c.authority.None? then x.(pc := Returned)
    else if !c.gatesPass then x.(pc := Returned, decision := c.authority)
    else x.(decision := c.authority, row := row,
            pc := if row.Some? then (if row.value.status.Completed? then Returned else AtReceipt)
                  else if c.key in v.adapter then AtRecreateLock else AtReread)
  }

  lemma SoloStays(v: View, t: Tid, x: Call, a: Option<Authority>, next: nat, c: Choice, n: nat)
    requires x.pc.Returned?
    ensures Solo(v, t, x, a, next, c, n) == (v, x, next)
  {
  }

  lemma SoloEnters(v: View, t: Tid, c: X.Call, next: nat)
    requires KeyFacts(v, c.key)
    ensures var (v', y, _) := Solo(v, t, Opened(c), c.authority, next, Chosen(c), 3); v' == v && y == Entered(v, c)
  {
    var x := Opened(c);
    if c.authority.None? || !c.gatesPass {
      SoloStep(v, t, x, c.authority, next, Chosen(c), 3, Move(Entered(v, c), false, false));
      SoloStays(v, t, Entered(v, c), c.authority, next + 1, Chosen(c), 2);
    } else {
      var x1 := x.(decision := c.authority, pc := AtLoad);
      SoloStep(v, t, x, c.authority, next, Chosen(c), 3, Move(x1, false, false));
      var x2 := x1.(row := Entered(v, c).row, pc := AtBranch);
      SoloStep(v, t, x1, c.authority, next + 1, Chosen(c), 2, Move(x2, false, false));
      SoloStep(v, t, x2, c.authority, next + 2, Chosen(c), 1, Move(Entered(v, c), false, false));
    }
  }

  /** What is left behind once the call's writes are published. */
  ghost predicate Leaves(v: View, v': View, y: Call, sys: X.System) {
    y.pc.Returned? && Alike(y.key, v'.adapter, v.ledger + y.ledgerW, v.receipts + y.receiptW, sys)
  }

  lemma SoloResumes(v: View, t: Tid, c: X.Call, next: nat)
    requires KeyFacts(v, c.key) && (Entered(v, c).pc.AtReceipt? || Entered(v, c).pc.AtRecreateLock?)
    ensures var (v', y, _) := Solo(v, t, Entered(v, c), c.reread, next, Chosen(c), 10);
      y.key == c.key && y.pc.Returned? && Resumed(v, v', t, c, y)
  {
    if Entered(v, c).pc.AtReceipt? {
      SoloCompletes(v, t, Entered(v, c), c.reread, next, Chosen(c), 10);
    } else {
      SoloRecreates(v, t, Entered(v, c), c.reread, next, Chosen(c), 10);
    }
  }

  /** The row a resumed call completes. */
  function Rebuilt(v: View, t: Tid, c: X.Call): LedgerRow
    requires c.authority.Some? && (c.key in v.ledger || c.key in v.adapter)
  {
    if c.key in v.ledger then v.ledger[c.key]
    else CommittedRow(t, c.capability, v.adapter[c.key], (c.authority.value.revocationEpoch, c.authority.value.killEpoch))
  }

  predicate Resumed(v: View, v': View, t: Tid, c: X.Call, y: Call) {
    && c.authority.Some? && (c.key in v.ledger || c.key in v.adapter)
    && var p := VerifyPostcondition(v.adapter, c.key, c.requested);
    && v'.adapter == v.adapter
    && y.receiptW == map[c.key := Receipt(y.receiptId, MapPostcondition(p), Rebuilt(v, t, c).token)]
    && y.ledgerW == map[c.key := MarkCompleted(Rebuilt(v, t, c), p, y.receiptId)]
  }

  lemma ResumedLeaves(v: View, v': View, t: Tid, c: X.Call, y: Call, next: nat)
    requires KeyFacts(v, c.key) && (Entered(v, c).pc.AtReceipt? || Entered(v, c).pc.AtRecreateLock?)
    requires y.key == c.key && y.pc.Returned? && Resumed(v, v', t, c, y)
    ensures Leaves(v, v', y, X.Resume(Sequential(v, next), c).0)
  {
    var s := Sequential(v, next);
    if c.key in v.ledger {
      SequentialCompletes(s, c, v.ledger[c.key]);
    } else {
      var row := CommittedRow(next, c.capability, v.adapter[c.key], (c.authority.value.revocationEpoch, c.authority.value.killEpoch));
      SequentialCompletes(s.(db := s.db.(ledger := v.ledger[c.key := row]), next := next + 1), c, row);
    }
  }

  lemma SequentialCompletes(s: X.System, c: X.Call, row: LedgerRow)
    requires c.key !in s.db.receipts && s.db.claims == map[]
    ensures var p := VerifyPostcondition(s.adapter, c.key, c.requested);
      X.Complete(s, c, row).0 == X.System(
        X.Tables(s.db.ledger[c.key := MarkCompleted(row, p, s.next)],
                 s.db.receipts[c.key := Receipt(s.next, MapPostcondition(p), row.token)], map[]),
        s.adapter, s.next + 1)
  {
  }

  predicate Freshly(v: View, v': View, t: Tid, c: X.Call, y: Call) {
    if c.authority.None? || c.reread.None? || !CommitAllowed(c.reread.value, c.authority.value) then v' == v && Clean(y)
    else
      && c.key in v'.adapter && v'.adapter == v.adapter[c.key := v'.adapter[c.key]]
      && var row := FreshRow(t, Opened(c), v'.adapter[c.key], c.reread.value);
      var p := VerifyPostcondition(v'.adapter, c.key, c.requested);
      && y.ledgerW == map[c.key := if c.crashAfterCommit then row else MarkCompleted(row, p, y.receiptId)]
      && y.receiptW == if c.crashAfterCommit then map[] else map[c.key := Receipt(y.receiptId, MapPostcondition(p), row.token)]
  }

  lemma SoloFresh(v: View, t: Tid, c: X.Call, next: nat)
    requires KeyFacts(v, c.key) && Entered(v, c).pc.AtReread?
    ensures var (v', y, _) := Solo(v, t, Entered(v, c), c.reread, next, Chosen(c), 10);
      y.key == c.key && y.pc.Returned? && Freshly(v, v', t, c, y)
  {
    var x, a, ch := Entered(v, c), c.reread, Chosen(c);
    if a.None? || !CommitAllowed(a.value, c.authority.value) {
      var y := if a.None? then x.(pc := Returned) else x.(reread := a, pc := Returned);
      SoloStep(v, t, x, a, next, ch, 10, Move(y, false, false));
      SoloStays(v, t, y, a, next + 1, ch, 9);
    } else {
      SoloCommits(v, t, x, a, next, ch, 10);
      var row := FreshRow(t, x, next + 4, a.value);
      SoloEnds(v.(locked := true, adapter := v.adapter[x.key := next + 4]), t,
               x.(reread := a, ledgerW := map[x.key := row], row := Some(row), pc := AtCrashPoint), a, next + 6, ch);
    }
  }

  /** The crash point and what follows it. */
  lemma SoloEnds(v: View, t: Tid, x: Call, a: Option<Authority>, next: nat, c: Choice)
    requires x.pc.AtCrashPoint? && x.row.Some? && x.ledgerW == map[x.key := x.row.value] && x.key !in v.receipts && x.receiptW == map[]
    ensures var (v', y, _) := Solo(v, t, x, a, next, c, 4);
      var p := VerifyPostcondition(v.adapter, x.key, c.requested);
      && v'.adapter == v.adapter && y.pc.Returned? && y.key == x.key
      && (if c.crash then y.ledgerW == x.ledgerW && y.receiptW == map[]
          else && y.receiptW == map[x.key := Receipt(y.receiptId, MapPostcondition(p), x.row.value.token)]
               && y.ledgerW == map[x.key := MarkCompleted(x.row.value, p, y.receiptId)])
  {
    var x1 := x.(pc := if c.crash then Returned else AtReceipt);
    SoloStep(v, t, x, a, next, c, 4, Move(x1, false, false));
    if c.crash {
      SoloStays(v, t, x1, a, next + 1, c, 3);
    } else {
      SoloCompletes(v, t, x1, a, next + 1, c, 3);
    }
  }

  lemma FreshlyLeaves(v: View, v': View, t: Tid, c: X.Call, y: Call, next: nat)
    requires KeyFacts(v, c.key) && Entered(v, c).pc.AtReread? && c.semantic.None?
    requires y.key == c.key && y.pc.Returned? && Freshly(v, v', t, c, y)
    ensures Leaves(v, v', y, X.FreshPath(Sequential(v, next), c).0)
  {
  }

  /** The whole call: three statements under the authority of its decision, the rest under that of its re-read. */
  lemma SoloIsBody(v: View, t: Tid, c: X.Call, next: nat, next0: nat)
    requires KeyFacts(v, c.key) && c.semantic.None?
    ensures var (v1, x1, n1) := Solo(v, t, Opened(c), c.authority, next, Chosen(c), 3);
      var (v', y, _) := Solo(v1, t, x1, c.reread, n1, Chosen(c), 10);
      y.key == c.key && Leaves(v, v', y, X.Body(Sequential(v, next0), c).0)
  {
    SoloEnters(v, t, c, next);
    var x := Entered(v, c);
    var n1 := Solo(v, t, Opened(c), c.authority, next, Chosen(c), 3).2;
    var (v', y, _) := Solo(v, t, x, c.reread, n1, Chosen(c), 10);
    match x.pc
    case Returned =>
      SoloStays(v, t, x, c.reread, n1, Chosen(c), 10);
      ReturnedLeaves(v, c, next0);
    case AtReread =>
      SoloFresh(v, t, c, n1);
      FreshlyLeaves(v, v', t, c, y, next0);
    case _ =>
      SoloResumes(v, t, c, n1);
      ResumedLeaves(v, v', t, c, y, next0);
  }

  lemma ReturnedLeaves(v: View, c: X.Call, next: nat)
    requires KeyFacts(v, c.key) && Entered(v, c).pc.Returned? && c.semantic.None?
    ensures Leaves(v, v, Entered(v, c), X.Body(Sequential(v, next), c).0)
  {
    assert v.ledger + map[] == v.ledger && v.receipts + map[] == v.receipts;
  }

  // ----- in a schedule -----

  lemma {:induction false} RunJoins(s: State, a: seq<Label>, b: seq<Label>)
    ensures Run(s, a + b) == Run(Run(s, a), b)
    decreases |b|
  {
    if b == [] {
      assert a + b == a;
    } else {
      RunJoins(s, a, b[..|b| - 1]);
      assert (a + b)[..|a + b| - 1] == a + b[..|b| - 1];
    }
  }

  lemma RunOne(s: State, l: Label)
    ensures Run(s, [l]) == Step(s, l)
  {
    assert [l][..0] == [];
  }

  /** No open transaction holds the scope lock or an uncommitted receipt of the key. */
  ghost predicate Undisturbed(s: State, key: Key) {
    s.lock == None && forall u | u in s.txs && s.txs[u].Exec? :: key !in s.txs[u].call.receiptW
  }

  /** Since `s0` only call `t` has moved; it stands at `x`, and sees `v`. */
  ghost predicate Standing(s0: State, s: State, t: Tid, v: View, x: Call) {
    && t !in s0.txs && s.txs == s0.txs[t := Exec(x)] && s.ledger == s0.ledger && s.receipts == s0.receipts && s.records == s0.records
    && v == ViewOf(s, t) && s.lock == (if v.locked then Some(t) else None)
  }

  lemma KeyStays(v: View, t: Tid, x: Call, e: Around, c: Choice)
    ensures var m := ExecStmt(v, t, x, e, c); m.Move? ==> m.call.key == x.key
  {
  }

  lemma SoloRunsOn(s0: State, s: State, t: Tid, v: View, x: Call, c: Choice)
    requires Undisturbed(s0, x.key) && Standing(s0, s, t, v, x)
    ensures var s', m := Step(s, Advance(t, c)), ScriptOf(t, s.authority, c)(v, x, s.next);
      && s'.authority == s.authority
      && (if m.Wait? then s' == s else m.call.key == x.key && s'.next == s.next + 1 && Standing(s0, s', t, After(v, x, m, s.next), m.call))
  {
    KeyStays(v, t, x, Around(s.authority, true, false, s.next), c);
    assert !ReceiptBusy(s, t, x.key);
    assert AroundOf(s, t, x) == Around(s.authority, true, false, s.next);
  }

  /** `step` over and over. */
  function Repeat(step: State -> State, s: State, n: nat): State
    decreases n
  {
    if n == 0 then s else Repeat(step, step(s), n - 1)
  }

  /** If one step of the states follows one statement of the script, then so do many. */
  lemma {:induction false} Follows(step: State -> State, f: Script, stands: (State, View, Call) -> bool, s: State, v: View, x: Call, n: nat)
    requires stands(s, v, x)
    requires forall s1, v1, x1 :: stands(s1, v1, x1) ==>
      var m := f(v1, x1, s1.next);
      if m.Wait? then step(s1) == s1 else step(s1).next == s1.next + 1 && stands(step(s1), After(v1, x1, m, s1.next), m.call)
    ensures var s' := Repeat(step, s, n);
      var (v', y, next) := Play(f, v, x, s.next, n);
      stands(s', v', y) && s'.next == next
    decreases n
  {
    if n > 0 {
      var m := f(v, x, s.next);
      if m.Wait? {
        Stays(step, s, n);
      } else {
        Follows(step, f, stands, step(s), After(v, x, m, s.next), m.call, n - 1);
      }
    }
  }

  lemma {:induction false} Stays(step: State -> State, s: State, n: nat)
    requires step(s) == s
    ensures Repeat(step, s, n) == s
    decreases n
  {
    if n > 0 { Stays(step, s, n - 1); }
  }

  function Advances(t: Tid, c: Choice, n: nat): seq<Label> {
    if n == 0 then [] else [Advance(t, c)] + Advances(t, c, n - 1)
  }

  ghost function AdvanceOf(t: Tid, c: Choice): State -> State {
    (s: State) => Step(s, Advance(t, c))
  }

  lemma {:induction false} AdvancesRepeat(s: State, t: Tid, c: Choice, n: nat)
    ensures Run(s, Advances(t, c, n)) == Repeat(AdvanceOf(t, c), s, n)
    decreases n
  {
    if n > 0 {
      RunJoins(s, [Advance(t, c)], Advances(t, c, n - 1));
      RunOne(s, Advance(t, c));
      AdvancesRepeat(AdvanceOf(t, c)(s), t, c, n - 1);
    }
  }

  lemma SoloRuns(s0: State, s: State, t: Tid, v: View, x: Call, c: Choice, n: nat)
    requires Undisturbed(s0, x.key) && Standing(s0, s, t, v, x)
    ensures var s' := Run(s, Advances(t, c, n));
      var (v', y, next) := Solo(v, t, x, s.authority, s.next, c, n);
      Standing(s0, s', t, v', y) && s'.next == next && s'.authority == s.authority && y.key == x.key
  {
    var a, key := s.authority, x.key;
    var stands := (s1: State, v1: View, x1: Call) => Standing(s0, s1, t, v1, x1) && s1.authority == a && x1.key == key;
    forall s1, v1, x1 | stands(s1, v1, x1)
      ensures var m := ScriptOf(t, a, c)(v1, x1, s1.next);
        if m.Wait? then AdvanceOf(t, c)(s1) == s1
        else AdvanceOf(t, c)(s1).next == s1.next + 1 && stands(AdvanceOf(t, c)(s1), After(v1, x1, m, s1.next), m.call)
    {
      SoloRunsOn(s0, s1, t, v1, x1, c);
    }
    Follows(AdvanceOf(t, c), ScriptOf(t, a, c), stands, s, v, x, n);
    AdvancesRepeat(s, t, c, n);
  }

  /** The statements of one call without any other between them: first under the authority of its decision, from
      the re-read on under that of the re-read; then the end of its transaction. */
  function Serial(t: Tid, c: X.Call): seq<Label> {
    [SetAuthority(c.authority), BeginExec(c.key, c.capability)]
    + (if c.ending.RolledBackEarly? then [] else Advances(t, Chosen(c), 3))
    + [SetAuthority(c.reread)]
    + (if c.ending.RolledBackEarly? then [] else Advances(t, Chosen(c), 10))
    + [if c.ending.Kept? then CommitTx(t) else RollbackTx(t)]
  }

  lemma Opens(s: State, c: X.Call)
    requires s.next !in s.txs && s.lock == None
    ensures var s' := Run(s, [SetAuthority(c.authority), BeginExec(c.key, c.capability)]);
      Standing(s, s', s.next, ViewOf(s, s.next), Opened(c)) && s'.authority == c.authority
  {
    RunJoins(s, [SetAuthority(c.authority)], [BeginExec(c.key, c.capability)]);
    assert [SetAuthority(c.authority)] + [BeginExec(c.key, c.capability)] == [SetAuthority(c.authority), BeginExec(c.key, c.capability)];
    RunOne(s, SetAuthority(c.authority));
    RunOne(Step(s, SetAuthority(c.authority)), BeginExec(c.key, c.capability));
  }

  /** The call's statements up to the end of its transaction. */
  lemma SoloSchedule(s: State, c: X.Call) returns (s4: State, v: View, y: Call)
    requires s.next !in s.txs && Undisturbed(s, c.key) && KeyFacts(ViewOf(s, s.next), c.key) && c.semantic.None? && !c.ending.RolledBackEarly?
    ensures Run(s, Serial(s.next, c)) == Step(s4, if c.ending.Kept? then CommitTx(s.next) else RollbackTx(s.next))
    ensures Standing(s, s4, s.next, v, y) && s4.authority == c.reread && y.key == c.key
    ensures forall n: nat :: Leaves(ViewOf(s, s.next), v, y, X.Body(Sequential(ViewOf(s, s.next), n), c).0)
  {
    var t, v0 := s.next, ViewOf(s, s.next);
    var open := [SetAuthority(c.authority), BeginExec(c.key, c.capability)];
    var s1 := Run(s, open);
    Opens(s, c);
    var s2 := Run(s1, Advances(t, Chosen(c), 3));
    SoloRuns(s, s1, t, v0, Opened(c), Chosen(c), 3);
    var (v2, x2, _) := Solo(v0, t, Opened(c), c.authority, s1.next, Chosen(c), 3);
    var s3 := Step(s2, SetAuthority(c.reread));
    RunOne(s2, SetAuthority(c.reread));
    assert Standing(s, s3, t, v2, x2);
    s4 := Run(s3, Advances(t, Chosen(c), 10));
    SoloRuns(s, s3, t, v2, x2, Chosen(c), 10);
    var last := if c.ending.Kept? then CommitTx(t) else RollbackTx(t);
    RunOne(s4, last);
    var (v', y', _) := Solo(v2, t, x2, c.reread, s3.next, Chosen(c), 10);
    v, y := v', y';
    forall n: nat ensures Leaves(v0, v, y, X.Body(Sequential(v0, n), c).0) { SoloIsBody(v0, t, c, s1.next, n); }
    Joined(s, open, Advances(t, Chosen(c), 3), [SetAuthority(c.reread)], Advances(t, Chosen(c), 10), [last]);
  }

  lemma Joined(s: State, a: seq<Label>, b: seq<Label>, c: seq<Label>, d: seq<Label>, e: seq<Label>)
    ensures Run(s, a + b + c + d + e) == Run(Run(Run(Run(Run(s, a), b), c), d), e)
  {
    RunJoins(s, a + b + c + d, e);
    RunJoins(s, a + b + c, d);
    RunJoins(s, a + b, c);
    RunJoins(s, a, b);
  }

  /** In every reachable state in which nobody holds the scope lock or an uncommitted receipt of its key, a call whose
      statements run without others between them leaves the adapter, the ledger and the receipts as the sequential
      specification does, up to the ids drawn, whatever its gates, authority, requested status, crash and rollback;
      every other transaction and record stays as it was, and the lock is free again. */
  lemma SerialCallsRefine(ls: seq<Label>, c: X.Call, n: nat)
    requires c.semantic.None? && Undisturbed(Run(EMPTY, ls), c.key)
    ensures var s := Run(EMPTY, ls);
      var s' := Run(s, Serial(s.next, c));
      && Alike(c.key, s'.adapter, s'.ledger, s'.receipts, X.Execute(Sequential(ViewOf(s, s.next), n), c).0)
      && s'.txs == s.txs && s'.records == s.records && s'.lock == None && s'.authority == c.reread
  {
    var s := Run(EMPTY, ls);
    RunKeeps(ls);
    assert KeyFacts(ViewOf(s, 0), c.key);
    if c.ending.RolledBackEarly? {
      EarlyRollback(s, c);
    } else {
      LateOrKept(s, c, n);
    }
  }

  lemma LateOrKept(s: State, c: X.Call, n: nat)
    requires s.next !in s.txs && Undisturbed(s, c.key) && KeyFacts(ViewOf(s, s.next), c.key) && c.semantic.None? && !c.ending.RolledBackEarly?
    ensures var s' := Run(s, Serial(s.next, c));
      && Alike(c.key, s'.adapter, s'.ledger, s'.receipts, X.Execute(Sequential(ViewOf(s, s.next), n), c).0)
      && s'.txs == s.txs && s'.records == s.records && s'.lock == None && s'.authority == c.reread
  {
    var v0 := ViewOf(s, s.next);
    var s4, v, y := SoloSchedule(s, c);
    assert Leaves(v0, v, y, X.Body(Sequential(v0, n), c).0);
    Closes(s, s4, v, y, c.ending.Kept?);
    if !c.ending.Kept? { Dropped(v0, v, y, c, n); }
  }

  lemma EarlyRollback(s: State, c: X.Call)
    requires s.next !in s.txs && s.lock == None && c.ending.RolledBackEarly?
    ensures var s' := Run(s, Serial(s.next, c));
      && s'.adapter == s.adapter && s'.ledger == s.ledger && s'.receipts == s.receipts
      && s'.txs == s.txs && s'.records == s.records && s'.lock == None && s'.authority == c.reread
  {
    var open := [SetAuthority(c.authority), BeginExec(c.key, c.capability)];
    Opens(s, c);
    Joined(s, open, [], [SetAuthority(c.reread)], [], [RollbackTx(s.next)]);
    var s1 := Run(s, open);
    RunOne(s1, SetAuthority(c.reread));
    RunOne(Step(s1, SetAuthority(c.reread)), RollbackTx(s.next));
  }

  /** The end of the transaction publishes the call's writes or drops them. */
  lemma Closes(s: State, s4: State, v: View, y: Call, keep: bool)
    requires Standing(s, s4, s.next, v, y) && y.pc.Returned?
    ensures var s' := Step(s4, if keep then CommitTx(s.next) else RollbackTx(s.next));
      && s'.adapter == v.adapter && s'.ledger == (if keep then s.ledger + y.ledgerW else s.ledger)
      && s'.receipts == (if keep then s.receipts + y.receiptW else s.receipts)
      && s'.txs == s.txs && s'.records == s.records && s'.lock == None && s'.authority == s4.authority
  {
    assert s4.txs - {s.next} == s.txs;
  }

  /** And the sequential one does the same with its tables. */
  lemma Dropped(v: View, v': View, y: Call, c: X.Call, n: nat)
    requires Leaves(v, v', y, X.Body(Sequential(v, n), c).0) && c.ending.RolledBackLate?
    ensures Alike(y.key, v'.adapter, v.ledger, v.receipts, X.Execute(Sequential(v, n), c).0)
  {
  }

  // ----- reconciliations -----

  /** A reconciliation without other statements between its own, committed if it may be. */
  function SerialRec(t: Tid, f: Filter, sk: StateKey, value: string, c: Choice): seq<Label> {
    [BeginRec(f, sk, value)] + Advances(t, c, 4) + [CommitTx(t), RollbackTx(t)]
  }

  /** Undisturbed and with the lock free, a reconciliation stores its value exactly unless it would REPAIR while a
      ledger row its filter selects is blocking; it touches nothing else and leaves the lock free. */
  lemma SerialReconcile(ls: seq<Label>, f: Filter, sk: StateKey, value: string, c: Choice)
    requires Run(EMPTY, ls).lock == None
    ensures var s := Run(EMPTY, ls);
      var refused := c.repair && exists k | k in s.ledger :: Matches(f, k, s.ledger[k]) && BlockingRow(s.ledger[k]);
      var s' := Run(s, SerialRec(s.next, f, sk, value, c));
      && s'.records == (if refused then s.records else s.records[sk := value])
      && s'.ledger == s.ledger && s'.receipts == s.receipts && s'.adapter == s.adapter && s'.txs == s.txs && s'.lock == None
  {
    FreshTid(ls);
    RecSchedule(Run(EMPTY, ls), f, sk, value, c);
  }

  lemma FreshTid(ls: seq<Label>)
    ensures Run(EMPTY, ls).next !in Run(EMPTY, ls).txs
  {
    RunKeeps(ls);
  }

  lemma RecSchedule(s: State, f: Filter, sk: StateKey, value: string, c: Choice)
    requires s.next !in s.txs && s.lock == None
    ensures var s' := Run(s, SerialRec(s.next, f, sk, value, c));
      && s'.records == (if c.repair && !NoBlocking(s.ledger, f) then s.records else s.records[sk := value])
      && s'.ledger == s.ledger && s'.receipts == s.receipts && s'.adapter == s.adapter && s'.txs == s.txs && s'.lock == None
  {
    var t, x := s.next, Reconcile(f, sk, value, AtDecide, false, map[]);
    var s1 := RecOpens(s, f, sk, value);
    var s4, y, lock := RecAlone(s, s1, t, x, c);
    RecJoined(s, t, f, sk, value, c);
    RecCloses(s, s4, t, y, lock);
  }

  lemma RecJoined(s: State, t: Tid, f: Filter, sk: StateKey, value: string, c: Choice)
    ensures Run(s, SerialRec(t, f, sk, value, c)) == Run(Run(Run(s, [BeginRec(f, sk, value)]), Advances(t, c, 4)), [CommitTx(t), RollbackTx(t)])
  {
    RunJoins(s, [BeginRec(f, sk, value)] + Advances(t, c, 4), [CommitTx(t), RollbackTx(t)]);
    RunJoins(s, [BeginRec(f, sk, value)], Advances(t, c, 4));
  }

  lemma RecOpens(s: State, f: Filter, sk: StateKey, value: string) returns (s1: State)
    requires s.next !in s.txs && s.lock == None
    ensures s1 == Run(s, [BeginRec(f, sk, value)])
    ensures RecStands(s, s1, s.next, Reconcile(f, sk, value, AtDecide, false, map[]), None)
  {
    s1 := Step(s, BeginRec(f, sk, value));
    RunOne(s, BeginRec(f, sk, value));
  }

  /** Since `s0` only reconciliation `t` has moved; it stands at `x`. */
  ghost predicate RecStands(s0: State, s: State, t: Tid, x: Reconcile, lock: Option<Tid>) {
    && t !in s0.txs && s.txs == s0.txs[t := Rec(x)] && s.lock == lock
    && s.ledger == s0.ledger && s.receipts == s0.receipts && s.records == s0.records && s.adapter == s0.adapter
  }

  lemma RecMoves(s0: State, s: State, t: Tid, x: Reconcile, lock: Option<Tid>, c: Choice, y: Reconcile, locks: bool)
    requires RecStands(s0, s, t, x, lock) && (lock == None || lock == Some(t)) && RecStmt(s0.ledger, x, true, c) == (y, locks)
    ensures RecStands(s0, AdvanceOf(t, c)(s), t, y, if locks then Some(t) else lock)
  {
  }

  /** All its statements: where it stands then, and the lock it holds. */
  lemma RecAlone(s0: State, s: State, t: Tid, x: Reconcile, c: Choice) returns (s4: State, y: Reconcile, lock: Option<Tid>)
    requires RecStands(s0, s, t, x, None) && x.pc.AtDecide? && x.recordW == map[]
    ensures s4 == Run(s, Advances(t, c, 4)) && RecStands(s0, s4, t, y, lock) && (lock == None || lock == Some(t))
    ensures y.pc.Stopped? <==> !c.repair || NoBlocking(s0.ledger, x.filter)
    ensures OwnWrite(Rec(y)) && y.stateKey == x.stateKey && y.value == x.value
  {
    var step := AdvanceOf(t, c);
    AdvancesRepeat(s, t, c, 4);
    Four(step, s);
    s4 := step(step(step(step(s))));
    if c.repair {
      y := RecRepairs(s0, s, t, x, c);
      lock := Some(t);
    } else {
      var written := x.(recordW := map[x.stateKey := x.value], pc := Stopped);
      RecMoves(s0, s, t, x, None, c, x.(pc := AtOtherWrite), false);
      RecMoves(s0, step(s), t, x.(pc := AtOtherWrite), None, c, written, false);
      RecMoves(s0, step(step(s)), t, written, None, c, written, false);
      RecMoves(s0, step(step(step(s))), t, written, None, c, written, false);
      y, lock := written, None;
    }
  }

  lemma RecRepairs(s0: State, s: State, t: Tid, x: Reconcile, c: Choice) returns (y: Reconcile)
    requires RecStands(s0, s, t, x, None) && x.pc.AtDecide? && x.recordW == map[] && c.repair
    ensures var step := AdvanceOf(t, c); RecStands(s0, step(step(step(step(s)))), t, y, Some(t))
    ensures y == if NoBlocking(s0.ledger, x.filter) then x.(recordW := map[x.stateKey := x.value], repairing := true, pc := Stopped)
                 else x.(pc := Refused)
  {
    var step := AdvanceOf(t, c);
    RecMoves(s0, s, t, x, None, c, x.(pc := AtScopeLock), false);
    RecMoves(s0, step(s), t, x.(pc := AtScopeLock), None, c, x.(pc := AtRecheck), true);
    var x3 := if NoBlocking(s0.ledger, x.filter) then x.(pc := AtRepairWrite, repairing := true) else x.(pc := Refused);
    RecMoves(s0, step(step(s)), t, x.(pc := AtRecheck), Some(t), c, x3, false);
    y := if NoBlocking(s0.ledger, x.filter) then x.(recordW := map[x.stateKey := x.value], repairing := true, pc := Stopped) else x.(pc := Refused);
    RecMoves(s0, step(step(step(s))), t, x3, Some(t), c, y, false);
  }

  lemma Four(step: State -> State, s: State)
    ensures Repeat(step, s, 4) == step(step(step(step(s))))
  {
    var s2 := step(step(s));
    assert Repeat(step, s, 4) == Repeat(step, s2, 2);
    assert Repeat(step, s2, 2) == Repeat(step, step(step(s2)), 0);
  }

  lemma RecCloses(s0: State, s: State, t: Tid, x: Reconcile, lock: Option<Tid>)
    requires RecStands(s0, s, t, x, lock) && (lock == None || lock == Some(t)) && OwnWrite(Rec(x))
    ensures var s' := Run(s, [CommitTx(t), RollbackTx(t)]);
      && s'.records == (if x.pc.Stopped? then s0.records[x.stateKey := x.value] else s0.records)
      && s'.txs == s0.txs && s'.lock == None && s'.ledger == s0.ledger && s'.receipts == s0.receipts && s'.adapter == s0.adapter
  {
    assert [CommitTx(t), RollbackTx(t)] == [CommitTx(t)] + [RollbackTx(t)];
    RunJoins(s, [CommitTx(t)], [RollbackTx(t)]);
    RunOne(s, CommitTx(t));
    RunOne(Step(s, CommitTx(t)), RollbackTx(t));
    RecEnds(s0, s, t, x, lock);
    RecEndsIn(s0, s, t, x, lock);
  }

  lemma RecEndsIn(s0: State, s: State, t: Tid, x: Reconcile, lock: Option<Tid>)
    requires RecStands(s0, s, t, x, lock) && (lock == None || lock == Some(t)) && OwnWrite(Rec(x))
    ensures var s' := End(s, t, x.pc.Stopped?);
      && s'.records == (if x.pc.Stopped? then s0.records[x.stateKey := x.value] else s0.records)
      && s'.txs == s0.txs && s'.lock == None && s'.ledger == s0.ledger && s'.receipts == s0.receipts && s'.adapter == s0.adapter
  {
    assert s.txs - {t} == s0.txs;
  }

  lemma RecEnds(s0: State, s: State, t: Tid, x: Reconcile, lock: Option<Tid>)
    requires RecStands(s0, s, t, x, lock) && (lock == None || lock == Some(t))
    ensures Step(s, CommitTx(t)) == if x.pc.Stopped? then End(s, t, true) else s
    ensures Step(Step(s, CommitTx(t)), RollbackTx(t)) == End(s, t, x.pc.Stopped?)
  {
  }

  /** A reconciliation has written nothing but its own value, and that as its last statement. */
  predicate OwnWrite(x: Tx) {
    x.Rec? ==> x.rec.recordW == if x.rec.pc.Stopped? then map[x.rec.stateKey := x.rec.value] else map[]
  }

  ghost predicate OwnWrites(s: State) {
    forall t | t in s.txs :: OwnWrite(s.txs[t])
  }

  lemma OwnWriteStep(s: State, l: Label, u: Tid)
    requires OwnWrites(s) && u in Step(s, l).txs
    ensures OwnWrite(Step(s, l).txs[u])
  {
    if u in s.txs {
      assert OwnWrite(s.txs[u]);
      if l.Advance? && l.t == u && s.txs[u].Rec? { OwnWriteMoves(s.ledger, s.txs[u].rec, LockFree(s, u), l.choice); }
    }
  }

  lemma OwnWriteMoves(ledger: map<Key, LedgerRow>, x: Reconcile, free: bool, c: Choice)
    requires OwnWrite(Rec(x))
    ensures OwnWrite(Rec(RecStmt(ledger, x, free, c).0))
  {
  }

  lemma OwnWritesStep(s: State, l: Label)
    requires OwnWrites(s)
    ensures OwnWrites(Step(s, l))
  {
    forall u | u in Step(s, l).txs ensures OwnWrite(Step(s, l).txs[u]) { OwnWriteStep(s, l, u); }
  }

  lemma {:induction false} OwnWritesRun(ls: seq<Label>)
    ensures OwnWrites(Run(EMPTY, ls))
    decreases |ls|
  {
    if ls != [] {
      OwnWritesRun(ls[..|ls| - 1]);
      OwnWritesStep(Run(EMPTY, ls[..|ls| - 1]), ls[|ls| - 1]);
    }
  }

  /** In every schedule the records change exactly when a reconciliation that has stopped commits, and then by its
      own value under its own key. */
  lemma RecordsComeFromReconciles(ls: seq<Label>, l: Label)
    ensures var s, s' := Run(EMPTY, ls), Run(EMPTY, ls + [l]);
      s'.records == if l.CommitTx? && l.t in s.txs && s.txs[l.t].Rec? && s.txs[l.t].rec.pc.Stopped?
                    then s.records[s.txs[l.t].rec.stateKey := s.txs[l.t].rec.value] else s.records
  {
    OwnWritesRun(ls);
    assert (ls + [l])[..|ls|] == ls;
    RecordsStep(Run(EMPTY, ls), l);
  }

  lemma RecordsStep(s: State, l: Label)
    requires l.CommitTx? && l.t in s.txs ==> OwnWrite(s.txs[l.t])
    ensures Step(s, l).records == if l.CommitTx? && l.t in s.txs && s.txs[l.t].Rec? && s.txs[l.t].rec.pc.Stopped?
                                  then s.records[s.txs[l.t].rec.stateKey := s.txs[l.t].rec.value] else s.records
  {
  }
}
